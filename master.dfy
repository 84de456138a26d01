// The orchestrator: it reads its configuration leniently, picks sub-agents
// from the registry (never itself), filters them through the security
// policy, runs them round after round and reports the last round's results,
// latencies and success flags together with the forum transcript.
//
// Sub-agents run concurrently in the original and are cut off by a timeout.
// Here the scheduler is replaced by an oracle `out(round, name)` that says
// whether a handler returned (with its value and latency), raised (with the
// exception type and message) or had not finished when the timeout fired.

module Master {
  import opened Common
  import Security
  import Forum

  const MasterName: string := "MasterAgent"

  datatype Outcome =
    | Returned(value: Json, latency: real)
    | Raised(errType: string, errMsg: string)
    | Unfinished

  /** One round: the `results`, `metrics.latency` and `metrics.success`
      dictionaries (their iteration order is completion order, which is not
      modelled). */
  datatype RoundResult = RoundResult(results: map<string, Json>, latency: map<string, real>, success: map<string, real>)

  /** The final payload: the capped number of rounds, the last round and the
      serialised transcript. */
  datatype Payload = Payload(rounds: int, last: RoundResult, transcript: seq<Json>)

  // ---------------------------------------------------------------------
  // Configuration

  /** `params.get(key)` behind the guard `if self.config.params:`, which
      skips a missing or empty dictionary. */
  function Param(params: Option<seq<(string, Json)>>, key: string): (r: Option<Json>)
    ensures r.Some? ==> params.Some? && Get(params.value, key) == r
  {
    if params.Some? && params.value != [] then Get(params.value, key) else None
  }

  /** The rounds requested: an int (a bool is one) is taken with 0 read as
      1, anything else leaves the default 1. */
  function CoerceRounds(params: Option<seq<(string, Json)>>): (r: int)
    ensures r != 0
    ensures match Param(params, "rounds")
      case Some(JInt(i)) => r == (if i == 0 then 1 else i)
      case _ => r == 1
  {
    var v := Param(params, "rounds");
    if v.Some? && (v.value.JInt? || v.value.JBool?) then
      var n := if v.value.JInt? then v.value.i else if v.value.b then 1 else 0;
      if n == 0 then 1 else n
    else 1
  }

  /** `float(params["timeout_seconds"])`; a value `float` rejects raises
      inside the `try` and leaves no timeout. `parseFloat` stands for
      Python's parsing of a numeric string. */
  function CoerceTimeout(params: Option<seq<(string, Json)>>, parseFloat: string -> Option<real>): (r: Option<real>)
    ensures r.Some? ==> Param(params, "timeout_seconds").Some?
    ensures match Param(params, "timeout_seconds")
      case Some(JInt(i)) => r == Some(i as real)
      case Some(JFloat(x)) => r == Some(x)
      case Some(JStr(s)) => r == parseFloat(s)
      case Some(JList(_)) => r == None
      case Some(JObj(_)) => r == None
      case Some(JNull) => r == None
      case _ => true
  {
    match Param(params, "timeout_seconds")
    case None => None
    case Some(v) =>
      match v
      case JNull => None
      case JBool(b) => Some(if b then 1.0 else 0.0)
      case JInt(i) => Some(i as real)
      case JFloat(x) => Some(x)
      case JStr(s) => parseFloat(s)
      case JList(_) => None
      case JObj(_) => None
  }

  /** `timeout_s and timeout_s > 0`. */
  predicate TimeoutActive(t: Option<real>)
  {
    t.Some? && t.value > 0.0
  }

  /** `str(v)`: a string is itself; other values are rendered by `show`,
      which stands for Python's `repr`-based formatting. */
  function PyStr(v: Json, show: Json -> string): string
  {
    if v.JStr? then v.s else show(v)
  }

  function StrAll(items: seq<Json>, show: Json -> string): (r: seq<string>)
    ensures |r| == |items|
    ensures forall k :: 0 <= k < |r| ==> r[k] == PyStr(items[k], show)
  {
    if items == [] then [] else [PyStr(items[0], show)] + StrAll(items[1..], show)
  }

  /** The requested sub-agents: `[str(n) for n in params["subagents"]]` when
      that is a list, otherwise none. */
  function Wanted(params: Option<seq<(string, Json)>>, show: Json -> string): (r: seq<string>)
    ensures Param(params, "subagents").Some? && Param(params, "subagents").value.JList? ==>
      r == StrAll(Param(params, "subagents").value.items, show)
    ensures !(Param(params, "subagents").Some? && Param(params, "subagents").value.JList?) ==> r == []
  {
    match Param(params, "subagents")
    case Some(JList(items)) => StrAll(items, show)
    case _ => []
  }

  // ---------------------------------------------------------------------
  // Selection

  /** The requested names the registry knows, in request order, skipping
      the orchestrator itself; duplicates are kept. */
  function Resolve(wanted: seq<string>, registry: seq<string>): (r: seq<string>)
    ensures |r| <= |wanted|
    ensures forall n :: n in r <==> n in wanted && n != MasterName && n in registry
    decreases |wanted|
  {
    if wanted == [] then []
    else
      var n := wanted[|wanted| - 1];
      Resolve(wanted[..|wanted| - 1], registry) + (if n != MasterName && n in registry then [n] else [])
  }

  /** Resolution keeps request order: resolving a concatenation resolves
      each part. */
  lemma {:induction false} ResolveAppend(a: seq<string>, b: seq<string>, registry: seq<string>)
    ensures Resolve(a + b, registry) == Resolve(a, registry) + Resolve(b, registry)
    decreases |b|
  {
    if b == [] {
      assert a + b == a;
    } else {
      var b' := b[..|b| - 1];
      assert (a + b)[..|a + b| - 1] == a + b';
      ResolveAppend(a, b', registry);
    }
  }

  /** The registry without the orchestrator, in registry order. */
  function NonMaster(registry: seq<string>): (r: seq<string>)
    ensures |r| <= |registry|
    ensures forall n :: n in r <==> n in registry && n != MasterName
    ensures IsSubsequence(r, registry)
    ensures forall n :: n != MasterName ==> multiset(r)[n] == multiset(registry)[n]
    ensures multiset(r)[MasterName] == 0
    decreases |registry|
  {
    if registry == [] then []
    else
      var rest := NonMaster(registry[1..]);
      assert registry == [registry[0]] + registry[1..];
      if registry[0] != MasterName then
        assert ([registry[0]] + rest)[1..] == rest;
        [registry[0]] + rest
      else
        rest
  }

  /** The default selection: the first two registry entries other than the
      orchestrator. */
  function DefaultSelection(registry: seq<string>): (r: seq<string>)
    ensures |r| == if |NonMaster(registry)| < 2 then |NonMaster(registry)| else 2
    ensures r <= NonMaster(registry)
    ensures MasterName !in r
  {
    var nm := NonMaster(registry);
    var r := PyTakeSeq(nm, 2);
    assert MasterName !in r by {
      forall k | 0 <= k < |r| ensures r[k] != MasterName {
        assert r[k] == nm[k] && nm[k] in nm;
      }
    }
    r
  }

  /** The candidates of one round before the policy filter: the resolved
      request, or the default when nothing resolves (or nothing was
      requested). */
  function Selection(wanted: seq<string>, registry: seq<string>): (r: seq<string>)
    ensures MasterName !in r
    ensures forall n :: n in r ==> n in registry
    ensures Resolve(wanted, registry) != [] ==> r == Resolve(wanted, registry)
    ensures Resolve(wanted, registry) == [] ==> r == DefaultSelection(registry)
  {
    var resolved := Resolve(wanted, registry);
    if resolved != [] then resolved else DefaultSelection(registry)
  }

  /** Lines 65-89: walk the request, keep what the registry resolves, fall
      back to the default selection. */
  method Select(wanted: seq<string>, registry: seq<string>) returns (selected: seq<string>)
    ensures selected == Selection(wanted, registry)
  {
    selected := [];
    var i := 0;
    while i < |wanted|
      invariant 0 <= i <= |wanted|
      invariant selected == Resolve(wanted[..i], registry)
    {
      assert wanted[..i + 1][..i] == wanted[..i];
      var name := wanted[i];
      if name != MasterName && name in registry {
        selected := selected + [name];
      }
      i := i + 1;
    }
    assert wanted[..|wanted|] == wanted;
    if selected == [] {
      selected := DefaultSelection(registry);
    }
  }

  /** `[n for n in selected if n in allowed_names]`. */
  function Admitted(selected: seq<string>, allowedNames: seq<string>): (r: seq<string>)
    ensures forall n :: n in r <==> n in selected && n in allowedNames
  {
    if selected == [] then []
    else (if selected[0] in allowedNames then [selected[0]] else []) + Admitted(selected[1..], allowedNames)
  }

  /** Keeping the candidates whose names the policy returned is exactly the
      policy's own order-preserving filter of the candidates. */
  lemma {:induction false} AdmittedIsFilter(p: Security.Policy, selected: seq<string>, allowedNames: seq<string>)
    requires forall k :: 0 <= k < |selected| ==>
      (selected[k] in allowedNames <==> p.allowed.None? || selected[k] in p.allowed.value)
    ensures Admitted(selected, allowedNames) == Security.FilterNames(p, selected)
    decreases |selected|
  {
    if selected != [] {
      AdmittedIsFilter(p, selected[1..], allowedNames);
    }
  }

  /** The sub-agents one round runs. */
  function Chosen(p: Security.Policy, wanted: seq<string>, registry: seq<string>): (r: seq<string>)
    ensures r == Security.FilterNames(p, Selection(wanted, registry))
    ensures MasterName !in r
    ensures forall n :: n in r ==> n in registry
    ensures p.allowed.Some? ==> forall n :: n in r ==> n in p.allowed.value
  {
    var selected := Selection(wanted, registry);
    var allowedNames := Security.FilterNames(p, selected);
    AdmittedIsFilter(p, selected, allowedNames);
    Admitted(selected, allowedNames)
  }

  // ---------------------------------------------------------------------
  // One round

  function ErrorObj(msg: string): Json
  {
    JObj([("error", JStr(msg))])
  }

  /** `isinstance(r, dict) and r.get("error")`. */
  predicate IsErrorResult(v: Json)
  {
    v.JObj? && Get(v.fields, "error").Some? && Truthy(Get(v.fields, "error").value)
  }

  /** An error dictionary with a non-empty message counts as a failure. */
  lemma ErrorObjIsError(msg: string)
    requires msg != ""
    ensures IsErrorResult(ErrorObj(msg))
  {
    assert Get(ErrorObj(msg).fields, "error") == Some(JStr(msg));
  }

  /** The message stored when a handler raises. */
  function RaisedMessage(name: string, errType: string, errMsg: string): (m: string)
    ensures m != ""
  {
    errType + " while running " + name + ": " + errMsg
  }

  /** What `results[name]` holds after the round. */
  function ResultFor(name: string, o: Outcome): Json
  {
    match o
    case Returned(v, _) => v
    case Raised(t, m) => ErrorObj(RaisedMessage(name, t, m))
    case Unfinished => ErrorObj("timeout")
  }

  /** Without an active timeout the round waits for every handler. */
  predicate AllFinish(chosen: seq<string>, out: (nat, string) -> Outcome, round: nat, active: bool)
  {
    !active ==> forall k :: 0 <= k < |chosen| ==> !out(round, chosen[k]).Unfinished?
  }

  /** A round result records, for every chosen handler, what its outcome
      dictates: the value or error under `results`, a latency only for a
      normal return, and a success flag for every result. */
  ghost predicate RoundMatches(rr: RoundResult, chosen: seq<string>, out: (nat, string) -> Outcome, round: nat)
  {
    (forall n :: n in rr.results <==> n in chosen) &&
    (forall n :: n in rr.results ==> rr.results[n] == ResultFor(n, out(round, n))) &&
    (forall n :: n in rr.latency <==> n in chosen && out(round, n).Returned?) &&
    (forall n :: n in rr.latency ==> rr.latency[n] == out(round, n).latency) &&
    rr.success.Keys == rr.results.Keys &&
    (forall n :: n in rr.success ==> rr.success[n] == if IsErrorResult(rr.results[n]) then 0.0 else 1.0)
  }

  /** What each kind of outcome leaves in the three dictionaries: a return
      keeps its value and latency and succeeds unless the value is itself an
      error dictionary; a raise or a timeout leaves an error entry, no
      latency and a zero success flag. */
  lemma RoundOutcomes(rr: RoundResult, chosen: seq<string>, out: (nat, string) -> Outcome, round: nat, n: string)
    requires RoundMatches(rr, chosen, out, round) && n in chosen
    ensures n in rr.results && n in rr.success
    ensures out(round, n).Returned? ==>
      (rr.results[n] == out(round, n).value && n in rr.latency && rr.latency[n] == out(round, n).latency &&
       (rr.success[n] == 0.0 <==> IsErrorResult(out(round, n).value)))
    ensures out(round, n).Raised? ==>
      (rr.results[n] == ErrorObj(RaisedMessage(n, out(round, n).errType, out(round, n).errMsg)) &&
       n !in rr.latency && rr.success[n] == 0.0)
    ensures out(round, n).Unfinished? ==> rr.results[n] == ErrorObj("timeout") && n !in rr.latency && rr.success[n] == 0.0
    ensures rr.success[n] == 0.0 || rr.success[n] == 1.0
  {
    match out(round, n)
    case Returned(_, _) =>
    case Raised(t, m) => ErrorObjIsError(RaisedMessage(n, t, m));
    case Unfinished => ErrorObjIsError("timeout");
  }

  /** The transcript entry for a handler that returned `v`. */
  function AgentPost(name: string, v: Json, rules: seq<Security.Rule>, show: Json -> string, sub: (Security.Rule, string) -> string): Forum.Message
  {
    Forum.Message(Forum.Agent, Some(name), Security.ApplyRules(rules, PyStr(v, show), sub))
  }

  /** The number of chosen handlers that return normally. */
  function ReturnedCount(chosen: seq<string>, out: (nat, string) -> Outcome, round: nat): (c: nat)
    ensures c <= |chosen|
  {
    if chosen == [] then 0
    else ReturnedCount(chosen[..|chosen| - 1], out, round) + (if out(round, chosen[|chosen| - 1]).Returned? then 1 else 0)
  }

  /** The posts of one round: one per handler that returned, in selection
      order (the original posts in completion order). */
  function AgentPosts(chosen: seq<string>, out: (nat, string) -> Outcome, round: nat, rules: seq<Security.Rule>, show: Json -> string, sub: (Security.Rule, string) -> string): (r: seq<Forum.Message>)
    ensures |r| == ReturnedCount(chosen, out, round)
    decreases |chosen|
  {
    if chosen == [] then []
    else
      var n := chosen[|chosen| - 1];
      AgentPosts(chosen[..|chosen| - 1], out, round, rules, show, sub) +
        (if out(round, n).Returned? then [AgentPost(n, out(round, n).value, rules, show, sub)] else [])
  }

  /** Running one more handler appends its post, if any, to the posts of
      the handlers before it. */
  lemma AgentPostsStep(prefix: seq<Forum.Message>, before: seq<Forum.Message>, chosen: seq<string>, i: nat,
                       out: (nat, string) -> Outcome, round: nat,
                       rules: seq<Security.Rule>, show: Json -> string, sub: (Security.Rule, string) -> string)
    requires i < |chosen|
    requires before == prefix + AgentPosts(chosen[..i], out, round, rules, show, sub)
    ensures before + (if out(round, chosen[i]).Returned? then [AgentPost(chosen[i], out(round, chosen[i]).value, rules, show, sub)] else []) ==
      prefix + AgentPosts(chosen[..i + 1], out, round, rules, show, sub)
  {
    assert chosen[..i + 1][..i] == chosen[..i];
  }

  /** Every post of a round is an agent message naming a chosen handler
      that returned normally. */
  lemma {:induction false} AgentPostsShape(chosen: seq<string>, out: (nat, string) -> Outcome, round: nat, rules: seq<Security.Rule>, show: Json -> string, sub: (Security.Rule, string) -> string)
    ensures forall m :: m in AgentPosts(chosen, out, round, rules, show, sub) ==>
      m.role == Forum.Agent && m.agent.Some? && m.agent.value in chosen && out(round, m.agent.value).Returned?
    decreases |chosen|
  {
    if chosen != [] {
      var init := chosen[..|chosen| - 1];
      AgentPostsShape(init, out, round, rules, show, sub);
      forall n | n in init ensures n in chosen {
        var k :| 0 <= k < |init| && init[k] == n;
        assert chosen[k] == n;
      }
    }
  }

  /** Run every chosen handler (`_run_one` for each task): a return stores
      the value, posts it redacted and records the latency; a raise stores
      the error; an unfinished handler leaves nothing yet. */
  method RunHandlers(forum: Forum.Forum, redactor: Security.Redactor, chosen: seq<string>, out: (nat, string) -> Outcome, round: nat,
                     show: Json -> string, sub: (Security.Rule, string) -> string)
    returns (results: map<string, Json>, latency: map<string, real>)
    modifies forum
    ensures Gathered(results, latency, chosen, out, round)
    ensures forum.messages == old(forum.messages) + AgentPosts(chosen, out, round, Security.ActiveRules(redactor.level), show, sub)
  {
    ghost var rules := Security.ActiveRules(redactor.level);
    results, latency := map[], map[];
    var i := 0;
    while i < |chosen|
      invariant 0 <= i <= |chosen|
      invariant Gathered(results, latency, chosen[..i], out, round)
      invariant forum.messages == old(forum.messages) + AgentPosts(chosen[..i], out, round, rules, show, sub)
    {
      var name := chosen[i];
      ghost var before := forum.messages;
      var results', latency' := RunOne(forum, redactor, name, out(round, name), results, latency, show, sub);
      GatheredStep(chosen, i, out, round, results, latency, results', latency');
      AgentPostsStep(old(forum.messages), before, chosen, i, out, round, rules, show, sub);
      results, latency, i := results', latency', i + 1;
    }
    assert chosen[..|chosen|] == chosen;
  }

  /** What `results` and `latency` hold once the handlers of `names` have
      run: a result for each finished name, a latency for each that
      returned, and nothing else. */
  ghost predicate Gathered(results: map<string, Json>, latency: map<string, real>, names: seq<string>,
                           out: (nat, string) -> Outcome, round: nat)
  {
    (forall n :: n in results <==> n in names && !out(round, n).Unfinished?) &&
    (forall n :: n in results ==> results[n] == ResultFor(n, out(round, n))) &&
    (forall n :: n in latency <==> n in names && out(round, n).Returned?) &&
    (forall n :: n in latency ==> latency[n] == out(round, n).latency)
  }

  /** One handler's outcome extends what was gathered for a prefix of the
      chosen names to the prefix one longer. */
  lemma GatheredStep(chosen: seq<string>, i: nat, out: (nat, string) -> Outcome, round: nat,
                     results: map<string, Json>, latency: map<string, real>,
                     results': map<string, Json>, latency': map<string, real>)
    requires i < |chosen|
    requires Gathered(results, latency, chosen[..i], out, round)
    requires out(round, chosen[i]).Unfinished? ==> results' == results
    requires !out(round, chosen[i]).Unfinished? ==> results' == results[chosen[i] := ResultFor(chosen[i], out(round, chosen[i]))]
    requires out(round, chosen[i]).Returned? ==> latency' == latency[chosen[i] := out(round, chosen[i]).latency]
    requires !out(round, chosen[i]).Returned? ==> latency' == latency
    ensures Gathered(results', latency', chosen[..i + 1], out, round)
  {
    var name := chosen[i];
    assert chosen[..i + 1] == chosen[..i] + [name];
  }

  /** `_run_one`: a handler that returned has its value stored, posted
      (redacted) and its latency recorded; one that raised has the error
      stored; an unfinished one changes nothing. */
  method RunOne(forum: Forum.Forum, redactor: Security.Redactor, name: string, o: Outcome,
                results: map<string, Json>, latency: map<string, real>,
                show: Json -> string, sub: (Security.Rule, string) -> string)
    returns (results': map<string, Json>, latency': map<string, real>)
    modifies forum
    ensures o.Unfinished? ==> results' == results
    ensures !o.Unfinished? ==> results' == results[name := ResultFor(name, o)]
    ensures o.Returned? ==> latency' == latency[name := o.latency]
    ensures !o.Returned? ==> latency' == latency
    ensures forum.messages == old(forum.messages) +
      (if o.Returned? then [AgentPost(name, o.value, Security.ActiveRules(redactor.level), show, sub)] else [])
  {
    results', latency' := results, latency;
    match o {
      case Returned(v, l) =>
        results' := results[name := v];
        var redacted := redactor.Redact(Some(PyStr(v, show)), sub);
        var _ := forum.Post("agent", if redacted.Some? then redacted.value else "", Some(name));
        latency' := latency[name := l];
      case Raised(t, m) =>
        results' := results[name := ErrorObj(RaisedMessage(name, t, m))];
      case Unfinished =>
    }
  }

  /** After a timeout, every chosen name without a result gets exactly
      `{"error": "timeout"}`. */
  method MarkTimeouts(chosen: seq<string>, results: map<string, Json>, out: (nat, string) -> Outcome, round: nat) returns (marked: map<string, Json>)
    requires forall n :: n in results <==> n in chosen && !out(round, n).Unfinished?
    requires forall n :: n in results ==> results[n] == ResultFor(n, out(round, n))
    ensures forall n :: n in marked <==> n in chosen
    ensures forall n :: n in marked ==> marked[n] == ResultFor(n, out(round, n))
  {
    marked := results;
    var i := 0;
    while i < |chosen|
      invariant 0 <= i <= |chosen|
      invariant forall n :: n in marked <==> n in chosen && (!out(round, n).Unfinished? || n in chosen[..i])
      invariant forall n :: n in marked ==> marked[n] == ResultFor(n, out(round, n))
    {
      assert chosen[..i + 1][..i] == chosen[..i];
      var name := chosen[i];
      if name !in marked {
        marked := marked[name := ErrorObj("timeout")];
      }
      i := i + 1;
    }
    assert chosen[..|chosen|] == chosen;
  }

  /** `success[n] = 0.0 if results[n] is an error dict else 1.0`, for every
      result. */
  method SuccessFlags(chosen: seq<string>, results: map<string, Json>) returns (success: map<string, real>)
    requires forall n :: n in results <==> n in chosen
    ensures success.Keys == results.Keys
    ensures forall n :: n in success ==> success[n] == if IsErrorResult(results[n]) then 0.0 else 1.0
  {
    success := map[];
    var i := 0;
    while i < |chosen|
      invariant 0 <= i <= |chosen|
      invariant forall n :: n in success <==> n in chosen[..i]
      invariant forall n :: n in success ==> success[n] == if IsErrorResult(results[n]) then 0.0 else 1.0
    {
      assert chosen[..i + 1][..i] == chosen[..i];
      var name := chosen[i];
      success := success[name := if IsErrorResult(results[name]) then 0.0 else 1.0];
      i := i + 1;
    }
    assert chosen[..|chosen|] == chosen;
  }

  /** Lines 65-92: the selection, then the allow-list filter. */
  method Choose(p: Security.Policy, wanted: seq<string>, registry: seq<string>) returns (selected: seq<string>)
    ensures selected == Chosen(p, wanted, registry)
  {
    selected := Select(wanted, registry);
    var allowedNames := Security.FilterNames(p, selected);
    selected := Admitted(selected, allowedNames);
  }

  /** `_run_round_once` after the selection: an empty selection returns
      empty dictionaries and posts nothing; otherwise every handler runs,
      the ones a timeout cut off are marked, and the success flags are
      derived. The selection is the same in every round (it depends only on
      the configuration, the registry and the policy), so it is computed
      once by `Choose` and passed in. */
  method RunRound(forum: Forum.Forum, redactor: Security.Redactor, selected: seq<string>,
                  out: (nat, string) -> Outcome, round: nat, active: bool,
                  show: Json -> string, sub: (Security.Rule, string) -> string)
    returns (rr: RoundResult)
    requires AllFinish(selected, out, round, active)
    modifies forum
    ensures RoundMatches(rr, selected, out, round)
    ensures forum.messages == old(forum.messages) + AgentPosts(selected, out, round, Security.ActiveRules(redactor.level), show, sub)
  {
    if selected == [] {
      return RoundResult(map[], map[], map[]);
    }
    var results, latency := RunHandlers(forum, redactor, selected, out, round, show, sub);
    if active {
      results := MarkTimeouts(selected, results, out, round);
    } else {
      assert forall n :: n in results <==> n in selected by {
        forall n | n in selected ensures n in results {
          var k :| 0 <= k < |selected| && selected[k] == n;
        }
      }
    }
    var success := SuccessFlags(selected, results);
    rr := RoundResult(results, latency, success);
  }

  // ---------------------------------------------------------------------
  // The whole run

  const StartMessage: Forum.Message := Forum.Message(Forum.System, Some(MasterName), "MasterAgent starting orchestration")
  const SynthesisMessage: Forum.Message := Forum.Message(Forum.Agent, Some(MasterName), "Synthesis complete")

  /** The redacted user message, present only for a truthy input. */
  function UserPosts(input: Json, rules: seq<Security.Rule>, show: Json -> string, sub: (Security.Rule, string) -> string): (r: seq<Forum.Message>)
    ensures |r| == if Truthy(input) then 1 else 0
  {
    if Truthy(input) then [Forum.Message(Forum.User, None, Security.ApplyRules(rules, PyStr(input, show), sub))]
    else []
  }

  /** The agent posts of the first `rounds` rounds, round after round. */
  function RoundsPosts(rounds: nat, chosen: seq<string>, out: (nat, string) -> Outcome, rules: seq<Security.Rule>,
                       show: Json -> string, sub: (Security.Rule, string) -> string): seq<Forum.Message>
  {
    if rounds == 0 then []
    else RoundsPosts(rounds - 1, chosen, out, rules, show, sub) + AgentPosts(chosen, out, rounds, rules, show, sub)
  }

  /** The transcript of a run: the start message, the user message, every
      round's agent posts, and the closing synthesis message. */
  function TranscriptSpec(input: Json, rounds: nat, chosen: seq<string>, out: (nat, string) -> Outcome, rules: seq<Security.Rule>,
                          show: Json -> string, sub: (Security.Rule, string) -> string): seq<Forum.Message>
  {
    [StartMessage] + UserPosts(input, rules, show, sub) + RoundsPosts(rounds, chosen, out, rules, show, sub) + [SynthesisMessage]
  }

  lemma {:induction false} RoundsPostsShape(rounds: nat, chosen: seq<string>, out: (nat, string) -> Outcome, rules: seq<Security.Rule>,
                                            show: Json -> string, sub: (Security.Rule, string) -> string)
    ensures forall m :: m in RoundsPosts(rounds, chosen, out, rules, show, sub) ==>
      m.role == Forum.Agent && m.agent.Some? && m.agent.value in chosen
  {
    if rounds > 0 {
      RoundsPostsShape(rounds - 1, chosen, out, rules, show, sub);
      AgentPostsShape(chosen, out, rounds, rules, show, sub);
    }
  }

  /** The transcript opens with the system message, has a user message
      exactly when the input is truthy (and then right after the opening),
      carries only agent posts of chosen handlers in between, and closes with
      "Synthesis complete" from the orchestrator. */
  lemma TranscriptShape(input: Json, rounds: nat, chosen: seq<string>, out: (nat, string) -> Outcome, rules: seq<Security.Rule>,
                        show: Json -> string, sub: (Security.Rule, string) -> string)
    ensures var t := TranscriptSpec(input, rounds, chosen, out, rules, show, sub);
      |t| >= 2 && t[0] == StartMessage && t[|t| - 1] == SynthesisMessage &&
      ((exists k :: 0 <= k < |t| && t[k].role == Forum.User) <==> Truthy(input)) &&
      (Truthy(input) ==> t[1] == UserPosts(input, rules, show, sub)[0]) &&
      (forall k :: (if Truthy(input) then 2 else 1) <= k < |t| - 1 ==>
        t[k].role == Forum.Agent && t[k].agent.Some? && t[k].agent.value in chosen)
  {
    var t := TranscriptSpec(input, rounds, chosen, out, rules, show, sub);
    var u := UserPosts(input, rules, show, sub);
    var rp := RoundsPosts(rounds, chosen, out, rules, show, sub);
    RoundsPostsShape(rounds, chosen, out, rules, show, sub);
    assert t == [StartMessage] + u + rp + [SynthesisMessage];
    forall k | |u| + 1 <= k < |t| - 1
      ensures t[k].role == Forum.Agent && t[k].agent.Some? && t[k].agent.value in chosen
    {
      assert t[k] == rp[k - 1 - |u|];
    }
    if Truthy(input) {
      assert t[1].role == Forum.User;
    } else {
      forall k | 0 <= k < |t| ensures t[k].role != Forum.User {
        if 0 < k < |t| - 1 {
          assert t[k] == rp[k - 1];
        }
      }
    }
  }

  /** The rounds loop: every round runs in turn and overwrites the
      previous result, so only the last one is returned. */
  method RunRounds(forum: Forum.Forum, redactor: Security.Redactor, selected: seq<string>,
                   out: (nat, string) -> Outcome, active: bool, rounds: nat,
                   show: Json -> string, sub: (Security.Rule, string) -> string)
    returns (last: RoundResult)
    requires rounds >= 1
    requires forall i: nat :: AllFinish(selected, out, i, active)
    modifies forum
    ensures forum.messages == old(forum.messages) + RoundsPosts(rounds, selected, out, Security.ActiveRules(redactor.level), show, sub)
    ensures RoundMatches(last, selected, out, rounds)
  {
    last := RoundResult(map[], map[], map[]);
    var done := 0;
    while done < rounds
      invariant 0 <= done <= rounds
      invariant forum.messages == old(forum.messages) + RoundsPosts(done, selected, out, Security.ActiveRules(redactor.level), show, sub)
      invariant done > 0 ==> RoundMatches(last, selected, out, done)
    {
      ghost var before := forum.messages;
      var next := done + 1;
      last := RunRound(forum, redactor, selected, out, next, active, show, sub);
      RoundsPostsStep(old(forum.messages), before, done, next, selected, out, Security.ActiveRules(redactor.level), show, sub);
      done := next;
    }
    RoundMatchesSame(last, last, selected, out, done, rounds);
  }

  /** One more round appends that round's posts to the transcript. */
  lemma RoundsPostsStep(prefix: seq<Forum.Message>, before: seq<Forum.Message>, done: nat, next: nat, chosen: seq<string>,
                        out: (nat, string) -> Outcome, rules: seq<Security.Rule>, show: Json -> string, sub: (Security.Rule, string) -> string)
    requires next == done + 1
    requires before == prefix + RoundsPosts(done, chosen, out, rules, show, sub)
    ensures before + AgentPosts(chosen, out, next, rules, show, sub) == prefix + RoundsPosts(next, chosen, out, rules, show, sub)
  {
  }

  /** What a successful run reports once the policy and the selection are
      known: the last round's dictionaries and the transcript, message by
      message. */
  ghost predicate RunMatches(pl: Payload, chosen: seq<string>, input: Json, out: (nat, string) -> Outcome,
                             rules: seq<Security.Rule>, show: Json -> string, sub: (Security.Rule, string) -> string)
  {
    pl.rounds >= 1 &&
    RoundMatches(pl.last, chosen, out, pl.rounds) &&
    |pl.transcript| == |TranscriptSpec(input, pl.rounds, chosen, out, rules, show, sub)| &&
    forall k :: 0 <= k < |pl.transcript| ==>
      Forum.MessageFromJson(pl.transcript[k]) == Some(TranscriptSpec(input, pl.rounds, chosen, out, rules, show, sub)[k])
  }

  /** The opening of a run on a fresh transcript: the orchestrator's start
      message, then the redacted input as a user message when the input is
      truthy. */
  method Open(forum: Forum.Forum, redactor: Security.Redactor, input: Json,
              show: Json -> string, sub: (Security.Rule, string) -> string)
    requires forum.messages == []
    modifies forum
    ensures forum.messages == [StartMessage] + UserPosts(input, Security.ActiveRules(redactor.level), show, sub)
  {
    var _ := forum.Post("system", "MasterAgent starting orchestration", Some(MasterName));
    if Truthy(input) {
      var redacted := redactor.Redact(Some(PyStr(input, show)), sub);
      var _ := forum.Post("user", if redacted.Some? then redacted.value else "", None);
    }
  }

  /** `MasterAgent.run`. The policy comes from the environment (a bad
      round cap raises before anything is posted); then the opening and user
      messages, the coerced and capped number of rounds, every round in
      turn, and the closing message. Only the last round's dictionaries are
      reported. */
  method Run(params: Option<seq<(string, Json)>>, input: Json, registry: seq<string>,
             allowedEnv: Option<string>, maxRoundsEnv: Option<string>, redactor: Security.Redactor,
             out: (nat, string) -> Outcome, show: Json -> string, sub: (Security.Rule, string) -> string,
             parseFloat: string -> Option<real>)
    returns (r: Result<Payload>)
    requires TimeoutActive(CoerceTimeout(params, parseFloat)) ||
      forall i: nat, k :: 0 <= k < |registry| ==> !out(i, registry[k]).Unfinished?
    ensures r.Err? <==> Security.FromEnv(allowedEnv, maxRoundsEnv).Err?
    ensures r.Ok? ==> r.value.rounds == Security.CapRounds(Security.FromEnv(allowedEnv, maxRoundsEnv).value, CoerceRounds(params))
    ensures r.Ok? ==>
      RunMatches(r.value, Chosen(Security.FromEnv(allowedEnv, maxRoundsEnv).value, Wanted(params, show), registry),
                 input, out, Security.ActiveRules(redactor.level), show, sub)
  {
    var forum := new Forum.Forum();
    var policy := Security.FromEnv(allowedEnv, maxRoundsEnv);
    if policy.Err? {
      return Err(policy.kind, policy.msg);
    }
    var p := policy.value;
    Open(forum, redactor, input, show, sub);
    var rounds := CoerceRounds(params);
    var active := TimeoutActive(CoerceTimeout(params, parseFloat));
    var wanted := Wanted(params, show);
    var selected := Choose(p, wanted, registry);
    assert forall i: nat :: AllFinish(selected, out, i, active) by {
      if !active {
        forall i: nat, k | 0 <= k < |selected| ensures !out(i, selected[k]).Unfinished? {
          assert selected[k] in registry;
        }
      }
    }
    rounds := Security.CapRounds(p, rounds);
    var pl := Orchestrate(forum, redactor, selected, out, active, rounds, input, show, sub);
    r := Ok(pl);
    RunMatchesSame(pl, r.value, selected, Chosen(p, wanted, registry), input, out, Security.ActiveRules(redactor.level), show, sub);
  }

  /** The part of `run` after the selection: every round in turn, the
      closing message, and the payload built from the last round and the
      serialised transcript. */
  method Orchestrate(forum: Forum.Forum, redactor: Security.Redactor, selected: seq<string>,
                     out: (nat, string) -> Outcome, active: bool, rounds: nat, input: Json,
                     show: Json -> string, sub: (Security.Rule, string) -> string)
    returns (pl: Payload)
    requires rounds >= 1
    requires forall i: nat :: AllFinish(selected, out, i, active)
    requires forum.messages == [StartMessage] + UserPosts(input, Security.ActiveRules(redactor.level), show, sub)
    modifies forum
    ensures pl.rounds == rounds
    ensures RunMatches(pl, selected, input, out, Security.ActiveRules(redactor.level), show, sub)
  {
    ghost var opening := forum.messages;
    var last := RunRounds(forum, redactor, selected, out, active, rounds, show, sub);
    var _ := forum.Post("agent", "Synthesis complete", Some(MasterName));
    assert forum.messages == TranscriptSpec(input, rounds, selected, out, Security.ActiveRules(redactor.level), show, sub);
    var transcript := forum.ToDict();
    pl := Payload(rounds, last, transcript);
    RoundMatchesSame(last, pl.last, selected, out, rounds, pl.rounds);
    RunMatchesIntro(pl, rounds, selected, input, out, Security.ActiveRules(redactor.level), show, sub, forum.messages);
  }

  lemma RoundMatchesSame(a: RoundResult, b: RoundResult, chosen: seq<string>, out: (nat, string) -> Outcome, i: nat, j: nat)
    requires a == b && i == j && RoundMatches(a, chosen, out, i)
    ensures RoundMatches(b, chosen, out, j)
  {
  }

  lemma RunMatchesIntro(pl: Payload, rounds: nat, chosen: seq<string>, input: Json, out: (nat, string) -> Outcome,
                        rules: seq<Security.Rule>, show: Json -> string, sub: (Security.Rule, string) -> string,
                        messages: seq<Forum.Message>)
    requires pl.rounds == rounds && pl.rounds >= 1 && RoundMatches(pl.last, chosen, out, pl.rounds)
    requires messages == TranscriptSpec(input, rounds, chosen, out, rules, show, sub)
    requires |pl.transcript| == |messages|
    requires forall k :: 0 <= k < |messages| ==> Forum.MessageFromJson(pl.transcript[k]) == Some(messages[k])
    ensures RunMatches(pl, chosen, input, out, rules, show, sub)
  {
  }

  lemma RunMatchesSame(a: Payload, b: Payload, c: seq<string>, d: seq<string>, input: Json, out: (nat, string) -> Outcome,
                       rules: seq<Security.Rule>, show: Json -> string, sub: (Security.Rule, string) -> string)
    requires a == b && c == d && RunMatches(a, c, input, out, rules, show, sub)
    ensures RunMatches(b, d, input, out, rules, show, sub)
  {
  }
}
