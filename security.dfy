// The security policy (an allow-list of agent names and a cap on
// orchestration rounds, read from two environment variables) and the
// redactor that masks secrets in transcript text at a normal or strict level.

module Security {
  import opened Common

  /** `allowed == None` means "no restriction". */
  datatype Policy = Policy(allowed: Option<set<string>>, maxRounds: int)
  {
    predicate Valid()
    {
      maxRounds >= 1 && (allowed.Some? ==> allowed.value != {})
    }
  }

  function SetOf(xs: seq<string>): (s: set<string>)
    ensures forall x :: x in s <==> x in xs
  {
    set x | x in xs
  }

  /** `SecurityPolicy(allowed_agents, max_rounds)`: an absent or empty
      allow-list is stored as "no restriction" and the cap is at least one. */
  function NewPolicy(allowedAgents: Option<seq<string>>, maxRounds: int): (p: Policy)
    ensures p.Valid()
    ensures p.maxRounds == if maxRounds < 1 then 1 else maxRounds
    ensures p.allowed.None? <==> allowedAgents.None? || allowedAgents.value == []
    ensures p.allowed.Some? ==> forall x :: x in p.allowed.value <==> x in allowedAgents.value
  {
    var allowed :=
      if allowedAgents.None? || allowedAgents.value == [] then None
      else
        assert allowedAgents.value[0] in SetOf(allowedAgents.value);
        Some(SetOf(allowedAgents.value));
    Policy(allowed, if maxRounds < 1 then 1 else maxRounds)
  }

  // ---------------------------------------------------------------------
  // Reading the environment

  /** A well-formed allow-list entry: non-blank, stripped, comma-free. */
  predicate IsEntry(x: string)
  {
    x != [] && !IsSpace(x[0]) && !IsSpace(x[|x| - 1]) && ',' !in x
  }

  /** The entries of a comma-separated list that are non-blank, stripped. */
  function StrippedEntries(pieces: seq<string>): (r: seq<string>)
    requires forall j :: 0 <= j < |pieces| ==> ',' !in pieces[j]
    ensures forall k :: 0 <= k < |r| ==> IsEntry(r[k])
    ensures |r| <= |pieces|
  {
    if pieces == [] then []
    else
      var s := Strip(pieces[0]);
      StripKeepsChars(pieces[0]);
      var rest := StrippedEntries(pieces[1..]);
      if s == [] then rest else [s] + rest
  }

  /** The allow-list parsed from `FTSYSTEM_ALLOWED_AGENTS`. */
  function ParseAllowList(env: string): (r: seq<string>)
    ensures forall k :: 0 <= k < |r| ==> IsEntry(r[k])
  {
    StrippedEntries(SplitOn(env, ','))
  }

  lemma SplitOnCons(e: string, rest: string)
    requires ',' !in e
    ensures SplitOn(e + "," + rest, ',') == [e] + SplitOn(rest, ',')
  {
    var s := e + "," + rest;
    IndexOfFirst(s, ',', |e|);
    assert s[..|e|] == e;
    assert s[|e| + 1..] == rest;
  }

  lemma SplitOnNone(e: string)
    requires ',' !in e
    ensures SplitOn(e, ',') == [e]
  {
    assert IndexOf(e, ',') == |e|;
  }

  /** Parsing a list that was written back with commas gives the same list:
      entries are stripped, non-empty and comma-free, so nothing is lost. */
  lemma {:induction false} ParseAllowListRoundTrip(entries: seq<string>)
    requires forall k :: 0 <= k < |entries| ==> IsEntry(entries[k])
    ensures entries != [] ==> ParseAllowList(Join(entries, ",")) == entries
    decreases |entries|
  {
    if |entries| == 1 {
      SplitOnNone(entries[0]);
      StrippedEntriesCons(entries[0], []);
    } else if |entries| > 1 {
      var e, rest := entries[0], Join(entries[1..], ",");
      assert Join(entries, ",") == e + "," + rest;
      SplitOnCons(e, rest);
      ParseAllowListRoundTrip(entries[1..]);
      StrippedEntriesCons(e, SplitOn(rest, ','));
      assert entries == [e] + entries[1..];
    }
  }

  /** A well-formed entry in front passes through unchanged. */
  lemma StrippedEntriesCons(e: string, pieces: seq<string>)
    requires IsEntry(e)
    requires forall j :: 0 <= j < |pieces| ==> ',' !in pieces[j]
    ensures StrippedEntries([e] + pieces) == [e] + StrippedEntries(pieces)
  {
    StripUnchanged(e);
    assert ([e] + pieces)[1..] == pieces;
  }

  lemma IndexOfFirst(s: string, c: char, i: nat)
    requires i < |s| && s[i] == c && forall k :: 0 <= k < i ==> s[k] != c
    ensures IndexOf(s, c) == i
  {
  }

  /** `SecurityPolicy.from_env()`: the allow-list comes from the first
      variable (unset or empty: no restriction), the cap from the second
      (unset: 5); a cap that is not an integer raises ValueError. */
  function FromEnv(allowedEnv: Option<string>, maxRoundsEnv: Option<string>): (r: Result<Policy>)
    ensures r.Ok? <==> maxRoundsEnv.None? || ParseInt(maxRoundsEnv.value).Some?
    ensures r.Err? ==> r.kind == "ValueError"
    ensures r.Ok? ==> r.value.Valid()
    ensures r.Ok? && maxRoundsEnv.None? ==> r.value.maxRounds == 5
    ensures r.Ok? && maxRoundsEnv.Some? ==> r.value.maxRounds == Max(1, ParseInt(maxRoundsEnv.value).value)
    ensures r.Ok? ==> (r.value.allowed.None? <==> allowedEnv.None? || ParseAllowList(allowedEnv.value) == [])
    ensures r.Ok? && (allowedEnv.None? || allowedEnv.value == "") ==> r.value.allowed.None?
    ensures r.Ok? && r.value.allowed.Some? ==>
      allowedEnv.Some? && forall x :: x in r.value.allowed.value <==> x in ParseAllowList(allowedEnv.value)
  {
    var allowed := if allowedEnv.Some? && allowedEnv.value != "" then Some(ParseAllowList(allowedEnv.value)) else None;
    // The default text "5" parses to 5 (DefaultMaxRounds).
    var parsed := if maxRoundsEnv.Some? then ParseInt(maxRoundsEnv.value) else Some(5);
    match parsed
    case None => Err("ValueError", "invalid literal for int() with base 10: '" + maxRoundsEnv.value + "'")
    case Some(m) => Ok(NewPolicy(allowed, m))
  }

  /** The default cap, written as the text "5", reads as 5. */
  lemma DefaultMaxRounds()
    ensures ParseInt("5") == Some(5)
  {
    ParseIntOfIntToString(5);
    assert IntToString(5) == "5";
  }

  // ---------------------------------------------------------------------
  // Using the policy

  /** `filter_subagents`: the names the allow-list admits, in order,
      duplicates kept; without an allow-list the input itself. */
  function FilterNames(p: Policy, names: seq<string>): (r: seq<string>)
    ensures p.allowed.None? ==> r == names
    ensures |r| <= |names|
    ensures forall x :: x in r <==> x in names && (p.allowed.None? || x in p.allowed.value)
  {
    if p.allowed.None? then names
    else if names == [] then []
    else
      var rest := FilterNames(p, names[1..]);
      if names[0] in p.allowed.value then [names[0]] + rest else rest
  }

  /** Duplicates are kept: an admitted name occurs as often as in the input. */
  lemma {:induction false} FilterNamesCount(p: Policy, names: seq<string>, x: string)
    ensures multiset(FilterNames(p, names))[x] == if p.allowed.None? || x in p.allowed.value then multiset(names)[x] else 0
    decreases |names|
  {
    if p.allowed.Some? && names != [] {
      assert names == [names[0]] + names[1..];
      FilterNamesCount(p, names[1..], x);
    }
  }

  /** Filtering commutes with concatenation, so relative order survives. */
  lemma {:induction false} FilterNamesAppend(p: Policy, a: seq<string>, b: seq<string>)
    ensures FilterNames(p, a + b) == FilterNames(p, a) + FilterNames(p, b)
    decreases |a|
  {
    if p.allowed.Some? && a != [] {
      assert (a + b)[1..] == a[1..] + b;
      FilterNamesAppend(p, a[1..], b);
    } else if a == [] {
      assert a + b == b;
    }
  }

  /** `cap_rounds`: clamp into [1, maxRounds]. */
  function CapRounds(p: Policy, rounds: int): (r: int)
    requires p.Valid()
    ensures 1 <= r <= p.maxRounds
    ensures 1 <= rounds <= p.maxRounds ==> r == rounds
    ensures rounds < 1 ==> r == 1
    ensures rounds > p.maxRounds ==> r == p.maxRounds
  {
    var m := if rounds < p.maxRounds then rounds else p.maxRounds;
    if m < 1 then 1 else m
  }

  // ---------------------------------------------------------------------
  // Redaction

  /** The redaction rules, one constructor per compiled pattern.
      `Pattern`, `IgnoreCase` and `Replacement` below record each rule's
      expression, flag and replacement text; they document the rules and
      no proof depends on them, because regular-expression matching is not
      modelled: the `sub` parameter of `ApplyRules` stands for `re.sub`. */
  datatype Rule =
    | OpenAiKey | Email
    | BearerToken | AwsAccessKey | Ipv4 | CardNumber | SecretAssignment | Iban | Pesel | Nip

  function Pattern(r: Rule): string
  {
    match r
    case OpenAiKey => "sk-[A-Za-z0-9]{8,}"
    case Email => "[A-Za-z0-9._%+-]+@[A-Za-z0-9.-]+\\.[A-Za-z]{2,}"
    case BearerToken => "(?i)\\bBearer\\s+[A-Za-z0-9._\\-]{10,}\\b"
    case AwsAccessKey => "\\bAKIA[0-9A-Z]{16}\\b"
    case Ipv4 => "\\b(?:\\d{1,3}\\.){3}\\d{1,3}\\b"
    case CardNumber => "\\b(?:\\d[ \\-]?){13,19}\\b"
    case SecretAssignment => "(?i)(api|secret|token|password)[=:]\\s*(?!Bearer\\b)([^\\s,;]{6,})"
    case Iban => "\\bPL\\d{26}\\b"
    case Pesel => "\\b\\d{11}\\b"
    case Nip => "\\b(?:\\d{3}[- ]?\\d{3}[- ]?\\d{2}[- ]?\\d{2}|PL\\d{10})\\b"
  }

  /** Only the tax-number rule is compiled with `re.IGNORECASE`. */
  predicate IgnoreCase(r: Rule)
  {
    r == Nip
  }

  function Replacement(r: Rule): string
  {
    match r
    case OpenAiKey => "sk-<redacted>"
    case Email => "<redacted-email>"
    case BearerToken => "Bearer <redacted-token>"
    case AwsAccessKey => "<redacted-aws-key>"
    case Ipv4 => "<redacted-ip>"
    case CardNumber => "<redacted-number>"
    case SecretAssignment => "\\1=<redacted>"
    case Iban => "<redacted-iban>"
    case Pesel => "<redacted-pesel>"
    case Nip => "<redacted-nip>"
  }

  const BaseRules: seq<Rule> := [OpenAiKey, Email]

  const StrictRules: seq<Rule> :=
    [BearerToken, AwsAccessKey, Ipv4, CardNumber, SecretAssignment, Iban, Pesel, Nip]

  /** `set_level`'s normalisation: trimmed and lower-cased, and anything but
      "normal" or "strict" becomes "normal". */
  function NormalizeLevel(level: string): (r: string)
    ensures r == "normal" || r == "strict"
    ensures r == "strict" <==> Lower(Strip(level)) == "strict"
  {
    var v := Lower(Strip(level));
    if v == "normal" || v == "strict" then v else "normal"
  }

  /** A normalised level normalises to itself. */
  lemma NormalizeLevelIdempotent(level: string)
    ensures NormalizeLevel(NormalizeLevel(level)) == NormalizeLevel(level)
  {
    var r := NormalizeLevel(level);
    LowerStripFixed(r);
  }

  /** A non-empty lower-case ASCII word is a fixed point of strip-then-lower. */
  lemma LowerStripFixed(s: string)
    requires |s| > 0 && forall k :: 0 <= k < |s| ==> IsAsciiLower(s[k])
    ensures Lower(Strip(s)) == s
  {
    assert !IsSpace(s[0]) && !IsSpace(s[|s| - 1]) by {
      assert IsAsciiLower(s[0]) && IsAsciiLower(s[|s| - 1]);
    }
    StripUnchanged(s);
    LowerUnchanged(s);
  }

  lemma LowerUnchanged(s: string)
    requires forall k :: 0 <= k < |s| ==> IsAsciiLower(s[k])
    ensures Lower(s) == s
  {
    forall k | 0 <= k < |s| ensures Lower(s)[k] == s[k] {
      assert !IsPolishUpper(s[k]);
    }
  }

  /** The rules `redact` applies at a level: the base rules, then, at
      "strict" only, the strict rules. */
  function ActiveRules(level: string): (r: seq<Rule>)
    ensures |BaseRules| <= |r| && r[..|BaseRules|] == BaseRules
    ensures level == "strict" ==> r[|BaseRules|..] == StrictRules
    ensures level != "strict" ==> r == BaseRules
  {
    if level == "strict" then BaseRules + StrictRules else BaseRules
  }

  /** Apply the rules one after the other, first rule first. */
  function ApplyRules(rules: seq<Rule>, text: string, sub: (Rule, string) -> string): string
  {
    if rules == [] then text else ApplyRules(rules[1..], sub(rules[0], text), sub)
  }

  /** Applying a + b is applying a, then b to the result. */
  lemma {:induction false} ApplyRulesAppend(a: seq<Rule>, b: seq<Rule>, text: string, sub: (Rule, string) -> string)
    ensures ApplyRules(a + b, text, sub) == ApplyRules(b, ApplyRules(a, text, sub), sub)
    decreases |a|
  {
    if a == [] {
      assert a + b == b;
    } else {
      assert (a + b)[1..] == a[1..] + b;
      ApplyRulesAppend(a[1..], b, sub(a[0], text), sub);
    }
  }

  /** At "strict" the strict rules run on the output of the base rules. */
  lemma StrictAppliesBaseFirst(text: string, sub: (Rule, string) -> string)
    ensures ApplyRules(ActiveRules("strict"), text, sub) == ApplyRules(StrictRules, ApplyRules(BaseRules, text, sub), sub)
  {
    ApplyRulesAppend(BaseRules, StrictRules, text, sub);
  }

  /** The class-level redaction state: one level shared by all callers. */
  class Redactor {
    var level: string

    predicate Valid()
      reads this
    {
      level == "normal" || level == "strict"
    }

    constructor ()
      ensures Valid() && level == "normal"
    {
      level := "normal";
    }

    /** `Redactor.set_level`. */
    method SetLevel(requested: string)
      modifies this
      ensures Valid()
      ensures level == NormalizeLevel(requested)
    {
      var v := Lower(Strip(requested));
      if v != "normal" && v != "strict" {
        v := "normal";
      }
      level := v;
    }

    /** `Redactor.get_level`. */
    function GetLevel(): (r: string)
      reads this
      requires Valid()
      ensures r == "normal" || r == "strict"
      ensures r == level
    {
      level
    }

    /** `Redactor.redact`: None stays None; otherwise each active rule is
      applied in list order. */
    method Redact(text: Option<string>, sub: (Rule, string) -> string) returns (r: Option<string>)
      ensures text.None? <==> r.None?
      ensures text.Some? ==> r.value == ApplyRules(ActiveRules(level), text.value, sub)
    {
      if text.None? {
        return None;
      }
      var out := text.value;
      var rules := BaseRules;
      if level == "strict" {
        rules := rules + StrictRules;
      }
      var i := 0;
      while i < |rules|
        invariant 0 <= i <= |rules|
        invariant rules == ActiveRules(level)
        invariant ApplyRules(rules, text.value, sub) == ApplyRules(rules[i..], out, sub)
      {
        assert rules[i..][1..] == rules[i + 1..];
        out := sub(rules[i], out);
        i := i + 1;
      }
      r := Some(out);
    }
  }
}
