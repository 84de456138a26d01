// The Prometheus text exposition of one agent run: the run's duration,
// the number of orchestration rounds when the result reports one, and one
// latency and one success sample per sub-agent when the result's metrics
// carry them.

module Metrics {
  import opened Common

  /** What an agent run returned, as `write_metrics` tells the cases
      apart: a plain value (a dictionary when it is a `JObj`), a pydantic
      model (its `model_dump()`), or another object with a `dict()`
      method, whose call may raise (`None`). */
  datatype AgentOutput =
    | Plain(value: Json)
    | PydanticModel(dump: seq<(string, Json)>)
    | WithDictMethod(dict: Option<Json>)

  /** The payload the result is normalised to. A `dict()` that returns
      something other than a dictionary makes the later `payload.get`
      raise `AttributeError`. */
  function Payload(result: AgentOutput): (r: Result<seq<(string, Json)>>)
    ensures r.Err? <==> result.WithDictMethod? && result.dict.Some? && !result.dict.value.JObj?
    ensures result.Plain? && !result.value.JObj? ==> r == Ok([])
  {
    match result
    case Plain(v) => if v.JObj? then Ok(v.fields) else Ok([])
    case PydanticModel(dump) => Ok(dump)
    case WithDictMethod(d) =>
      if d.None? then Ok([])
      else if d.value.JObj? then Ok(d.value.fields)
      else Err("AttributeError", "payload has no attribute 'get'")
  }

  const DurationMetric := "ftsystem_run_duration_seconds"
  const RoundsMetric := "ftsystem_rounds_total"
  const LatencyMetric := "ftsystem_subagent_latency_seconds"
  const SuccessMetric := "ftsystem_subagent_success_total"

  const DurationHelp := "Agent execution duration."
  const RoundsHelp := "Number of orchestration rounds."
  const LatencyHelp := "Sub-agent latency in seconds."
  const SuccessHelp := "Sub-agent success flag (1 successful, 0 otherwise)."

  /** A line of the exposition: a HELP comment, a TYPE comment (every
      metric here is a gauge), a sample labelled with the agent and, for
      per-sub-agent metrics, the sub-agent; or the empty last line. */
  datatype Line =
    | Help(metric: string, help: string)
    | Type(metric: string)
    | Sample(metric: string, agent: string, subagent: Option<string>, valueText: string)
    | Blank

  function Render(line: Line): string
  {
    match line
    case Help(metric, help) => "# HELP " + metric + " " + help
    case Type(metric) => "# TYPE " + metric + " gauge"
    case Sample(metric, agent, subagent, valueText) =>
      metric + "{agent=\"" + agent + "\"" +
      (if subagent.Some? then ",subagent=\"" + subagent.value + "\"" else "") + "} " + valueText
    case Blank => ""
  }

  function Rendered(lines: seq<Line>): (r: seq<string>)
    ensures |r| == |lines| && forall k :: 0 <= k < |lines| ==> r[k] == Render(lines[k])
  {
    seq(|lines|, k requires 0 <= k < |lines| => Render(lines[k]))
  }

  /** The entries of a dictionary whose values are numbers, in order. */
  function Numeric(entries: seq<(string, Json)>): (r: seq<(string, Json)>)
    ensures |r| <= |entries|
    ensures forall k :: 0 <= k < |r| ==> IsNumber(r[k].1) && r[k] in entries
    decreases |entries|
  {
    if entries == [] then []
    else
      var n := |entries| - 1;
      var rest := Numeric(entries[..n]);
      assert forall k :: 0 <= k < |rest| ==> rest[k] in entries by {
        forall k | 0 <= k < |rest| ensures rest[k] in entries {
          assert rest[k] in entries[..n];
        }
      }
      rest + (if IsNumber(entries[n].1) then [entries[n]] else [])
  }

  /** Every numeric entry is kept. */
  lemma {:induction false} NumericComplete(entries: seq<(string, Json)>, e: (string, Json))
    requires e in entries && IsNumber(e.1)
    ensures e in Numeric(entries)
    decreases |entries|
  {
    var n := |entries| - 1;
    if entries[n] != e {
      assert e in entries[..n] by {
        var k :| 0 <= k < |entries| && entries[k] == e;
        assert k < n && entries[..n][k] == e;
      }
      NumericComplete(entries[..n], e);
    }
  }

  function SubagentSample(metric: string, agent: string, entry: (string, Json), show: Json -> string): Line
  {
    Sample(metric, agent, Some(entry.0), show(entry.1))
  }

  /** The sample lines the loop over `latency.items()` (or
      `success.items()`) appends. */
  function Samples(metric: string, agent: string, entries: seq<(string, Json)>, show: Json -> string): (r: seq<Line>)
    ensures forall k :: 0 <= k < |r| ==> r[k].Sample? && r[k].metric == metric
    decreases |entries|
  {
    if entries == [] then []
    else
      var n := |entries| - 1;
      Samples(metric, agent, entries[..n], show) +
        (if IsNumber(entries[n].1) then [SubagentSample(metric, agent, entries[n], show)] else [])
  }

  /** One sample line per numeric entry, in dictionary order, naming the
      entry's key and rendering its value. */
  lemma {:induction false} SamplesNumeric(metric: string, agent: string, entries: seq<(string, Json)>, show: Json -> string)
    ensures |Samples(metric, agent, entries, show)| == |Numeric(entries)|
    ensures forall k :: 0 <= k < |Numeric(entries)| ==>
      Samples(metric, agent, entries, show)[k] == SubagentSample(metric, agent, Numeric(entries)[k], show)
    decreases |entries|
  {
    if entries != [] {
      var n := |entries| - 1;
      SamplesNumeric(metric, agent, entries[..n], show);
    }
  }

  function RoundsSection(agent: string, payload: seq<(string, Json)>, show: Json -> string): (r: seq<Line>)
    ensures About(r, RoundsMetric)
  {
    var rounds := Get(payload, "rounds");
    if rounds.Some? && IsNumber(rounds.value) then
      [Help(RoundsMetric, RoundsHelp), Type(RoundsMetric), Sample(RoundsMetric, agent, None, show(rounds.value))]
    else []
  }

  /** The HELP and TYPE pair and the samples of one dictionary section,
      or nothing when the value is not a dictionary. */
  function DictSection(metric: string, help: string, agent: string, value: Option<Json>, show: Json -> string): (r: seq<Line>)
    ensures forall k :: 0 <= k < |r| ==> !r[k].Blank? && r[k].metric == metric
    ensures Help(metric, help) in r <==> value.Some? && value.value.JObj?
  {
    if value.Some? && value.value.JObj? then [Help(metric, help), Type(metric)] + Samples(metric, agent, value.value.fields, show) else []
  }

  /** The metrics dictionary of the payload, when it is one. */
  function MetricsDict(payload: seq<(string, Json)>): Option<seq<(string, Json)>>
  {
    var metrics := Get(payload, "metrics");
    if metrics.Some? && metrics.value.JObj? then Some(metrics.value.fields) else None
  }

  /** The latency section, written only inside a metrics dictionary. */
  function LatencySection(agent: string, payload: seq<(string, Json)>, show: Json -> string): (r: seq<Line>)
    ensures About(r, LatencyMetric)
  {
    var metrics := MetricsDict(payload);
    if metrics.Some? then DictSection(LatencyMetric, LatencyHelp, agent, Get(metrics.value, "latency"), show) else []
  }

  /** The success section, written only inside a metrics dictionary. */
  function SuccessSection(agent: string, payload: seq<(string, Json)>, show: Json -> string): (r: seq<Line>)
    ensures About(r, SuccessMetric)
  {
    var metrics := MetricsDict(payload);
    if metrics.Some? then DictSection(SuccessMetric, SuccessHelp, agent, Get(metrics.value, "success"), show) else []
  }

  function DurationSection(agent: string, durationText: string): (r: seq<Line>)
    ensures About(r, DurationMetric)
  {
    [Help(DurationMetric, DurationHelp), Type(DurationMetric), Sample(DurationMetric, agent, None, durationText)]
  }

  /** The lines `write_metrics` joins: duration, rounds, latency and
      success sections, and an empty last line. */
  function ExpositionLines(agent: string, durationText: string, payload: seq<(string, Json)>, show: Json -> string): seq<Line>
  {
    DurationSection(agent, durationText) + RoundsSection(agent, payload, show) +
    LatencySection(agent, payload, show) + SuccessSection(agent, payload, show) + [Blank]
  }

  /** The text written to the file. */
  function Exposition(agent: string, durationText: string, payload: seq<(string, Json)>, show: Json -> string): string
  {
    Join(Rendered(ExpositionLines(agent, durationText, payload, show)), "\n")
  }

  /** The output always starts with the three duration lines and always
      ends with a newline. */
  lemma ExpositionFrame(agent: string, durationText: string, payload: seq<(string, Json)>, show: Json -> string)
    ensures ExpositionLines(agent, durationText, payload, show)[..3] ==
      [Help(DurationMetric, DurationHelp), Type(DurationMetric), Sample(DurationMetric, agent, None, durationText)]
    ensures Exposition(agent, durationText, payload, show) != []
    ensures Exposition(agent, durationText, payload, show)[|Exposition(agent, durationText, payload, show)| - 1] == '\n'
  {
    var lines := Rendered(ExpositionLines(agent, durationText, payload, show));
    var n := |lines| - 1;
    assert lines[n] == "";
    assert lines[..n] + [lines[n]] == lines;
    JoinSnoc(lines[..n], "", "\n");
  }

  /** Every line is about `metric`. */
  ghost predicate About(lines: seq<Line>, metric: string)
  {
    forall k :: 0 <= k < |lines| ==> !lines[k].Blank? && lines[k].metric == metric
  }

  lemma AboutOther(lines: seq<Line>, metric: string, other: string)
    requires About(lines, metric) && metric != other
    ensures NotAbout(lines, other)
  {
  }

  lemma NotAboutEither(a: seq<Line>, b: seq<Line>, metric: string)
    requires NotAbout(a, metric) && NotAbout(b, metric)
    ensures NotAbout(a + b, metric)
  {
    forall k | 0 <= k < |a + b| ensures (a + b)[k].Blank? || (a + b)[k].metric != metric {
      if k >= |a| {
        assert (a + b)[k] == b[k - |a|];
      }
    }
  }

  /** None of the lines is about `metric`. */
  ghost predicate NotAbout(lines: seq<Line>, metric: string)
  {
    forall k :: 0 <= k < |lines| ==> lines[k].Blank? || lines[k].metric != metric
  }

  /** A line about its own metric is in the lines exactly when it is in
      that metric's section. */
  lemma InSection(head: seq<Line>, section: seq<Line>, tail: seq<Line>, x: Line)
    requires !x.Blank? && NotAbout(head, x.metric) && NotAbout(tail, x.metric)
    ensures x in head + section + tail + [Blank] <==> x in section
  {
    if x in head + section + tail + [Blank] {
      var k :| 0 <= k < |head + section + tail + [Blank]| && (head + section + tail + [Blank])[k] == x;
      if |head| <= k < |head| + |section| {
        assert section[k - |head|] == x;
      }
    }
  }

  /** Appending is associative, stated for the four sections. */
  lemma Regroup(a: seq<Line>, b: seq<Line>, c: seq<Line>, d: seq<Line>)
    ensures a + b + c + d + [Blank] == a + b + (c + d) + [Blank]
  {
  }

  lemma RegroupLast(a: seq<Line>, b: seq<Line>, c: seq<Line>, d: seq<Line>)
    ensures a + b + c + d + [Blank] == a + b + c + d + [] + [Blank]
  {
  }

  lemma AppendAssoc(a: seq<Line>, b: seq<Line>, c: seq<Line>)
    ensures a + b + c == a + (b + c)
  {
  }

  lemma MetricNamesDistinct()
    ensures DurationMetric != RoundsMetric && DurationMetric != LatencyMetric && DurationMetric != SuccessMetric
    ensures RoundsMetric != LatencyMetric && RoundsMetric != SuccessMetric && LatencyMetric != SuccessMetric
  {
    assert |DurationMetric| == 29 && |RoundsMetric| == 21 && |LatencyMetric| == 33 && |SuccessMetric| == 31;
  }

  /** The rounds section is written exactly when `rounds` is a number. */
  lemma RoundsPresent(agent: string, durationText: string, payload: seq<(string, Json)>, show: Json -> string)
    ensures Help(RoundsMetric, RoundsHelp) in ExpositionLines(agent, durationText, payload, show) <==>
      Get(payload, "rounds").Some? && IsNumber(Get(payload, "rounds").value)
  {
    MetricNamesDistinct();
    var duration, rounds := DurationSection(agent, durationText), RoundsSection(agent, payload, show);
    var latency, success := LatencySection(agent, payload, show), SuccessSection(agent, payload, show);
    AboutOther(duration, DurationMetric, RoundsMetric);
    AboutOther(latency, LatencyMetric, RoundsMetric);
    AboutOther(success, SuccessMetric, RoundsMetric);
    NotAboutEither(latency, success, RoundsMetric);
    Regroup(duration, rounds, latency, success);
    InSection(duration, rounds, latency + success, Help(RoundsMetric, RoundsHelp));
  }

  /** The latency section is written exactly when `metrics` is a
      dictionary whose `latency` is one. */
  lemma LatencyPresent(agent: string, durationText: string, payload: seq<(string, Json)>, show: Json -> string)
    ensures Help(LatencyMetric, LatencyHelp) in ExpositionLines(agent, durationText, payload, show) <==>
      MetricsDict(payload).Some? && Get(MetricsDict(payload).value, "latency").Some? && Get(MetricsDict(payload).value, "latency").value.JObj?
  {
    MetricNamesDistinct();
    var duration, rounds := DurationSection(agent, durationText), RoundsSection(agent, payload, show);
    var latency, success := LatencySection(agent, payload, show), SuccessSection(agent, payload, show);
    AboutOther(duration, DurationMetric, LatencyMetric);
    AboutOther(rounds, RoundsMetric, LatencyMetric);
    AboutOther(success, SuccessMetric, LatencyMetric);
    NotAboutEither(duration, rounds, LatencyMetric);
    InSection(duration + rounds, latency, success, Help(LatencyMetric, LatencyHelp));
  }

  /** The success section is written exactly when `metrics` is a
      dictionary whose `success` is one. */
  lemma SuccessPresent(agent: string, durationText: string, payload: seq<(string, Json)>, show: Json -> string)
    ensures Help(SuccessMetric, SuccessHelp) in ExpositionLines(agent, durationText, payload, show) <==>
      MetricsDict(payload).Some? && Get(MetricsDict(payload).value, "success").Some? && Get(MetricsDict(payload).value, "success").value.JObj?
  {
    MetricNamesDistinct();
    var duration, rounds := DurationSection(agent, durationText), RoundsSection(agent, payload, show);
    var latency, success := LatencySection(agent, payload, show), SuccessSection(agent, payload, show);
    AboutOther(duration, DurationMetric, SuccessMetric);
    AboutOther(rounds, RoundsMetric, SuccessMetric);
    AboutOther(latency, LatencyMetric, SuccessMetric);
    NotAboutEither(duration, rounds, SuccessMetric);
    NotAboutEither(duration + rounds, latency, SuccessMetric);
    RegroupLast(duration, rounds, latency, success);
    InSection(duration + rounds + latency, success, [], Help(SuccessMetric, SuccessHelp));
  }

  /** A result that is no dictionary and no model gives only the duration
      lines. */
  lemma PlainValueOnlyDuration(agent: string, durationText: string, v: Json, show: Json -> string)
    requires !v.JObj?
    ensures Payload(Plain(v)) == Ok([])
    ensures ExpositionLines(agent, durationText, Payload(Plain(v)).value, show) ==
      [Help(DurationMetric, DurationHelp), Type(DurationMetric), Sample(DurationMetric, agent, None, durationText), Blank]
  {
  }

  /** The loop over a dictionary section's items. */
  method AppendSamples(lines: seq<Line>, metric: string, agent: string, entries: seq<(string, Json)>, show: Json -> string)
    returns (out: seq<Line>)
    ensures out == lines + Samples(metric, agent, entries, show)
  {
    out := lines;
    for i := 0 to |entries|
      invariant out == lines + Samples(metric, agent, entries[..i], show)
    {
      SamplesStep(metric, agent, entries, i, show);
      var (subagent, value) := entries[i];
      if IsNumber(value) {
        out := out + [Sample(metric, agent, Some(subagent), show(value))];
      }
    }
    assert entries[..|entries|] == entries;
  }

  lemma SamplesStep(metric: string, agent: string, entries: seq<(string, Json)>, i: nat, show: Json -> string)
    requires i < |entries|
    ensures Samples(metric, agent, entries[..i + 1], show) == Samples(metric, agent, entries[..i], show) +
      (if IsNumber(entries[i].1) then [SubagentSample(metric, agent, entries[i], show)] else [])
  {
    assert entries[..i + 1][..i] == entries[..i];
  }

  /** `write_metrics`: the text written to the file, or the exception.
      `fixed6` renders the duration as `:.6f` does and `show` renders a
      number as `str` does. The lines are collected as `Line` values and
      rendered when they are joined. */
  method WriteMetrics(agent: string, duration: real, result: AgentOutput, fixed6: real -> string, show: Json -> string)
    returns (r: Result<string>)
    ensures Payload(result).Err? <==> r.Err?
    ensures r.Err? ==> r.kind == "AttributeError"
    ensures r.Ok? ==> r.value == Exposition(agent, fixed6(duration), Payload(result).value, show)
  {
    var normalized := Payload(result);
    var lines: seq<Line> := [];
    lines := lines + [Help(DurationMetric, DurationHelp)];
    lines := lines + [Type(DurationMetric)];
    lines := lines + [Sample(DurationMetric, agent, None, fixed6(duration))];
    if normalized.Err? {
      return Err(normalized.kind, normalized.msg);
    }
    var payload := normalized.value;
    var rounds := Get(payload, "rounds");
    if rounds.Some? && IsNumber(rounds.value) {
      lines := lines + [Help(RoundsMetric, RoundsHelp), Type(RoundsMetric), Sample(RoundsMetric, agent, None, show(rounds.value))];
    }
    assert lines == DurationSection(agent, fixed6(duration)) + RoundsSection(agent, payload, show);
    lines := AppendMetrics(lines, agent, payload, show);
    lines := lines + [Blank];
    r := Ok(Join(Rendered(lines), "\n"));
  }

  /** The `if isinstance(metrics, dict)` block: the latency section, then
      the success section. */
  method AppendMetrics(lines: seq<Line>, agent: string, payload: seq<(string, Json)>, show: Json -> string)
    returns (out: seq<Line>)
    ensures out == lines + LatencySection(agent, payload, show) + SuccessSection(agent, payload, show)
  {
    out := lines;
    var metrics := Get(payload, "metrics");
    if metrics.Some? && metrics.value.JObj? {
      out := AppendSection(out, LatencyMetric, LatencyHelp, agent, Get(metrics.value.fields, "latency"), show);
      out := AppendSection(out, SuccessMetric, SuccessHelp, agent, Get(metrics.value.fields, "success"), show);
    }
  }

  /** One `if isinstance(section, dict)` block: its header and its loop. */
  method AppendSection(lines: seq<Line>, metric: string, help: string, agent: string, value: Option<Json>, show: Json -> string)
    returns (out: seq<Line>)
    ensures out == lines + DictSection(metric, help, agent, value, show)
  {
    out := lines;
    if value.Some? && value.value.JObj? {
      out := out + [Help(metric, help), Type(metric)];
      out := AppendSamples(out, metric, agent, value.value.fields, show);
      AppendAssoc(lines, [Help(metric, help), Type(metric)], Samples(metric, agent, value.value.fields, show));
    }
  }
}
