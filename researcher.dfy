// The rule-based research agent: five canned sources derived from the
// query, ranked by relevance and cut to the configured number, one finding
// per source plus one about the query, a summary of the findings and a
// confidence that grows with their number.

module Researcher {
  import opened Common

  /** A source entry; `relevance` is in hundredths (95 stands for 0.95). */
  datatype Source = Source(title: string, url: string, relevance: nat, publicationDate: string)

  /** The query with its spaces replaced by underscores, as used in URLs. */
  function Slug(query: string): (r: string)
    ensures |r| == |query|
    ensures forall k :: 0 <= k < |r| ==> r[k] != ' '
    ensures forall k :: 0 <= k < |r| && query[k] != ' ' ==> r[k] == query[k]
    ensures forall k :: 0 <= k < |r| && query[k] == ' ' ==> r[k] == '_'
  {
    ReplaceChar(query, ' ', '_')
  }

  /** `base_sources` of `_gather_sources`. */
  function BaseSources(query: string): seq<Source>
  {
    var slug := Slug(query);
    [Source("Research on '" + query + "' - Primary Source",
            "https://example.com/research/" + slug + "_1", 95, "2025-10-20"),
     Source("Analysis of " + query + " - Secondary Source",
            "https://example.com/analysis/" + slug + "_2", 87, "2025-10-15"),
     Source("Study: " + query + " Overview",
            "https://example.com/study/" + slug + "_3", 82, "2025-10-10"),
     Source("Expert Report on " + query,
            "https://example.com/report/" + slug + "_4", 79, "2025-10-05"),
     Source("Data Collection: " + query + " Metrics",
            "https://example.com/data/" + slug + "_5", 75, "2025-09-30")]
  }

  predicate StrictlyDescending(sources: seq<Source>)
  {
    forall i, j :: 0 <= i < j < |sources| ==> sources[i].relevance > sources[j].relevance
  }

  /** The canned sources are listed with strictly decreasing relevance, so
      sorting them by relevance, descending, leaves them in place: the
      relevances are distinct, hence stability does not matter either. */
  lemma BaseSourcesSorted(query: string)
    ensures StrictlyDescending(BaseSources(query))
  {
  }

  /** `_gather_sources`: the sources ranked by relevance, then cut to
      `maxSources` with Python's slice rule. */
  function GatherSources(query: string, maxSources: int): (r: seq<Source>)
    ensures r <= BaseSources(query)
    ensures 0 <= maxSources <= 5 ==> |r| == maxSources
    ensures maxSources >= 5 ==> |r| == 5
    ensures StrictlyDescending(r)
  {
    BaseSourcesSorted(query);
    PyTakeSeq(BaseSources(query), maxSources)
  }

  /** No source left out is more relevant than one that was kept. */
  lemma GatherKeepsBest(query: string, maxSources: int)
    ensures forall s, t :: (s in GatherSources(query, maxSources) && t in BaseSources(query) &&
                            t !in GatherSources(query, maxSources)) ==> s.relevance > t.relevance
  {
    var base, kept := BaseSources(query), GatherSources(query, maxSources);
    BaseSourcesSorted(query);
    forall s, t | s in kept && t in base && t !in kept ensures s.relevance > t.relevance {
      var i :| 0 <= i < |kept| && kept[i] == s;
      var j :| 0 <= j < |base| && base[j] == t;
      assert kept[i] == base[i];
      assert j >= |kept|;
    }
  }

  /** `f"{x:.2f}"` of a value given in hundredths: the whole part, a
      point and exactly two digits of hundredths. */
  function Fixed2(h: nat): (r: string)
    ensures |r| >= 4 && r[|r| - 3] == '.'
    ensures r[..|r| - 3] == NatToString(h / 100)
    ensures r[|r| - 2] == DigitChar(h % 100 / 10) && r[|r| - 1] == DigitChar(h % 10)
  {
    var whole := NatToString(h / 100);
    var r := whole + "." + [DigitChar(h % 100 / 10), DigitChar(h % 10)];
    assert r[..|r| - 3] == whole;
    r
  }

  /** The finding reported for the `i`-th source (from 1). */
  function SourceFinding(i: nat, s: Source): string
  {
    "Source " + NatToString(i) + ": " + s.title + " indicates relevant information (relevance: " +
    Fixed2(s.relevance) + ")"
  }

  /** The finding about the query itself: long queries are cut to 30
      characters. */
  function QueryFinding(query: string): (r: string)
    ensures |query| > 20 ==> r == "Comprehensive research scope detected for: " + PyTakeSeq(query, 30) + "..."
    ensures |query| <= 20 ==> r == "Focused query identified: " + query
  {
    if |query| > 20 then "Comprehensive research scope detected for: " + PyTakeSeq(query, 30) + "..."
    else "Focused query identified: " + query
  }

  /** `_extract_findings`: one finding per source, numbered from 1, then
      the query finding. */
  method ExtractFindings(sources: seq<Source>, query: string) returns (findings: seq<string>)
    ensures |findings| == |sources| + 1
    ensures forall i :: 0 <= i < |sources| ==> findings[i] == SourceFinding(i + 1, sources[i])
    ensures findings[|sources|] == QueryFinding(query)
  {
    findings := [];
    var i := 0;
    while i < |sources|
      invariant 0 <= i <= |sources|
      invariant |findings| == i
      invariant forall k :: 0 <= k < i ==> findings[k] == SourceFinding(k + 1, sources[k])
    {
      findings := findings + [SourceFinding(i + 1, sources[i])];
      i := i + 1;
    }
    if |query| > 20 {
      findings := findings + ["Comprehensive research scope detected for: " + PyTakeSeq(query, 30) + "..."];
    } else {
      findings := findings + ["Focused query identified: " + query];
    }
  }

  /** Each finding as a bullet line. */
  function Bullets(findings: seq<string>): (r: seq<string>)
    ensures |r| == |findings|
    ensures forall j :: 0 <= j < |r| ==> r[j] == "  - " + findings[j]
  {
    seq(|findings|, j requires 0 <= j < |findings| => "  - " + findings[j])
  }

  /** The lines `_synthesize_summary` joins. */
  function SummaryText(query: string, findings: seq<string>, context: string): seq<string>
  {
    ["Research Summary for: " + query, "Number of sources analyzed: " + NatToString(|findings|)] +
    (if context != [] then ["Context: " + context] else []) +
    ["Key findings:"] +
    Bullets(PyTakeSeq(findings, 3)) +
    (if |findings| > 3 then ["  ... and " + NatToString(|findings| - 3) + " additional findings"] else [])
  }

  /** The summary gives the header, the number of findings, the context
      when given, then at most three findings and a count of the rest when
      there are more. */
  lemma SummaryTextShape(query: string, findings: seq<string>, context: string)
    ensures var lines, c, shown := SummaryText(query, findings, context), ContextLines(context), Min(3, |findings|);
      |lines| == 3 + c + shown + (if |findings| > 3 then 1 else 0) &&
      lines[0] == "Research Summary for: " + query &&
      lines[1] == "Number of sources analyzed: " + NatToString(|findings|) &&
      (context != [] ==> lines[2] == "Context: " + context) &&
      lines[2 + c] == "Key findings:" &&
      (|findings| > 3 ==> lines[|lines| - 1] == "  ... and " + NatToString(|findings| - 3) + " additional findings")
  {
    var lines, c := SummaryText(query, findings, context), ContextLines(context);
    var head := ["Research Summary for: " + query, "Number of sources analyzed: " + NatToString(|findings|)] +
      (if context != [] then ["Context: " + context] else []) + ["Key findings:"];
    var bullets := Bullets(PyTakeSeq(findings, 3));
    var tail := if |findings| > 3 then ["  ... and " + NatToString(|findings| - 3) + " additional findings"] else [];
    assert lines == head + bullets + tail;
  }

  /** The findings shown are the first three, in order, after the
      key-findings line. */
  lemma SummaryTextFindings(query: string, findings: seq<string>, context: string)
    ensures var lines, c := SummaryText(query, findings, context), ContextLines(context);
      3 + c + Min(3, |findings|) <= |lines| &&
      forall j :: 0 <= j < Min(3, |findings|) ==> lines[3 + c + j] == "  - " + findings[j]
  {
    var lines, c := SummaryText(query, findings, context), ContextLines(context);
    var head := ["Research Summary for: " + query, "Number of sources analyzed: " + NatToString(|findings|)] +
      (if context != [] then ["Context: " + context] else []) + ["Key findings:"];
    var bullets := Bullets(PyTakeSeq(findings, 3));
    var tail := if |findings| > 3 then ["  ... and " + NatToString(|findings| - 3) + " additional findings"] else [];
    assert lines == head + (bullets + tail);
    assert |head| == 3 + c;
    forall j | 0 <= j < |bullets|
      ensures lines[3 + c + j] == "  - " + findings[j]
    {
      assert lines[3 + c + j] == bullets[j];
    }
  }

  /** 1 when the context is given, so its line is present, else 0. */
  function ContextLines(context: string): nat
  {
    if context == [] then 0 else 1
  }

  /** `_synthesize_summary`'s lines, built up one by one. */
  method SummaryLines(query: string, findings: seq<string>, context: string) returns (lines: seq<string>)
    ensures lines == SummaryText(query, findings, context)
  {
    lines := ["Research Summary for: " + query, "Number of sources analyzed: " + NatToString(|findings|)];
    if context != [] {
      lines := lines + ["Context: " + context];
    }
    lines := lines + ["Key findings:"];
    ghost var head := lines;
    var top := PyTakeSeq(findings, 3);
    var j := 0;
    while j < |top|
      invariant 0 <= j <= |top|
      invariant lines == head + Bullets(top[..j])
    {
      assert Bullets(top[..j + 1]) == Bullets(top[..j]) + ["  - " + top[j]];
      lines := lines + ["  - " + top[j]];
      j := j + 1;
    }
    assert top[..j] == top;
    if |findings| > 3 {
      lines := lines + ["  ... and " + NatToString(|findings| - 3) + " additional findings"];
    }
  }

  /** `min(1.0, 0.25 * n + 0.5)` for `n` findings. */
  function Confidence(n: nat): (c: real)
    ensures 0.5 <= c <= 1.0
    ensures c == 1.0 <==> n >= 2
    ensures n < 2 ==> c == 0.25 * n as real + 0.5
  {
    var raw := 0.25 * n as real + 0.5;
    if raw < 1.0 then raw else 1.0
  }

  datatype Research = Research(query: string, sources: seq<Source>, summary: string,
                               keyFindings: seq<string>, confidence: real, analysisDepth: nat)

  /** `ResearcherAgent.run`. `maxSources` is the `max_sources` parameter of
      the configuration, `None` when absent. */
  method Run(query: string, context: string, maxSources: Option<int>) returns (r: Result<Research>)
    ensures r.Err? <==> query == []
    ensures r.Err? ==> r.kind == "ValueError"
    ensures r.Ok? ==> r.value.query == query
    ensures r.Ok? ==> r.value.sources == GatherSources(query, if maxSources.Some? then maxSources.value else 3)
    ensures r.Ok? && maxSources.None? ==> |r.value.sources| == 3
    ensures r.Ok? ==> r.value.analysisDepth == |r.value.sources|
    ensures r.Ok? ==> |r.value.keyFindings| == |r.value.sources| + 1
    ensures r.Ok? ==> forall i :: 0 <= i < |r.value.sources| ==> r.value.keyFindings[i] == SourceFinding(i + 1, r.value.sources[i])
    ensures r.Ok? ==> r.value.keyFindings[|r.value.sources|] == QueryFinding(query)
    ensures r.Ok? ==> r.value.summary == Join(SummaryText(query, r.value.keyFindings, context), "\n")
    ensures r.Ok? ==> r.value.confidence == Confidence(|r.value.keyFindings|)
    ensures r.Ok? ==> (r.value.confidence == 1.0 <==> r.value.sources != [])
  {
    if query == [] {
      return Err("ValueError", "Research query is required (provide 'query' in kwargs)");
    }
    var limit := if maxSources.Some? then maxSources.value else 3;
    var sources := GatherSources(query, limit);
    var findings := ExtractFindings(sources, query);
    var lines := SummaryLines(query, findings, context);
    var summary := Join(lines, "\n");
    r := Ok(Research(query, sources, summary, findings, Confidence(|findings|), |sources|));
  }
}
