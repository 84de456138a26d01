// The rule-based summarising agent: key points from the first sentence of
// each input, a styled summary of them cut to a maximum length, and a list
// of canned conclusions chosen by what the key points and context mention.

module Summarizer {
  import opened Common

  /** How many key points a style keeps. */
  function PointCap(style: string): (n: nat)
    ensures style == "concise" ==> n == 3
    ensures style == "detailed" ==> n == 7
    ensures style != "concise" && style != "detailed" ==> n == 5
  {
    if style == "concise" then 3 else if style == "detailed" then 7 else 5
  }

  /** The first sentence of a text, stripped: `text.split(".")[0].strip()`. */
  function MainIdea(text: string): (r: string)
    ensures '.' !in r
    ensures r != [] ==> !IsSpace(r[0]) && !IsSpace(r[|r| - 1])
  {
    var first := BeforeFirst(text, '.');
    StripKeepsChars(first);
    Strip(first)
  }

  function KeyPoint(i: nat, idea: string): string
  {
    "Source " + NatToString(i) + ": " + idea
  }

  /** A key point for the input at 1-based position `i` when its main idea
      is longer than ten characters, none otherwise. */
  function PointOf(i: nat, text: string): seq<string>
  {
    if |MainIdea(text)| > 10 then [KeyPoint(i, MainIdea(text))] else []
  }

  /** The key points of all inputs, before the cap. */
  function Candidates(inputs: seq<string>): (r: seq<string>)
    ensures |r| <= |inputs|
    decreases |inputs|
  {
    if inputs == [] then []
    else Candidates(inputs[..|inputs| - 1]) + PointOf(|inputs|, inputs[|inputs| - 1])
  }

  /** `p` is the key point of the input at 1-based position `i`. */
  predicate PointFor(inputs: seq<string>, i: int, p: string)
  {
    1 <= i <= |inputs| && |MainIdea(inputs[i - 1])| > 10 && p == KeyPoint(i, MainIdea(inputs[i - 1]))
  }

  /** Every candidate is the main idea of some input, longer than ten
      characters and labelled with that input's position. */
  lemma {:induction false} CandidatesSound(inputs: seq<string>, p: string)
    requires p in Candidates(inputs)
    ensures exists i :: PointFor(inputs, i, p)
    decreases |inputs|
  {
    var init := inputs[..|inputs| - 1];
    if p in Candidates(init) {
      CandidatesSound(init, p);
      var i :| PointFor(init, i, p);
      assert init[i - 1] == inputs[i - 1];
      assert PointFor(inputs, i, p);
    } else {
      assert PointFor(inputs, |inputs|, p);
    }
  }

  /** Every input whose main idea is longer than ten characters gives a
      candidate. */
  lemma {:induction false} CandidatesComplete(inputs: seq<string>, i: nat)
    requires 1 <= i <= |inputs| && |MainIdea(inputs[i - 1])| > 10
    ensures KeyPoint(i, MainIdea(inputs[i - 1])) in Candidates(inputs)
    decreases |inputs|
  {
    var init := inputs[..|inputs| - 1];
    if i < |inputs| {
      assert init[i - 1] == inputs[i - 1];
      CandidatesComplete(init, i);
    }
  }

  /** Every input's labelled main idea, long or not, in input order. */
  function AllPoints(inputs: seq<string>): (r: seq<string>)
    ensures |r| == |inputs|
    ensures forall i :: 0 <= i < |r| ==> r[i] == KeyPoint(i + 1, MainIdea(inputs[i]))
  {
    seq(|inputs|, i requires 0 <= i < |inputs| => KeyPoint(i + 1, MainIdea(inputs[i])))
  }

  /** The candidates keep input order: they are the labelled main ideas of
      the inputs with the short ones left out. */
  lemma {:induction false} CandidatesInOrder(inputs: seq<string>)
    ensures IsSubsequence(Candidates(inputs), AllPoints(inputs))
    decreases |inputs|
  {
    if inputs != [] {
      var n := |inputs|;
      var init := inputs[..n - 1];
      CandidatesInOrder(init);
      AllPointsSnoc(inputs);
      PointOfInOrder(n, inputs[n - 1]);
      SubsequenceAppend(Candidates(init), AllPoints(init), PointOf(n, inputs[n - 1]), [KeyPoint(n, MainIdea(inputs[n - 1]))]);
    }
  }

  /** One more input adds its labelled main idea at the end. */
  lemma AllPointsSnoc(inputs: seq<string>)
    requires inputs != []
    ensures AllPoints(inputs) == AllPoints(inputs[..|inputs| - 1]) + [KeyPoint(|inputs|, MainIdea(inputs[|inputs| - 1]))]
  {
  }

  /** The key point of one input, if any, is its labelled main idea. */
  lemma PointOfInOrder(i: nat, text: string)
    ensures IsSubsequence(PointOf(i, text), [KeyPoint(i, MainIdea(text))])
  {
    SubsequenceSelf([KeyPoint(i, MainIdea(text))]);
  }

  function SynthesisPoint(n: nat): string
  {
    "Synthesis across " + NatToString(n) + " sources reveals common themes"
  }

  /** The key points: the candidates cut to the style's cap, then one
      synthesis point when there is more than one input. */
  function KeyPoints(inputs: seq<string>, style: string): (r: seq<string>)
    ensures |r| == Min(PointCap(style), |Candidates(inputs)|) + (if |inputs| > 1 then 1 else 0)
    ensures |inputs| <= 1 ==> r <= Candidates(inputs)
    ensures |inputs| > 1 ==> r[..|r| - 1] <= Candidates(inputs) && r[|r| - 1] == SynthesisPoint(|inputs|)
  {
    var kept := PyTakeSeq(Candidates(inputs), PointCap(style));
    var r := kept + (if |inputs| > 1 then [SynthesisPoint(|inputs|)] else []);
    assert r[..|kept|] == kept;
    r
  }

  /** The candidates of one more input. */
  lemma CandidatesStep(inputs: seq<string>, i: nat)
    requires i < |inputs|
    ensures Candidates(inputs[..i + 1]) == Candidates(inputs[..i]) + PointOf(i + 1, inputs[i])
  {
    assert inputs[..i + 1][..i] == inputs[..i];
  }

  /** `_extract_key_points`. */
  method ExtractKeyPoints(inputs: seq<string>, style: string) returns (points: seq<string>)
    ensures points == KeyPoints(inputs, style)
  {
    var cap := if style == "concise" then 3 else if style == "detailed" then 7 else 5;
    points := [];
    var i := 0;
    while i < |inputs|
      invariant 0 <= i <= |inputs|
      invariant points == Candidates(inputs[..i])
    {
      var idea := MainIdea(inputs[i]);
      if |idea| > 10 {
        points := points + [KeyPoint(i + 1, idea)];
      }
      CandidatesStep(inputs, i);
      i := i + 1;
    }
    assert inputs[..i] == inputs;
    points := PyTakeSeq(points, cap);
    if |inputs| > 1 {
      points := points + [SynthesisPoint(|inputs|)];
    }
  }

  /** The title, underlined for the executive and detailed styles. */
  function Header(style: string, topic: string): (r: seq<string>)
    ensures 1 <= |r| <= 2
    ensures style == "executive" ==> r == ["EXECUTIVE SUMMARY: " + topic, Repeat('=', 40)]
    ensures style == "detailed" ==> r == ["Detailed Synthesis: " + topic, Repeat('-', 40)]
    ensures style != "executive" && style != "detailed" ==> r == ["Summary: " + topic]
  {
    if style == "executive" then ["EXECUTIVE SUMMARY: " + topic, Repeat('=', 40)]
    else if style == "detailed" then ["Detailed Synthesis: " + topic, Repeat('-', 40)]
    else ["Summary: " + topic]
  }

  function Intro(n: nat): string
  {
    "\nBased on analysis of " + NatToString(n) + " source(s):"
  }

  const KeyFindingsTitle := "\nKey Findings:"
  const ConsistencyLine := "  Information consistency and coverage support the validity of findings."
  const IntegrationLine := "  Multiple sources have been integrated to provide a comprehensive overview."

  /** The closing insight; it mentions integration only for several
      inputs. */
  function Insight(n: nat): seq<string>
  {
    ["\nSynthesis Insight:"] + (if n > 1 then [IntegrationLine] else []) + [ConsistencyLine]
  }

  function NumberedPoint(i: nat, point: string): string
  {
    "  " + NatToString(i) + ". " + point
  }

  /** The listed key points: at most five, numbered from 1. */
  function Numbered(points: seq<string>): (r: seq<string>)
    ensures |r| == Min(5, |points|)
    ensures forall j :: 0 <= j < |r| ==> r[j] == NumberedPoint(j + 1, points[j])
  {
    seq(Min(5, |points|), j requires 0 <= j < Min(5, |points|) => NumberedPoint(j + 1, points[j]))
  }

  /** The loop that numbers the key points. */
  method NumberPoints(points: seq<string>) returns (lines: seq<string>)
    ensures lines == Numbered(points)
  {
    var top := PyTakeSeq(points, 5);
    lines := [];
    var j := 0;
    while j < |top|
      invariant 0 <= j <= |top|
      invariant |lines| == j
      invariant forall k :: 0 <= k < j ==> lines[k] == NumberedPoint(k + 1, points[k])
    {
      lines := lines + [NumberedPoint(j + 1, top[j])];
      j := j + 1;
    }
  }

  /** The parts `_synthesize_summary` joins. */
  function Parts(inputs: seq<string>, points: seq<string>, topic: string, style: string): seq<string>
  {
    Header(style, topic) + [Intro(|inputs|), KeyFindingsTitle] + Numbered(points) + Insight(|inputs|)
  }

  /** The summary text: the parts joined by newlines, then capped. */
  function Summary(inputs: seq<string>, points: seq<string>, topic: string, style: string, maxLength: int): string
  {
    Truncate(Join(Parts(inputs, points, topic, style), "\n"), maxLength)
  }

  /** The parts are the styled header, the number of inputs, at most five
      numbered key points, and the synthesis insight. */
  method SummaryParts(inputs: seq<string>, points: seq<string>, topic: string, style: string)
    returns (parts: seq<string>)
    ensures parts == Parts(inputs, points, topic, style)
    ensures var h := |Header(style, topic)|;
      |parts| == h + 2 + Min(5, |points|) + |Insight(|inputs|)| &&
      parts[..h] == Header(style, topic) &&
      parts[h] == Intro(|inputs|) && parts[h + 1] == KeyFindingsTitle &&
      (forall j :: 0 <= j < Min(5, |points|) ==> parts[h + 2 + j] == NumberedPoint(j + 1, points[j])) &&
      parts[h + 2 + Min(5, |points|)..] == Insight(|inputs|)
  {
    var header := Header(style, topic);
    var numbered := NumberPoints(points);
    var head := header + [Intro(|inputs|), KeyFindingsTitle];
    parts := head + numbered + Insight(|inputs|);
    assert parts[..|header|] == header;
    assert parts[|head| + |numbered|..] == Insight(|inputs|);
    assert forall j :: 0 <= j < |numbered| ==> parts[|head| + j] == numbered[j];
  }

  /** `_synthesize_summary`: the parts joined by newlines, then capped. */
  method SynthesizeSummary(inputs: seq<string>, points: seq<string>, topic: string, style: string, maxLength: int)
    returns (summary: string)
    ensures summary == Summary(inputs, points, topic, style, maxLength)
    ensures 0 <= maxLength ==> |summary| <= maxLength + 3
  {
    var parts := SummaryParts(inputs, points, topic, style);
    summary := Truncate(Join(parts, "\n"), maxLength);
  }

  /** The length cap: a summary longer than `maxLength` keeps its first
      `maxLength` characters (with Python's rule for a negative bound) and
      gains "..."; any other is unchanged. */
  function Truncate(summary: string, maxLength: int): (r: string)
    ensures |summary| <= maxLength ==> r == summary
    ensures |summary| > maxLength ==> r == PyTakeSeq(summary, maxLength) + "..."
    ensures 0 <= maxLength ==> |r| <= maxLength + 3
    ensures 0 <= maxLength < |summary| ==> |r| == maxLength + 3 && r[..maxLength] == summary[..maxLength]
  {
    if |summary| > maxLength then PyTakeSeq(summary, maxLength) + "..." else summary
  }

  // Conclusions, kept as values and rendered at the end.

  datatype Conclusion =
    | KeyPointCount(n: nat)
    | MultiSource
    | CommonThemes
    | Technical
    | Business
    | ResearchField
    | Unified
    | FurtherInvestigation

  const Closing := "Recommendations for further investigation are provided in the detailed analysis."

  function Text(c: Conclusion): string
  {
    match c
    case KeyPointCount(n) =>
      "The analysis of " + NatToString(n) + " key points reveals a comprehensive understanding of the subject."
    case MultiSource => "Multi-source synthesis provides robust validation of findings."
    case CommonThemes => "Common themes across sources indicate consistent patterns."
    case Technical => "Technical analysis demonstrates systematic understanding of implementation details."
    case Business => "Business analysis provides actionable insights for strategic decision-making."
    case ResearchField => "Research synthesis contributes to knowledge accumulation in the field."
    case Unified => "Synthesized information provides a unified perspective on the topic."
    case FurtherInvestigation => Closing
  }

  /** Some key point mentions `word`, ignoring case. */
  predicate Mentions(points: seq<string>, word: string)
  {
    exists k :: 0 <= k < |points| && Contains(Lower(points[k]), word)
  }

  /** The context conclusion: technical before business before research. */
  function ContextConclusion(context: string): (r: seq<Conclusion>)
    ensures |r| <= 1 && forall c :: c in r ==> ContextKind(c)
    ensures Technical in r <==> context != [] && Contains(Lower(context), "technical")
    ensures Business in r <==> context != [] && !Contains(Lower(context), "technical") && Contains(Lower(context), "business")
    ensures ResearchField in r <==> context != [] && !Contains(Lower(context), "technical") &&
                                    !Contains(Lower(context), "business") && Contains(Lower(context), "research")
  {
    if context == [] then []
    else
      var lower := Lower(context);
      if Contains(lower, "technical") then [Technical]
      else if Contains(lower, "business") then [Business]
      else if Contains(lower, "research") then [ResearchField]
      else []
  }

  /** A conclusion that only the context can contribute. */
  predicate ContextKind(c: Conclusion)
  {
    c == Technical || c == Business || c == ResearchField
  }

  /** The conclusions drawn from the number of key points, whether they
      mention sources and common themes, and the context conclusion. */
  function Drawn(n: nat, source: bool, common: bool, ctx: seq<Conclusion>): (r: seq<Conclusion>)
    requires forall c :: c in ctx ==> ContextKind(c)
    ensures KeyPointCount(n) in r <==> n > 0
    ensures MultiSource in r <==> source
    ensures CommonThemes in r <==> common
    ensures Unified !in r && FurtherInvestigation !in r
    ensures r == [] <==> n == 0 && !source && !common && ctx == []
    ensures forall c :: c in ctx ==> c in r
    ensures forall c :: c in r && ContextKind(c) ==> c in ctx
  {
    assert !ContextKind(KeyPointCount(n)) && !ContextKind(MultiSource) && !ContextKind(CommonThemes);
    assert !ContextKind(Unified) && !ContextKind(FurtherInvestigation);
    var count := if n > 0 then [KeyPointCount(n)] else [];
    count + (if source then [MultiSource] else []) + (if common then [CommonThemes] else []) + ctx
  }

  /** The drawn conclusions keep the order in which they are checked. */
  lemma DrawnInOrder(n: nat, source: bool, common: bool, ctx: seq<Conclusion>)
    requires forall c :: c in ctx ==> ContextKind(c)
    ensures IsSubsequence(Drawn(n, source, common, ctx), [KeyPointCount(n), MultiSource, CommonThemes] + ctx)
  {
    var count := if n > 0 then [KeyPointCount(n)] else [];
    var src := if source then [MultiSource] else [];
    var com := if common then [CommonThemes] else [];
    Optional(count, [KeyPointCount(n)]);
    Optional(src, [MultiSource]);
    Optional(com, [CommonThemes]);
    SubsequenceSelf(ctx);
    SubsequenceAppend(count, [KeyPointCount(n)], src, [MultiSource]);
    assert [KeyPointCount(n)] + [MultiSource] == [KeyPointCount(n), MultiSource];
    SubsequenceAppend(count + src, [KeyPointCount(n), MultiSource], com, [CommonThemes]);
    assert [KeyPointCount(n), MultiSource] + [CommonThemes] == [KeyPointCount(n), MultiSource, CommonThemes];
    SubsequenceAppend(count + src + com, [KeyPointCount(n), MultiSource, CommonThemes], ctx, ctx);
  }

  /** A list that is empty or equal to another is its subsequence. */
  lemma Optional(a: seq<Conclusion>, b: seq<Conclusion>)
    requires a == [] || a == b
    ensures IsSubsequence(a, b)
  {
    SubsequenceSelf(b);
  }

  /** The drawn conclusions, or the unified-perspective one when none
      applies, then the closing recommendation. */
  function Choose(n: nat, source: bool, common: bool, ctx: seq<Conclusion>): (r: seq<Conclusion>)
    requires forall c :: c in ctx ==> ContextKind(c)
    ensures |r| >= 2 && r[|r| - 1] == FurtherInvestigation
    ensures FurtherInvestigation !in r[..|r| - 1]
    ensures KeyPointCount(n) in r <==> n > 0
    ensures MultiSource in r <==> source
    ensures CommonThemes in r <==> common
    ensures Unified in r <==> n == 0 && !source && !common && ctx == []
    ensures forall c :: c in ctx ==> c in r
    ensures forall c :: c in r && ContextKind(c) ==> c in ctx
    ensures IsSubsequence(r, [KeyPointCount(n), MultiSource, CommonThemes] + ctx + [Unified, FurtherInvestigation])
  {
    var body := Drawn(n, source, common, ctx);
    var r := (if body == [] then [Unified] else body) + [FurtherInvestigation];
    assert r[..|r| - 1] == if body == [] then [Unified] else body;
    DrawnInOrder(n, source, common, ctx);
    ClosedInOrder(body, [KeyPointCount(n), MultiSource, CommonThemes] + ctx);
    r
  }

  /** The unified-perspective conclusion in place of nothing, then the
      closing one, keep the order. */
  lemma ClosedInOrder(body: seq<Conclusion>, drawn: seq<Conclusion>)
    requires IsSubsequence(body, drawn)
    ensures IsSubsequence((if body == [] then [Unified] else body) + [FurtherInvestigation],
                          drawn + [Unified, FurtherInvestigation])
  {
    if body == [] {
      SubsequenceSelf([Unified, FurtherInvestigation]);
      SubsequenceAppend([], drawn, [Unified, FurtherInvestigation], [Unified, FurtherInvestigation]);
      assert [Unified] + [FurtherInvestigation] == [] + [Unified, FurtherInvestigation];
    } else {
      SubsequenceSelf([FurtherInvestigation]);
      SubsequenceAppend([], [Unified], [FurtherInvestigation], [FurtherInvestigation]);
      assert [] + [FurtherInvestigation] == [FurtherInvestigation];
      assert [Unified] + [FurtherInvestigation] == [Unified, FurtherInvestigation];
      SubsequenceAppend(body, drawn, [FurtherInvestigation], [Unified, FurtherInvestigation]);
    }
  }

  /** `_generate_conclusions`. */
  function Conclusions(points: seq<string>, context: string): (r: seq<Conclusion>)
    ensures |r| >= 2 && r[|r| - 1] == FurtherInvestigation
    ensures KeyPointCount(|points|) in r <==> points != []
    ensures MultiSource in r <==> Mentions(points, "source")
    ensures CommonThemes in r <==> Mentions(points, "common")
    ensures Unified in r <==> points == [] && ContextConclusion(context) == []
    ensures forall c :: c in ContextConclusion(context) ==> c in r
    ensures forall c :: c in r && ContextKind(c) ==> c in ContextConclusion(context)
    ensures IsSubsequence(r, [KeyPointCount(|points|), MultiSource, CommonThemes] + ContextConclusion(context) +
                             [Unified, FurtherInvestigation])
  {
    var ctx := ContextConclusion(context);
    Choose(|points|, Mentions(points, "source"), Mentions(points, "common"), ctx)
  }

  function Texts(cs: seq<Conclusion>): (r: seq<string>)
    ensures |r| == |cs| && forall k :: 0 <= k < |cs| ==> r[k] == Text(cs[k])
  {
    if cs == [] then [] else [Text(cs[0])] + Texts(cs[1..])
  }

  /** The conclusions as the agent reports them. */
  function ConclusionTexts(points: seq<string>, context: string): (r: seq<string>)
    ensures |r| >= 2 && r[|r| - 1] == Closing
  {
    var chosen := Conclusions(points, context);
    var r := Texts(chosen);
    assert r[|r| - 1] == Text(chosen[|chosen| - 1]);
    r
  }

  /** `_get_style_description`. */
  function StyleDescription(style: string): (r: string)
    ensures style != "concise" && style != "detailed" && style != "executive" ==> r == "Standard summary"
    ensures style == "concise" ==> r == "Brief, focused summary highlighting main points"
  {
    var descriptions := map[
      "concise" := "Brief, focused summary highlighting main points",
      "detailed" := "Comprehensive summary with extensive coverage",
      "executive" := "High-level summary suitable for decision-makers"];
    if style in descriptions then descriptions[style] else "Standard summary"
  }

  /** `_validate_inputs`: every input has a text form, so only an empty
      list is refused. */
  function ValidateInputs(inputs: seq<string>): (ok: bool)
    ensures ok <==> |inputs| > 0
  {
    inputs != []
  }

  datatype Synthesis = Synthesis(topic: string, summary: string, keyPoints: seq<string>,
                                 conclusions: seq<string>, sourcesCount: nat, wordCount: nat, style: string)

  /** `SummarizerAgent.run`. `topic`, `style` and `maxLength` are `None`
      when absent and then take their defaults. */
  method Run(inputs: seq<string>, topic: Option<string>, context: string,
             style: Option<string>, maxLength: Option<int>) returns (r: Result<Synthesis>)
    ensures r.Err? <==> inputs == []
    ensures r.Err? ==> r.kind == "ValueError"
    ensures r.Ok? ==> r.value.topic == (if topic.Some? then topic.value else "Synthesis")
    ensures r.Ok? ==> r.value.style == (if style.Some? then style.value else "concise")
    ensures r.Ok? ==> r.value.sourcesCount == |inputs|
    ensures r.Ok? ==> r.value.keyPoints == KeyPoints(inputs, r.value.style)
    ensures r.Ok? ==> (r.value.summary ==
      Summary(inputs, r.value.keyPoints, r.value.topic, r.value.style, if maxLength.Some? then maxLength.value else 500))
    ensures r.Ok? ==> r.value.wordCount == |Words(r.value.summary)|
    ensures r.Ok? && maxLength.None? ==> |r.value.summary| <= 503
    ensures r.Ok? ==> r.value.conclusions == ConclusionTexts(r.value.keyPoints, context)
  {
    if inputs == [] {
      return Err("ValueError", "Inputs are required for synthesis (provide 'inputs' in kwargs)");
    }
    var theTopic := if topic.Some? then topic.value else "Synthesis";
    var theStyle := if style.Some? then style.value else "concise";
    var limit := if maxLength.Some? then maxLength.value else 500;
    var points := ExtractKeyPoints(inputs, theStyle);
    var summary := SynthesizeSummary(inputs, points, theTopic, theStyle, limit);
    var conclusions := ConclusionTexts(points, context);
    r := Ok(Synthesis(theTopic, summary, points, conclusions, |inputs|, |Words(summary)|, theStyle));
  }
}
