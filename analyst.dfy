// The rule-based analysis agent: a data-quality assessment, patterns
// derived from the shape of the data and the requested analysis type, one
// insight per pattern and a few more, recommendations drawn from the
// insights, and a confidence that grows with what was found.
//
// The agent reads nothing of the data but its Python type and its length,
// so the data is modelled as exactly that.

module Analyst {
  import opened Common

  datatype Data = Dict(size: nat) | List(size: nat) | Other

  /** `len(data)` for a dict or a list, 0 otherwise. */
  function Size(data: Data): nat
  {
    if data.Other? then 0 else data.size
  }

  // Data quality.

  /** The `quality` dictionary; `completeness` and `consistency` are in
      hundredths (95 stands for 0.95). */
  datatype DataQuality = DataQuality(isValid: bool, size: nat, completeness: nat, consistency: nat, kind: string)

  /** The quality dictionary `_assess_data_quality` builds for `data`. */
  function QualityOf(data: Data): DataQuality
  {
    match data
    case Dict(n) => DataQuality(true, n, if n > 0 then 95 else 100, 100, "dict")
    case List(n) => DataQuality(true, n, if n > 100 then 90 else 100, 100, "list")
    case Other => DataQuality(true, 0, 85, 100, "other")
  }

  /** `_assess_data_quality`, for data that is not `None`. */
  method AssessQuality(data: Data) returns (q: DataQuality)
    ensures q == QualityOf(data)
    ensures q.isValid && q.consistency == 100 && q.size == Size(data)
    ensures q.kind == (match data case Dict(_) => "dict" case List(_) => "list" case Other => "other")
    ensures q.completeness == 95 <==> data.Dict? && data.size > 0
    ensures q.completeness == 90 <==> data.List? && data.size > 100
    ensures q.completeness == 85 <==> data.Other?
    ensures q.completeness == 100 <==> (data.Dict? && data.size == 0) || (data.List? && data.size <= 100)
    ensures 85 <= q.completeness <= 100
  {
    q := DataQuality(true, 0, 100, 100, "");
    match data
    case Dict(n) =>
      q := q.(size := n, kind := "dict");
      if n > 0 {
        q := q.(completeness := 95);
      }
    case List(n) =>
      q := q.(size := n, kind := "list");
      if n > 100 {
        q := q.(completeness := 90);
      }
    case Other =>
      q := q.(kind := "other", completeness := 85);
  }

  // Patterns.

  datatype PatternKind =
    | KeyDistribution
    | LargeDataset
    | SequencePattern
    | HighCardinality
    | TemporalTrend
    | OutlierDetection
    | CorrelationMatrix

  /** The `type` field of a pattern. */
  function TypeName(k: PatternKind): string
  {
    match k
    case KeyDistribution => "key_distribution"
    case LargeDataset => "large_dataset"
    case SequencePattern => "sequence_pattern"
    case HighCardinality => "high_cardinality"
    case TemporalTrend => "temporal_trend"
    case OutlierDetection => "outlier_detection"
    case CorrelationMatrix => "correlation_matrix"
  }

  /** A pattern; `significance` is in hundredths. */
  datatype Pattern = Pattern(kind: PatternKind, description: string, significance: nat)

  /** The pattern of kind `k` for data of length `n`. */
  function Make(k: PatternKind, n: nat): (p: Pattern)
    ensures p.kind == k
  {
    match k
    case KeyDistribution => Pattern(k, "Dictionary with " + NatToString(n) + " keys identified", 70)
    case LargeDataset => Pattern(k, "Significant data volume detected", 65)
    case SequencePattern => Pattern(k, "Sequence of " + NatToString(n) + " items identified", 70)
    case HighCardinality => Pattern(k, "High-cardinality data sequence detected", 72)
    case TemporalTrend => Pattern(k, "Time-based pattern detected", 80)
    case OutlierDetection => Pattern(k, "Anomalous values identified", 75)
    case CorrelationMatrix => Pattern(k, "Relationships between variables detected", 82)
  }

  /** The patterns of the given kinds, in order. */
  function MakeAll(kinds: seq<PatternKind>, n: nat): (r: seq<Pattern>)
    ensures |r| == |kinds|
    ensures forall j :: 0 <= j < |r| ==> r[j] == Make(kinds[j], n)
    decreases |kinds|
  {
    if kinds == [] then [] else [Make(kinds[0], n)] + MakeAll(kinds[1..], n)
  }

  /** The kinds found in the data itself: `_analyze_dict_patterns` and
      `_analyze_list_patterns`. */
  function DataKinds(data: Data): seq<PatternKind>
  {
    match data
    case Dict(n) => [KeyDistribution] + (if n > 10 then [LargeDataset] else [])
    case List(n) => [SequencePattern] + (if n > 50 then [HighCardinality] else [])
    case Other => []
  }

  /** The kind added for the analysis type, if any. */
  function TypeKind(analysisType: string): Option<PatternKind>
  {
    if analysisType == "trend" then Some(TemporalTrend)
    else if analysisType == "anomaly" then Some(OutlierDetection)
    else if analysisType == "correlation" then Some(CorrelationMatrix)
    else None
  }

  /** The kinds of `_identify_patterns`, in the order they are added. */
  function PatternKinds(data: Data, analysisType: string): seq<PatternKind>
  {
    DataKinds(data) + (match TypeKind(analysisType) case Some(k) => [k] case None => [])
  }

  /** What `_identify_patterns` returns. */
  function Patterns(data: Data, analysisType: string): seq<Pattern>
  {
    MakeAll(PatternKinds(data, analysisType), Size(data))
  }

  /** Which patterns are found: one describing the shape of a dict or a
      list, one more for a large one, and one for each of the three special
      analysis types; nothing else. Dict and list data always give a
      pattern, and there are never more than three. */
  lemma PatternsFound(data: Data, analysisType: string)
    ensures var ks := PatternKinds(data, analysisType);
      |ks| <= 3 &&
      (data.Dict? || data.List? ==> ks != []) &&
      (KeyDistribution in ks <==> data.Dict?) &&
      (LargeDataset in ks <==> data.Dict? && data.size > 10) &&
      (SequencePattern in ks <==> data.List?) &&
      (HighCardinality in ks <==> data.List? && data.size > 50) &&
      (TemporalTrend in ks <==> analysisType == "trend") &&
      (OutlierDetection in ks <==> analysisType == "anomaly") &&
      (CorrelationMatrix in ks <==> analysisType == "correlation")
  {
    var d := DataKinds(data);
    assert TemporalTrend !in d && OutlierDetection !in d && CorrelationMatrix !in d;
    assert data.Dict? ==> KeyDistribution in d && SequencePattern !in d && HighCardinality !in d;
    assert data.List? ==> SequencePattern in d && KeyDistribution !in d && LargeDataset !in d;
  }

  /** At most three patterns, and at least one for dict and list data. */
  lemma PatternCount(data: Data, analysisType: string)
    ensures |Patterns(data, analysisType)| <= 3
    ensures !data.Other? ==> Patterns(data, analysisType) != []
  {
    PatternsFound(data, analysisType);
  }

  /** The type pattern, when there is one, comes after the data patterns. */
  lemma TypePatternLast(data: Data, analysisType: string)
    requires TypeKind(analysisType).Some?
    ensures var ps := Patterns(data, analysisType);
      ps != [] && ps[|ps| - 1] == Make(TypeKind(analysisType).value, Size(data))
  {
  }

  /** `_identify_patterns`: the data patterns, then the type pattern. */
  method IdentifyPatterns(data: Data, analysisType: string) returns (patterns: seq<Pattern>)
    ensures patterns == Patterns(data, analysisType)
  {
    patterns := DataPatterns(data);
    var extra := match TypeKind(analysisType) case Some(k) => [k] case None => [];
    match TypeKind(analysisType) {
      case Some(k) =>
        patterns := patterns + [Make(k, Size(data))];
      case None =>
    }
    MakeAllAppend(DataKinds(data), extra, Size(data));
  }

  /** `_analyze_dict_patterns` and `_analyze_list_patterns`. */
  method DataPatterns(data: Data) returns (patterns: seq<Pattern>)
    ensures patterns == MakeAll(DataKinds(data), Size(data))
  {
    patterns := [];
    match data {
      case Dict(n) =>
        patterns := patterns + [Make(KeyDistribution, n)];
        if n > 10 {
          patterns := patterns + [Make(LargeDataset, n)];
        }
      case List(n) =>
        patterns := patterns + [Make(SequencePattern, n)];
        if n > 50 {
          patterns := patterns + [Make(HighCardinality, n)];
        }
      case Other =>
    }
  }

  lemma {:induction false} MakeAllAppend(a: seq<PatternKind>, b: seq<PatternKind>, n: nat)
    ensures MakeAll(a + b, n) == MakeAll(a, n) + MakeAll(b, n)
    decreases |a|
  {
    if a != [] {
      assert (a + b)[1..] == a[1..] + b;
      MakeAllAppend(a[1..], b, n);
    } else {
      assert a + b == b;
    }
  }

  // Insights.

  /** The insight reported for a pattern. */
  function PatternLine(p: Pattern): string
  {
    "Pattern '" + TypeName(p.kind) + "': " + p.description
  }

  function PatternLines(ps: seq<Pattern>): (r: seq<string>)
    ensures |r| == |ps|
    ensures forall j :: 0 <= j < |r| ==> r[j] == PatternLine(ps[j])
    decreases |ps|
  {
    if ps == [] then [] else [PatternLine(ps[0])] + PatternLines(ps[1..])
  }

  /** The insight for the analysis type, if it is a special one. */
  function TypeInsights(analysisType: string): (r: seq<string>)
    ensures |r| <= 1
    ensures r != [] <==> TypeKind(analysisType).Some?
  {
    match TypeKind(analysisType)
    case Some(k) => [TypeInsight(k)]
    case None => []
  }

  function TypeInsight(k: PatternKind): string
  {
    match k
    case TemporalTrend => "Upward or downward trends may be present in time-series data"
    case OutlierDetection => "Outliers could indicate measurement errors or significant events"
    case CorrelationMatrix => "Variable relationships may indicate causal or correlative connections"
    case _ => ""
  }

  /** The insight about the size of a non-empty dict or list. */
  function SizeInsights(data: Data): (r: seq<string>)
    ensures |r| <= 1
    ensures r != [] <==> !data.Other? && data.size > 0
  {
    if !data.Other? && data.size > 0 then ["Data contains " + NatToString(data.size) + " distinct elements for analysis"]
    else []
  }

  /** What `_extract_insights` returns. */
  function Insights(patterns: seq<Pattern>, data: Data, analysisType: string): (r: seq<string>)
    ensures |patterns| <= |r| <= |patterns| + 2
  {
    PatternLines(patterns) + TypeInsights(analysisType) + SizeInsights(data)
  }

  /** The insights open with one line per pattern, in order. */
  lemma InsightsFollowPatterns(patterns: seq<Pattern>, data: Data, analysisType: string)
    ensures forall j :: 0 <= j < |patterns| ==> Insights(patterns, data, analysisType)[j] == PatternLine(patterns[j])
  {
    var lines := PatternLines(patterns);
    var rest := TypeInsights(analysisType) + SizeInsights(data);
    assert Insights(patterns, data, analysisType) == lines + rest;
  }

  /** `_extract_insights`: one insight per pattern in order, then the type
      insight and the size insight when they apply. */
  method ExtractInsights(patterns: seq<Pattern>, data: Data, analysisType: string) returns (insights: seq<string>)
    ensures insights == Insights(patterns, data, analysisType)
  {
    insights := DescribePatterns(patterns);
    match TypeKind(analysisType) {
      case Some(k) =>
        insights := insights + [TypeInsight(k)];
      case None =>
    }
    insights := insights + SizeInsights(data);
  }

  /** The loop of `_extract_insights` over the patterns. */
  method DescribePatterns(patterns: seq<Pattern>) returns (lines: seq<string>)
    ensures lines == PatternLines(patterns)
  {
    lines := [];
    var i := 0;
    while i < |patterns|
      invariant 0 <= i <= |patterns|
      invariant lines == PatternLines(patterns[..i])
    {
      PatternLinesSnoc(patterns[..i], patterns[i]);
      TakeSnoc(patterns, i);
      lines := lines + [PatternLine(patterns[i])];
      i := i + 1;
    }
    assert patterns[..i] == patterns;
  }

  lemma {:induction false} PatternLinesSnoc(ps: seq<Pattern>, p: Pattern)
    ensures PatternLines(ps + [p]) == PatternLines(ps) + [PatternLine(p)]
    decreases |ps|
  {
    if ps == [] {
      assert ps + [p] == [p];
    } else {
      assert (ps + [p])[1..] == ps[1..] + [p];
      PatternLinesSnoc(ps[1..], p);
    }
  }

  // Recommendations, kept as values and rendered at the end.

  /** `word in str(insights)`. The words looked for are plain letters and
      the insights contain no character that `repr` escapes, so this is the
      same as the word occurring in one of the insights. */
  predicate Mentions(insights: seq<string>, word: string)
  {
    exists i :: 0 <= i < |insights| && Contains(insights[i], word)
  }

  /** The condition for the outlier recommendation as written: `"anomaly"
      in str(insights)`. */
  predicate AnomalyMentionedAsWritten(insights: seq<string>)
  {
    Mentions(insights, "anomaly")
  }

  /** The condition for the outlier recommendation as evidently intended:
      the insights speak of outliers, as those of an anomaly analysis do. */
  predicate OutliersMentioned(insights: seq<string>)
  {
    Mentions(insights, "outlier")
  }

  datatype Recommendation =
    | ReviewPatterns
    | Forecasting
    | InvestigateOutliers
    | StatisticalTests
    | ConsiderContext
    | DocumentMethodology

  function RecommendationText(r: Recommendation, context: string): string
  {
    match r
    case ReviewPatterns => "Review identified patterns for actionable implications"
    case Forecasting => "Consider forecasting methods for trend analysis"
    case InvestigateOutliers => "Investigate outliers to determine if they are errors or significant events"
    case StatisticalTests => "Perform statistical tests to validate potential correlations"
    case ConsiderContext => "Consider context in interpretation: " + context
    case DocumentMethodology => "Document analysis methodology for reproducibility"
  }

  function RecommendationTexts(rs: seq<Recommendation>, context: string): (r: seq<string>)
    ensures |r| == |rs|
    ensures forall k :: 0 <= k < |r| ==> r[k] == RecommendationText(rs[k], context)
    decreases |rs|
  {
    if rs == [] then [] else [RecommendationText(rs[0], context)] + RecommendationTexts(rs[1..], context)
  }

  /** The recommendations drawn from `insights` and `context`, in the order
      they are added; `outliers` is the outcome of the test that decides
      the outlier advice. */
  function Recommendations(insights: seq<string>, context: string, outliers: bool): seq<Recommendation>
  {
    Advice(insights, context, outliers) + [DocumentMethodology]
  }

  /** The recommendations that depend on the insights and the context. */
  function Advice(insights: seq<string>, context: string, outliers: bool): seq<Recommendation>
  {
    (if insights != [] then [ReviewPatterns] else []) +
    (if Mentions(insights, "trend") then [Forecasting] else []) +
    (if outliers then [InvestigateOutliers] else []) +
    (if Mentions(insights, "correlation") then [StatisticalTests] else []) +
    (if context != [] then [ConsiderContext] else [])
  }

  /** The methodology advice always comes, and only at the end; the review
      advice comes first exactly when there are insights. */
  lemma RecommendationsEnd(insights: seq<string>, context: string, outliers: bool)
    ensures var recs := Recommendations(insights, context, outliers);
      recs != [] && recs[|recs| - 1] == DocumentMethodology &&
      DocumentMethodology !in recs[..|recs| - 1] &&
      (recs[0] == ReviewPatterns <==> insights != [])
  {
    var recs := Recommendations(insights, context, outliers);
    assert recs[..|recs| - 1] == Advice(insights, context, outliers);
    AdviceChosen(insights, context, outliers);
    assert recs[0] in recs;
  }

  /** Each recommendation but the methodology advice is given exactly when
      its condition holds. */
  lemma RecommendationsChosen(insights: seq<string>, context: string, outliers: bool)
    ensures var recs := Recommendations(insights, context, outliers);
      (ReviewPatterns in recs <==> insights != []) &&
      (Forecasting in recs <==> Mentions(insights, "trend")) &&
      (InvestigateOutliers in recs <==> outliers) &&
      (StatisticalTests in recs <==> Mentions(insights, "correlation")) &&
      (ConsiderContext in recs <==> context != [])
  {
    AdviceChosen(insights, context, outliers);
  }

  lemma AdviceChosen(insights: seq<string>, context: string, outliers: bool)
    ensures var adv := Advice(insights, context, outliers);
      DocumentMethodology !in adv &&
      (adv != [] && adv[0] == ReviewPatterns <==> insights != []) &&
      (ReviewPatterns in adv <==> insights != []) &&
      (Forecasting in adv <==> Mentions(insights, "trend")) &&
      (InvestigateOutliers in adv <==> outliers) &&
      (StatisticalTests in adv <==> Mentions(insights, "correlation")) &&
      (ConsiderContext in adv <==> context != [])
  {
    var adv := Advice(insights, context, outliers);
    if adv != [] {
      assert adv[0] in adv;
    }
  }

  /** `_generate_recommendations` as written: the outlier advice is given
      when "anomaly" occurs in the insights. */
  method GenerateRecommendations(insights: seq<string>, context: string) returns (recs: seq<Recommendation>)
    ensures recs == Recommendations(insights, context, AnomalyMentionedAsWritten(insights))
  {
    var review := if insights != [] then [ReviewPatterns] else [];
    var forecast := if Mentions(insights, "trend") then [Forecasting] else [];
    var outliers := if AnomalyMentionedAsWritten(insights) then [InvestigateOutliers] else [];
    var tests := if Mentions(insights, "correlation") then [StatisticalTests] else [];
    recs := [];
    if |insights| > 0 {
      recs := recs + [ReviewPatterns];
    }
    assert recs == review;
    if Mentions(insights, "trend") {
      recs := recs + [Forecasting];
    }
    assert recs == review + forecast;
    if AnomalyMentionedAsWritten(insights) {
      recs := recs + [InvestigateOutliers];
    }
    assert recs == review + forecast + outliers;
    if Mentions(insights, "correlation") {
      recs := recs + [StatisticalTests];
    }
    assert recs == review + forecast + outliers + tests;
    if context != [] {
      recs := recs + [ConsiderContext];
    }
    recs := recs + [DocumentMethodology];
  }

  // The analysis types and the recommendations they lead to.

  /** `c` does not occur in `s`, so no word containing `c` does. */
  lemma {:induction false} AbsentChar(s: string, word: string, c: char)
    requires c in word && c !in s
    ensures !Contains(s, word)
    decreases |s|
  {
    if s != [] {
      AbsentChar(s[1..], word, c);
    }
  }

  /** `word` occurs in the pattern line of a pattern whose type contains it. */
  lemma LineMentionsType(p: Pattern, word: string)
    requires Contains(TypeName(p.kind), word)
    ensures Contains(PatternLine(p), word)
  {
    ContainsAppend("Pattern '", TypeName(p.kind), word);
    ContainsPrefix("Pattern '" + TypeName(p.kind), "': ", word);
    ContainsPrefix("Pattern '" + TypeName(p.kind) + "': ", p.description, word);
  }

  /** The type pattern's line is among the insights. */
  lemma TypeLineInInsights(data: Data, analysisType: string, k: PatternKind, word: string)
    requires TypeKind(analysisType) == Some(k)
    requires Contains(TypeName(k), word)
    ensures Mentions(Insights(Patterns(data, analysisType), data, analysisType), word)
  {
    var ps := Patterns(data, analysisType);
    var m := |DataKinds(data)|;
    assert PatternKinds(data, analysisType)[m] == k;
    assert ps[m].kind == k;
    LineMentionsType(ps[m], word);
    InsightOfPattern(ps, data, analysisType, m, word);
  }

  /** A word in the line of a pattern is mentioned by the insights. */
  lemma InsightOfPattern(ps: seq<Pattern>, data: Data, analysisType: string, m: nat, word: string)
    requires m < |ps| && Contains(PatternLine(ps[m]), word)
    ensures Mentions(Insights(ps, data, analysisType), word)
  {
    var ins := Insights(ps, data, analysisType);
    assert ins[m] == PatternLines(ps)[m];
  }

  /** A trend analysis is always followed by the forecasting advice. */
  lemma TrendRecommended(data: Data)
    ensures Mentions(Insights(Patterns(data, "trend"), data, "trend"), "trend")
  {
    ContainsAt("temporal_trend", "trend", 9);
    TypeLineInInsights(data, "trend", TemporalTrend, "trend");
  }

  /** A correlation analysis is always followed by the statistical-test
      advice. */
  lemma CorrelationRecommended(data: Data)
    ensures Mentions(Insights(Patterns(data, "correlation"), data, "correlation"), "correlation")
  {
    assert "correlation" <= "correlation_matrix";
    TypeLineInInsights(data, "correlation", CorrelationMatrix, "correlation");
  }

  /** The insights of an anomaly analysis always speak of outliers. */
  lemma AnomalyRecommended(data: Data)
    ensures OutliersMentioned(Insights(Patterns(data, "anomaly"), data, "anomaly"))
  {
    assert "outlier" <= "outlier_detection";
    TypeLineInInsights(data, "anomaly", OutlierDetection, "outlier");
  }

  /** As written, no analysis of any data and any type mentions "anomaly"
      (the outlier pattern says "Anomalous"), so the outlier advice is never
      given, although the insights of every anomaly analysis speak of
      outliers. */
  lemma AnomalyCheckMisses(data: Data, analysisType: string, context: string)
    ensures var ins := Insights(Patterns(data, analysisType), data, analysisType);
      !AnomalyMentionedAsWritten(ins) &&
      InvestigateOutliers !in Recommendations(ins, context, AnomalyMentionedAsWritten(ins))
    ensures analysisType == "anomaly" ==> OutliersMentioned(Insights(Patterns(data, analysisType), data, analysisType))
  {
    var ins := Insights(Patterns(data, analysisType), data, analysisType);
    AnomalyNeverMentioned(data, analysisType);
    RecommendationsChosen(ins, context, AnomalyMentionedAsWritten(ins));
    if analysisType == "anomaly" {
      AnomalyRecommended(data);
    }
  }

  /** With the evidently intended test, every anomaly analysis is followed
      by the advice to investigate outliers. */
  lemma IntendedOutlierAdvice(data: Data, context: string)
    ensures var ins := Insights(Patterns(data, "anomaly"), data, "anomaly");
      InvestigateOutliers in Recommendations(ins, context, OutliersMentioned(ins))
  {
    var ins := Insights(Patterns(data, "anomaly"), data, "anomaly");
    RecommendationsChosen(ins, context, OutliersMentioned(ins));
    AnomalyRecommended(data);
  }

  /** No insight contains "anomaly". */
  lemma AnomalyNeverMentioned(data: Data, analysisType: string)
    ensures !AnomalyMentionedAsWritten(Insights(Patterns(data, analysisType), data, analysisType))
  {
    var ps := Patterns(data, analysisType);
    var ins := Insights(ps, data, analysisType);
    var lines, types, sizes := PatternLines(ps), TypeInsights(analysisType), SizeInsights(data);
    assert ins == lines + types + sizes;
    forall i | 0 <= i < |ins|
      ensures !Contains(ins[i], "anomaly")
    {
      if i < |lines| {
        assert ins[i] == PatternLine(Make(PatternKinds(data, analysisType)[i], Size(data)));
        PatternLineNoAnomaly(PatternKinds(data, analysisType)[i], Size(data));
      } else if i < |lines| + |types| {
        assert ins[i] == TypeInsight(TypeKind(analysisType).value);
        TypeInsightNoAnomaly(TypeKind(analysisType).value);
      } else {
        assert ins[i] == "Data contains " + NatToString(data.size) + " distinct elements for analysis";
        SizeInsightNoAnomaly(data.size);
      }
    }
  }

  /** No three consecutive characters of `s` spell "ano", the start of
      "anomaly". */
  predicate LacksAno(s: string)
  {
    forall j :: 0 <= j < |s| - 2 ==> !(s[j] == 'a' && s[j + 1] == 'n' && s[j + 2] == 'o')
  }

  lemma {:induction false} LacksAnoNoAnomaly(s: string)
    requires LacksAno(s)
    ensures !Contains(s, "anomaly")
    decreases |s|
  {
    if s != [] {
      if |s| >= 3 {
        assert !(s[0] == 'a' && s[1] == 'n' && s[2] == 'o');
      }
      assert LacksAno(s[1..]) by {
        forall j | 0 <= j < |s[1..]| - 2
          ensures !(s[1..][j] == 'a' && s[1..][j + 1] == 'n' && s[1..][j + 2] == 'o')
        {
          assert s[1..][j] == s[j + 1] && s[1..][j + 1] == s[j + 2] && s[1..][j + 2] == s[j + 3];
        }
      }
      LacksAnoNoAnomaly(s[1..]);
    }
  }

  /** Joining two strings creates no "ano" when the seam cannot be part of
      one. */
  lemma LacksAnoAppend(a: string, b: string)
    requires LacksAno(a) && LacksAno(b)
    requires a == [] || b == [] || (a[|a| - 1] != 'a' && a[|a| - 1] != 'n') || (b[0] != 'n' && b[0] != 'o')
    ensures LacksAno(a + b)
  {
  }

  /** A string missing one of the letters of "ano" lacks "ano". */
  lemma LacksAnoMissing(s: string, c: char)
    requires (c == 'a' || c == 'n' || c == 'o') && c !in s
    ensures LacksAno(s)
  {
    forall j | 0 <= j < |s| - 2
      ensures !(s[j] == 'a' && s[j + 1] == 'n' && s[j + 2] == 'o')
    {
      assert s[j] in s && s[j + 1] in s && s[j + 2] in s;
    }
  }

  /** A decimal numeral lacks "ano". */
  lemma NumeralLacksAno(n: nat)
    ensures LacksAno(NatToString(n))
  {
    var s := NatToString(n);
    forall j | 0 <= j < |s| - 2
      ensures !(s[j] == 'a' && s[j + 1] == 'n' && s[j + 2] == 'o')
    {
      assert IsDigit(s[j]);
    }
  }

  /** "anomaly" is in no pattern line. */
  lemma PatternLineNoAnomaly(k: PatternKind, n: nat)
    ensures !Contains(PatternLine(Make(k, n)), "anomaly")
  {
    match k
    case KeyDistribution => KeyLineNoAnomaly(n);
    case HighCardinality => CardinalityLineNoAnomaly(n);
    case SequencePattern => SequenceLineNoAnomaly(n);
    case _ => FixedLineLacksY(k, n);
  }

  lemma KeyLineNoAnomaly(n: nat)
    ensures !Contains(PatternLine(Make(KeyDistribution, n)), "anomaly")
  {
    var head := "Pattern '" + "key_distribution" + "': ";
    var desc := "Dictionary with " + NatToString(n) + " keys identified";
    NumeralLacksAno(n);
    LacksAnoAppend("Pattern '", "key_distribution");
    LacksAnoAppend("Pattern '" + "key_distribution", "': ");
    LacksAnoAppend("Dictionary with ", NatToString(n));
    LacksAnoAppend("Dictionary with " + NatToString(n), " keys identified");
    LacksAnoAppend(head, desc);
    LacksAnoNoAnomaly(head + desc);
  }

  lemma CardinalityLineNoAnomaly(n: nat)
    ensures !Contains(PatternLine(Make(HighCardinality, n)), "anomaly")
  {
    var head := "Pattern '" + "high_cardinality" + "': ";
    var desc := "High-cardinality data sequence detected";
    LacksAnoMissing(desc, 'o');
    LacksAnoAppend("Pattern '", "high_cardinality");
    LacksAnoAppend("Pattern '" + "high_cardinality", "': ");
    LacksAnoAppend(head, desc);
    LacksAnoNoAnomaly(head + desc);
  }

  lemma SequenceLineNoAnomaly(n: nat)
    ensures !Contains(PatternLine(Make(SequencePattern, n)), "anomaly")
  {
    var s := PatternLine(Make(SequencePattern, n));
    assert 'y' !in "Pattern '" + "sequence_pattern" + "': " + "Sequence of ";
    assert 'y' !in NatToString(n) by {
      forall k | 0 <= k < |NatToString(n)| ensures NatToString(n)[k] != 'y' {
        assert IsDigit(NatToString(n)[k]);
      }
    }
    assert 'y' !in " items identified";
    assert s == "Pattern '" + "sequence_pattern" + "': " + "Sequence of " + NatToString(n) + " items identified";
    AbsentChar(s, "anomaly", 'y');
  }

  /** The lines of the patterns whose description is fixed have no 'y'. */
  lemma FixedLineLacksY(k: PatternKind, n: nat)
    requires k.LargeDataset? || k.TemporalTrend? || k.OutlierDetection? || k.CorrelationMatrix?
    ensures !Contains(PatternLine(Make(k, n)), "anomaly")
  {
    match k {
      case LargeDataset =>
        assert 'y' !in "large_dataset" && 'y' !in "Significant data volume detected";
      case TemporalTrend =>
        assert 'y' !in "temporal_trend" && 'y' !in "Time-based pattern detected";
      case OutlierDetection =>
        assert 'y' !in "outlier_detection" && 'y' !in "Anomalous values identified";
      case CorrelationMatrix =>
        CorrelationLineLacksY(n);
    }
    LineLacksY(k, n);
  }

  lemma CorrelationLineLacksY(n: nat)
    ensures 'y' !in TypeName(CorrelationMatrix) && 'y' !in Make(CorrelationMatrix, n).description
  {
    assert 'y' !in "correlation_matrix" && 'y' !in "Relationships betwe";
    assert 'y' !in "Relationships between variables detected";
  }

  /** A pattern line without 'y' in its type and description has none. */
  lemma LineLacksY(k: PatternKind, n: nat)
    requires 'y' !in Make(k, n).description && 'y' !in TypeName(k)
    ensures !Contains(PatternLine(Make(k, n)), "anomaly")
  {
    assert 'y' !in "Pattern '" && 'y' !in "': ";
    AbsentChar(PatternLine(Make(k, n)), "anomaly", 'y');
  }

  /** "anomaly" is in no insight of an analysis type. */
  lemma TypeInsightNoAnomaly(k: PatternKind)
    ensures !Contains(TypeInsight(k), "anomaly")
  {
    match k
    case TemporalTrend => TrendInsightNoAnomaly();
    case OutlierDetection => OutlierInsightNoAnomaly();
    case CorrelationMatrix =>
      CorrelationInsightLacksAno();
      LacksAnoNoAnomaly(TypeInsight(k));
    case _ =>
  }

  /** The trend insight has no 'l'. The asserted prefixes let the solver
      check the long literal piecewise. */
  lemma TrendInsightNoAnomaly()
    ensures !Contains(TypeInsight(TemporalTrend), "anomaly")
  {
    assert 'l' !in "Upward or downward t";
    assert 'l' !in "Upward or downward trends may be pres";
    assert 'l' !in TypeInsight(TemporalTrend);
    AbsentChar(TypeInsight(TemporalTrend), "anomaly", 'l');
  }

  /** The outlier insight has no 'y'. */
  lemma OutlierInsightNoAnomaly()
    ensures !Contains(TypeInsight(OutlierDetection), "anomaly")
  {
    assert 'y' !in "Outliers could i";
    assert 'y' !in "Outliers could indicate measure";
    assert 'y' !in "Outliers could indicate measurement errors o";
    assert 'y' !in TypeInsight(OutlierDetection);
    AbsentChar(TypeInsight(OutlierDetection), "anomaly", 'y');
  }

  lemma CorrelationHeadLacksAno()
    ensures LacksAno("Variable relationships may indicate causal ")
  {
    LacksAnoMissing("may indicate causal ", 'o');
    LacksAnoAppend("Variable relationships ", "may indicate causal ");
    assert "Variable relationships " + "may indicate causal " == "Variable relationships may indicate causal ";
  }

  lemma CorrelationInsightLacksAno()
    ensures LacksAno(TypeInsight(CorrelationMatrix))
  {
    CorrelationHeadLacksAno();
    LacksAnoAppend("Variable relationships may indicate causal ", "or correlative connections");
    assert "Variable relationships may indicate causal " + "or correlative connections" == TypeInsight(CorrelationMatrix);
  }

  /** "anomaly" is not in the size insight. */
  lemma SizeInsightNoAnomaly(n: nat)
    ensures !Contains("Data contains " + NatToString(n) + " distinct elements for analysis", "anomaly")
  {
    NumeralLacksAno(n);
    LacksAnoAppend("Data contains ", NatToString(n));
    LacksAnoAppend("Data contains " + NatToString(n), " distinct elements for analysis");
    LacksAnoNoAnomaly("Data contains " + NatToString(n) + " distinct elements for analysis");
  }

  // Confidence.

  /** `_calculate_confidence` for `p` patterns, `i` insights and a
      completeness given in hundredths, in exact ten-thousandths (9500
      stands for 0.95): 0.5, plus 0.05 a pattern up to 0.2, plus 0.04 an
      insight up to 0.15, plus 0.15 times the completeness, at most 1. */
  function Confidence(p: nat, i: nat, completeness: nat): (c: nat)
    ensures 5000 <= c <= 10000
    ensures p <= 3 && completeness <= 100 ==> c <= 9500
  {
    Min(10000, 5000 + Min(2000, 500 * p) + Min(1500, 400 * i) + 15 * completeness)
  }

  /** More patterns, more insights or more complete data never lower the
      confidence. */
  lemma ConfidenceMonotone(p: nat, i: nat, c: nat, p': nat, i': nat, c': nat)
    requires p <= p' && i <= i' && c <= c'
    ensures Confidence(p, i, c) <= Confidence(p', i', c')
  {
  }

  // The agent.

  datatype Analysis = Analysis(analysisType: string, patterns: seq<Pattern>, insights: seq<string>,
                               recommendations: seq<string>, confidence: nat, quality: DataQuality)

  /** What the analysis of `data` is made of: the patterns and insights
      of its shape and type, its quality, a confidence computed from them,
      and the recommendations drawn from the insights and the context. */
  predicate Describes(a: Analysis, data: Data, analysisType: string, context: string)
  {
    a.analysisType == analysisType &&
    a.patterns == Patterns(data, analysisType) &&
    a.insights == Insights(a.patterns, data, analysisType) &&
    a.quality == QualityOf(data) &&
    a.confidence == Confidence(|a.patterns|, |a.insights|, a.quality.completeness) &&
    a.recommendations == RecommendationTexts(Recommendations(a.insights, context, AnomalyMentionedAsWritten(a.insights)), context)
  }

  /** An analysis of dict or list data finds at least one pattern, gives
      at least one insight per pattern, and its confidence lies between 0.5
      and 0.95. */
  lemma DescribedBounds(a: Analysis, data: Data, analysisType: string, context: string)
    requires Describes(a, data, analysisType, context)
    ensures !data.Other? ==> a.patterns != []
    ensures |a.insights| >= |a.patterns|
    ensures 5000 <= a.confidence <= 9500
  {
    PatternCount(data, analysisType);
  }

  /** The recommendations of an analysis end with the methodology advice. */
  lemma DescribedEnd(insights: seq<string>, context: string)
    ensures var texts := RecommendationTexts(Recommendations(insights, context, AnomalyMentionedAsWritten(insights)), context);
      texts != [] && texts[|texts| - 1] == RecommendationText(DocumentMethodology, "")
  {
    RecommendationsEnd(insights, context, AnomalyMentionedAsWritten(insights));
  }

  /** The recommendations as the texts the result carries. */
  method RecommendationLines(insights: seq<string>, context: string) returns (texts: seq<string>)
    ensures texts == RecommendationTexts(Recommendations(insights, context, AnomalyMentionedAsWritten(insights)), context)
  {
    var recs := GenerateRecommendations(insights, context);
    texts := RecommendationTexts(recs, context);
  }

  /** The quality, patterns and insights that `run` gathers first. */
  method Findings(data: Data, analysisType: string) returns (quality: DataQuality, patterns: seq<Pattern>, insights: seq<string>)
    ensures quality == QualityOf(data)
    ensures patterns == Patterns(data, analysisType)
    ensures insights == Insights(patterns, data, analysisType)
  {
    quality := AssessQuality(data);
    patterns := IdentifyPatterns(data, analysisType);
    insights := ExtractInsights(patterns, data, analysisType);
  }

  /** `AnalystAgent.run`. `data` is `None` when no data is given, and
      `analysisType` is the `analysis_type` parameter of the configuration,
      `None` when absent. */
  method Run(data: Option<Data>, context: string, analysisType: Option<string>) returns (r: Result<Analysis>)
    ensures r.Err? <==> data.None?
    ensures r.Err? ==> r.kind == "ValueError"
    ensures r.Ok? ==> Describes(r.value, data.value, if analysisType.Some? then analysisType.value else "general", context)
  {
    if data.None? {
      return Err("ValueError", "Data is required for analysis (provide 'data' in kwargs)");
    }
    var analysisType := if analysisType.Some? then analysisType.value else "general";
    var quality, patterns, insights := Findings(data.value, analysisType);
    var texts := RecommendationLines(insights, context);
    var confidence := Confidence(|patterns|, |insights|, quality.completeness);
    r := Ok(Analysis(analysisType, patterns, insights, texts, confidence, quality));
  }
}
