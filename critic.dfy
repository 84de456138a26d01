// The rule-based review agent: five quality scores adjusted by what the
// content contains and by the strictness, a fixed list of possible issues,
// suggestions drawn from both, and an approval decision.
//
// Scores are kept in hundredths (85 stands for 0.85), so every comparison
// with a threshold is exact.

module Critic {
  import opened Common

  datatype Scores = Scores(accuracy: int, completeness: int, clarity: int, consistency: int, structure: int)

  function Sum(s: Scores): int
  {
    s.accuracy + s.completeness + s.clarity + s.consistency + s.structure
  }

  predicate InRange(s: Scores)
  {
    0 <= s.accuracy <= 100 && 0 <= s.completeness <= 100 && 0 <= s.clarity <= 100 &&
    0 <= s.consistency <= 100 && 0 <= s.structure <= 100
  }

  /** "TODO" or "FIXME" occurs. */
  predicate HasMarkers(content: string)
  {
    Contains(content, "TODO") || Contains(content, "FIXME")
  }

  /** "???" occurs, or "unclear" in any case. */
  predicate IsUnclear(content: string)
  {
    Contains(content, "???") || Contains(Lower(content), "unclear")
  }

  /** Blank-line runs: `content.count("\n\n\n") > 0`. */
  predicate HasBlankRun(content: string)
  {
    Contains(content, "\n\n\n")
  }

  function Clamp(v: int): int
  {
    if v < 0 then 0 else if v > 100 then 100 else v
  }

  /** The scores before the strictness adjustment. */
  function BaseScores(content: string): (s: Scores)
    ensures InRange(s)
    ensures s.accuracy == 85 && s.consistency == 90 && s.structure == 82
    ensures s.completeness == 80 - (if |content| < 50 then 15 else 0) - (if HasMarkers(content) then 20 else 0)
    ensures s.clarity == 88 - (if 50 <= |content| && |content| > 5000 then 10 else 0) - (if IsUnclear(content) then 15 else 0)
  {
    var completeness := 80 - (if |content| < 50 then 15 else 0) - (if HasMarkers(content) then 20 else 0);
    var clarity := 88 - (if |content| >= 50 && |content| > 5000 then 10 else 0) - (if IsUnclear(content) then 15 else 0);
    Scores(85, completeness, clarity, 90, 82)
  }

  /** Every dimension moved by `d` hundredths and kept between 0 and 100. */
  function Shift(s: Scores, d: int): (r: Scores)
    ensures InRange(r)
  {
    Scores(Clamp(s.accuracy + d), Clamp(s.completeness + d), Clamp(s.clarity + d),
           Clamp(s.consistency + d), Clamp(s.structure + d))
  }

  /** The strictness adjustment, applied to every dimension. */
  function Adjust(s: Scores, strictness: string): (r: Scores)
    requires InRange(s)
    ensures InRange(r)
    ensures strictness == "strict" ==> r == Shift(s, -5)
    ensures strictness == "lenient" ==> r == Shift(s, 5)
    ensures strictness != "strict" && strictness != "lenient" ==> r == s
  {
    if strictness == "strict" then Shift(s, -5)
    else if strictness == "lenient" then Shift(s, 5)
    else s
  }

  /** `_evaluate_quality`: five scores, each between 0 and 1. */
  function Quality(content: string, strictness: string): (s: Scores)
    ensures InRange(s)
  {
    Adjust(BaseScores(content), strictness)
  }

  predicate AtMost(a: Scores, b: Scores)
  {
    a.accuracy <= b.accuracy && a.completeness <= b.completeness && a.clarity <= b.clarity &&
    a.consistency <= b.consistency && a.structure <= b.structure
  }

  /** Strict review never scores a dimension above balanced review, and
      lenient review never below it. */
  lemma StrictnessMonotone(content: string)
    ensures AtMost(Quality(content, "strict"), Quality(content, "balanced"))
    ensures AtMost(Quality(content, "balanced"), Quality(content, "lenient"))
  {
  }

  // Issues.

  datatype Severity = Error | Warning | Info

  datatype IssueKind = InsufficientContent | IncompleteWork | UnclearSections | Formatting

  datatype Issue = Issue(severity: Severity, kind: IssueKind)

  function Description(k: IssueKind): string
  {
    match k
    case InsufficientContent => "Content is too short for meaningful review"
    case IncompleteWork => "Unfinished work markers found (TODO/FIXME)"
    case UnclearSections => "Unclear or ambiguous passages detected"
    case Formatting => "Excessive blank lines detected"
  }

  /** The checks of `_identify_issues`, in the order they run. */
  const AllKinds: seq<IssueKind> := [InsufficientContent, IncompleteWork, UnclearSections, Formatting]

  /** Whether the check for `k` fires on the content. */
  predicate Detected(k: IssueKind, content: string)
  {
    match k
    case InsufficientContent => |content| < 50
    case IncompleteWork => HasMarkers(content)
    case UnclearSections => IsUnclear(content)
    case Formatting => HasBlankRun(content)
  }

  /** Unfinished-work markers are an error only under strict review. */
  function SeverityOf(k: IssueKind, strictness: string): Severity
  {
    match k
    case IncompleteWork => if strictness == "strict" then Error else Warning
    case Formatting => Info
    case _ => Warning
  }

  /** The kinds of issue found, in the order of the checks. */
  function Found(content: string): (r: seq<IssueKind>)
    ensures |r| <= 4
    ensures forall k :: k in r <==> Detected(k, content)
    ensures IsSubsequence(r, AllKinds)
  {
    var p := k => Detected(k, content);
    var r := Filter(AllKinds, p);
    forall k ensures k in r <==> Detected(k, content) {
      KindListed(k);
    }
    FilterSubsequence(AllKinds, p);
    r
  }

  lemma KindListed(k: IssueKind)
    ensures k in AllKinds
  {
    match k
    case InsufficientContent => assert AllKinds[0] == k;
    case IncompleteWork => assert AllKinds[1] == k;
    case UnclearSections => assert AllKinds[2] == k;
    case Formatting => assert AllKinds[3] == k;
  }

  /** `_identify_issues`: one issue per check that fires, in the order of
      the checks, with the severity of its kind. */
  function Issues(content: string, strictness: string): (r: seq<Issue>)
    ensures |r| <= 4
    ensures forall j :: 0 <= j < |r| ==> r[j].severity == SeverityOf(r[j].kind, strictness)
  {
    WithSeverities(Found(content), strictness)
  }

  /** An issue of a kind is reported exactly when its check fires. */
  lemma IssueKindsDetected(content: string, strictness: string)
    ensures forall k :: HasKind(Issues(content, strictness), k) <==> Detected(k, content)
  {
    SeveritiesKeepKinds(Found(content), strictness);
  }

  lemma SeveritiesKeepKinds(kinds: seq<IssueKind>, strictness: string)
    ensures forall k :: HasKind(WithSeverities(kinds, strictness), k) <==> k in kinds
  {
    var r := WithSeverities(kinds, strictness);
    forall k ensures HasKind(r, k) <==> k in kinds {
      if k in kinds {
        var j :| 0 <= j < |kinds| && kinds[j] == k;
        assert r[j] in r && r[j].kind == k;
      }
      if HasKind(r, k) {
        var i :| i in r && i.kind == k;
        var j :| 0 <= j < |r| && r[j] == i;
        assert kinds[j] == k;
      }
    }
  }

  /** One issue per kind, each with the severity of its kind. */
  function WithSeverities(kinds: seq<IssueKind>, strictness: string): (r: seq<Issue>)
    ensures |r| == |kinds|
    ensures forall j :: 0 <= j < |r| ==> r[j] == Issue(SeverityOf(kinds[j], strictness), kinds[j])
    decreases |kinds|
  {
    if kinds == [] then []
    else [Issue(SeverityOf(kinds[0], strictness), kinds[0])] + WithSeverities(kinds[1..], strictness)
  }

  function CountSeverity(issues: seq<Issue>, s: Severity): nat
    decreases |issues|
  {
    if issues == [] then 0
    else (if issues[0].severity == s then 1 else 0) + CountSeverity(issues[1..], s)
  }

  lemma {:induction false} CountSeverityZero(issues: seq<Issue>, s: Severity)
    ensures CountSeverity(issues, s) == 0 <==> forall i :: i in issues ==> i.severity != s
    decreases |issues|
  {
    if issues != [] {
      CountSeverityZero(issues[1..], s);
      assert forall i :: i in issues ==> i == issues[0] || i in issues[1..];
    }
  }

  // Suggestions, kept as values and rendered at the end.

  datatype Suggestion =
    | ImproveClarity
    | AddSections
    | VerifyFacts
    | ConsistentTerms
    | CompleteMarkers
    | ClarifyPassages
    | CommentLogic
    | Docstrings
    | ExecutiveSummary
    | References

  function SuggestionText(s: Suggestion): string
  {
    match s
    case ImproveClarity => "Improve clarity by simplifying complex sentences and removing jargon"
    case AddSections => "Add missing sections or expand existing ones for better coverage"
    case VerifyFacts => "Verify facts and claims; provide citations where possible"
    case ConsistentTerms => "Ensure consistent terminology and formatting throughout"
    case CompleteMarkers => "Complete all marked TODO/FIXME items before submission"
    case ClarifyPassages => "Clarify uncertain or ambiguous passages with specific details"
    case CommentLogic => "Add comments explaining complex logic"
    case Docstrings => "Include docstrings for all functions and classes"
    case ExecutiveSummary => "Add executive summary at the beginning"
    case References => "Include references and source citations"
  }

  /** Given alone when no suggestion applies. */
  const Fallback := "Overall content is good; minor polish recommended"

  predicate HasKind(issues: seq<Issue>, k: IssueKind)
  {
    exists i :: i in issues && i.kind == k
  }

  /** The suggestions of `_generate_suggestions` in the order it adds
      them, without the fallback. */
  const AllSuggestions: seq<Suggestion> := [ImproveClarity, AddSections, VerifyFacts, ConsistentTerms,
    CompleteMarkers, ClarifyPassages, CommentLogic, Docstrings, ExecutiveSummary, References]

  /** When each suggestion is made: a dimension below 0.85, an issue of a
      kind, or a word in the context. */
  predicate Applies(x: Suggestion, s: Scores, issues: seq<Issue>, context: string)
  {
    match x
    case ImproveClarity => s.clarity < 85
    case AddSections => s.completeness < 85
    case VerifyFacts => s.accuracy < 85
    case ConsistentTerms => s.consistency < 85
    case CompleteMarkers => HasKind(issues, IncompleteWork)
    case ClarifyPassages => HasKind(issues, UnclearSections)
    case CommentLogic => context != [] && Contains(Lower(context), "code")
    case Docstrings => context != [] && Contains(Lower(context), "code")
    case ExecutiveSummary => context != [] && Contains(Lower(context), "report")
    case References => context != [] && Contains(Lower(context), "report")
  }

  /** The conditional part of `_generate_suggestions`: every suggestion
      whose condition holds, in the order they are checked. */
  function Suggestions(s: Scores, issues: seq<Issue>, context: string): (r: seq<Suggestion>)
    ensures forall x :: x in r <==> Applies(x, s, issues, context)
    ensures IsSubsequence(r, AllSuggestions)
  {
    var p := x => Applies(x, s, issues, context);
    forall x ensures x in AllSuggestions {
      SuggestionListed(x);
    }
    FilterCovers(AllSuggestions, p);
    FilterSubsequence(AllSuggestions, p);
    Filter(AllSuggestions, p)
  }

  /** The fallback is given exactly when no suggestion applies. */
  lemma FallbackExactly(s: Scores, issues: seq<Issue>, context: string)
    ensures Suggestions(s, issues, context) == [] <==> forall x :: !Applies(x, s, issues, context)
  {
    var found := Suggestions(s, issues, context);
    if found == [] {
      forall x ensures !Applies(x, s, issues, context) {
        assert x !in found;
      }
    } else {
      assert Applies(found[0], s, issues, context);
    }
  }

  lemma SuggestionListed(x: Suggestion)
    ensures x in AllSuggestions
  {
    match x
    case ImproveClarity => assert AllSuggestions[0] == x;
    case AddSections => assert AllSuggestions[1] == x;
    case VerifyFacts => assert AllSuggestions[2] == x;
    case ConsistentTerms => assert AllSuggestions[3] == x;
    case CompleteMarkers => assert AllSuggestions[4] == x;
    case ClarifyPassages => assert AllSuggestions[5] == x;
    case CommentLogic => assert AllSuggestions[6] == x;
    case Docstrings => assert AllSuggestions[7] == x;
    case ExecutiveSummary => assert AllSuggestions[8] == x;
    case References => assert AllSuggestions[9] == x;
  }

  /** The text of each suggestion, in order. */
  function SuggestionTexts(xs: seq<Suggestion>): (r: seq<string>)
    ensures |r| == |xs|
    ensures forall k :: 0 <= k < |r| ==> r[k] == SuggestionText(xs[k])
    decreases |xs|
  {
    if xs == [] then [] else [SuggestionText(xs[0])] + SuggestionTexts(xs[1..])
  }

  // Approval.

  datatype Status = Approved | NeedsRevision | Rejected

  /** Approval and rejection thresholds, in hundredths. */
  function Thresholds(strictness: string): (t: (int, int))
    ensures strictness == "strict" ==> t == (85, 70)
    ensures strictness == "lenient" ==> t == (70, 50)
    ensures strictness != "strict" && strictness != "lenient" ==> t == (80, 60)
  {
    if strictness == "strict" then (85, 70)
    else if strictness == "lenient" then (70, 50)
    else (80, 60)
  }

  /** `_determine_approval`. The mean of the five scores is at least a
      threshold `t` exactly when their sum is at least `5 * t`. Any error
      rejects; otherwise approval needs the approval threshold and at most
      one warning, and revision the rejection threshold. */
  function Approval(s: Scores, issues: seq<Issue>, strictness: string): (r: Status)
    ensures CountSeverity(issues, Error) > 0 ==> r == Rejected
    ensures r == Approved <==> CountSeverity(issues, Error) == 0 && Sum(s) >= 5 * Thresholds(strictness).0 &&
                               CountSeverity(issues, Warning) <= 1
    ensures r == NeedsRevision <==> CountSeverity(issues, Error) == 0 &&
                                    !(Sum(s) >= 5 * Thresholds(strictness).0 && CountSeverity(issues, Warning) <= 1) &&
                                    Sum(s) >= 5 * Thresholds(strictness).1
  {
    var (approve, reject) := Thresholds(strictness);
    if CountSeverity(issues, Error) > 0 then Rejected
    else if Sum(s) >= 5 * approve && CountSeverity(issues, Warning) <= 1 then Approved
    else if Sum(s) >= 5 * reject then NeedsRevision
    else Rejected
  }

  /** `content[:100] + "..."` for long content, the content otherwise. */
  function Preview(content: string): (r: string)
    ensures |content| <= 100 ==> r == content
    ensures |content| > 100 ==> |r| == 103 && r[..100] == content[..100]
  {
    if |content| > 100 then content[..100] + "..." else content
  }

  datatype Review = Review(preview: string, scores: Scores, overall: real, issues: seq<Issue>,
                           suggestions: seq<string>, status: Status)

  /** `CriticAgent.run`; `strictness` is `None` when the configuration
      gives none, and then is "balanced". The overall score is the mean of
      the five scores; the suggestions are the fallback alone when none
      applies. */
  function Run(content: string, context: string, strictness: Option<string>): (r: Result<Review>)
    ensures r.Err? <==> content == []
    ensures r.Err? ==> r.kind == "ValueError"
    ensures r.Ok? ==> var level := if strictness.Some? then strictness.value else "balanced";
      r.value.preview == Preview(content) &&
      r.value.scores == Quality(content, level) &&
      r.value.issues == Issues(content, level) &&
      r.value.status == Approval(r.value.scores, r.value.issues, level) &&
      r.value.suggestions == (if Suggestions(r.value.scores, r.value.issues, context) == [] then [Fallback]
                              else SuggestionTexts(Suggestions(r.value.scores, r.value.issues, context)))
    ensures r.Ok? ==> InRange(r.value.scores) && 0.0 <= r.value.overall <= 1.0
    ensures r.Ok? ==> r.value.overall == Sum(r.value.scores) as real / 500.0
    ensures r.Ok? ==> r.value.suggestions != []
    ensures r.Ok? && CountSeverity(r.value.issues, Error) > 0 ==> r.value.status == Rejected
  {
    if content == [] then Err("ValueError", "Content is required for review (provide 'content' in kwargs)")
    else
      var level := if strictness.Some? then strictness.value else "balanced";
      var scores := Quality(content, level);
      var issues := Issues(content, level);
      var chosen := Suggestions(scores, issues, context);
      var texts := if chosen == [] then [Fallback] else SuggestionTexts(chosen);
      Ok(Review(Preview(content), scores, Sum(scores) as real / 500.0, issues, texts,
                Approval(scores, issues, level)))
  }

  /** Unfinished-work markers always get content rejected under strict
      review. */
  lemma StrictMarkersRejected(content: string)
    requires HasMarkers(content)
    ensures Approval(Quality(content, "strict"), Issues(content, "strict"), "strict") == Rejected
  {
    var issues := Issues(content, "strict");
    IssueKindsDetected(content, "strict");
    assert Detected(IncompleteWork, content);
    var i :| i in issues && i.kind == IncompleteWork;
    var j :| 0 <= j < |issues| && issues[j] == i;
    assert i.severity == Error;
    CountSeverityZero(issues, Error);
  }

  /** Content of ordinary length with none of the checked defects has the
      base scores, whose mean is 0.85: approved under balanced and lenient
      review, sent back for revision under strict review. */
  lemma CleanContentStatus(content: string)
    requires 50 <= |content| <= 5000
    requires !HasMarkers(content) && !IsUnclear(content) && !HasBlankRun(content)
    ensures Issues(content, "balanced") == [] && Issues(content, "strict") == []
    ensures Approval(Quality(content, "balanced"), [], "balanced") == Approved
    ensures Approval(Quality(content, "lenient"), [], "lenient") == Approved
    ensures Approval(Quality(content, "strict"), [], "strict") == NeedsRevision
  {
    assert forall k :: !Detected(k, content);
    assert Found(content) == [];
  }
}
