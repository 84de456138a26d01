// The local retrieval index: tokenising, splitting text into paragraphs,
// packing paragraphs into overlapping chunks, numbering the chunks of each
// file, scoring chunks against a query and ranking them.

module Rag {
  import opened Common

  // ---------------------------------------------------------------------
  // Tokens

  /** The character class `[a-zA-Z<Polish letters>0-9_]` of the token
      pattern. */
  predicate IsTokenChar(c: char)
  {
    IsAsciiUpper(c) || IsAsciiLower(c) || IsPolishUpper(c) || IsPolishLower(c) || IsDigit(c) || c == '_'
  }

  /** A token character after lower-casing. */
  predicate IsLowerTokenChar(c: char)
  {
    IsAsciiLower(c) || IsPolishLower(c) || IsDigit(c) || c == '_'
  }

  /** The length of the run of token characters at the start of `s`. */
  function TokenLength(s: string): (n: nat)
    requires s != [] && IsTokenChar(s[0])
    ensures 1 <= n <= |s|
    ensures forall j :: 0 <= j < n ==> IsTokenChar(s[j])
    ensures n < |s| ==> !IsTokenChar(s[n])
    decreases |s|
  {
    if |s| == 1 || !IsTokenChar(s[1]) then 1 else 1 + TokenLength(s[1..])
  }

  /** `_tokenize`: the maximal runs of token characters, lower-cased, left
      to right. */
  function Tokenize(text: string): (r: seq<string>)
    ensures forall k :: 0 <= k < |r| ==> r[k] != [] && forall j :: 0 <= j < |r[k]| ==> IsLowerTokenChar(r[k][j])
    decreases |text|
  {
    if text == [] then []
    else if !IsTokenChar(text[0]) then Tokenize(text[1..])
    else
      var n := TokenLength(text);
      var t := Lower(text[..n]);
      assert forall j :: 0 <= j < |t| ==> IsLowerTokenChar(t[j]) by {
        forall j | 0 <= j < |t| ensures IsLowerTokenChar(t[j]) {
          assert IsTokenChar(text[j]) && t[j] == LowerChar(text[j]);
        }
      }
      [t] + Tokenize(text[n..])
  }

  /** Text yields no token exactly when it holds no token character. */
  lemma {:induction false} TokenizeEmpty(text: string)
    ensures Tokenize(text) == [] <==> forall k :: 0 <= k < |text| ==> !IsTokenChar(text[k])
    decreases |text|
  {
    if text != [] && !IsTokenChar(text[0]) {
      TokenizeEmpty(text[1..]);
      assert forall k :: 1 <= k < |text| ==> text[k] == text[1..][k - 1];
    }
  }

  /** A run of token characters that a non-token character ends is as long
      within a longer text as on its own. */
  lemma TokenLengthAppend(a: string, x: string)
    requires a != [] && IsTokenChar(a[0]) && x != [] && !IsTokenChar(x[0])
    ensures TokenLength(a + x) == TokenLength(a)
  {
    var n1 := TokenLength(a + x);
    var n2 := TokenLength(a);
    assert forall k :: 0 <= k < |a| ==> (a + x)[k] == a[k];
    assert (a + x)[|a|] == x[0];
  }

  /** A non-token character separates the tokens on its two sides:
      `findall` never lets a token run across it. */
  lemma {:induction false} TokenizeSplit(a: string, c: char, b: string)
    requires !IsTokenChar(c)
    ensures Tokenize(a + [c] + b) == Tokenize(a) + Tokenize(b)
    decreases |a|
  {
    var t := a + [c] + b;
    if a == [] {
      assert t == [c] + b;
      assert t[1..] == b;
    } else if !IsTokenChar(a[0]) {
      assert t[1..] == a[1..] + [c] + b;
      TokenizeSplit(a[1..], c, b);
    } else {
      TokenLengthAppend(a, [c] + b);
      assert t == a + ([c] + b);
      var n := TokenLength(a);
      assert t[..n] == a[..n];
      assert t[n..] == a[n..] + [c] + b;
      TokenizeSplit(a[n..], c, b);
    }
  }

  /** A word made only of token characters is one token, lower-cased. */
  lemma TokenizeWord(w: string)
    requires w != [] && forall k :: 0 <= k < |w| ==> IsTokenChar(w[k])
    ensures Tokenize(w) == [Lower(w)]
  {
    assert TokenLength(w) == |w|;
    assert w[..|w|] == w && w[|w|..] == [];
  }

  // ---------------------------------------------------------------------
  // Paragraphs

  /** The end of the whitespace run that starts at `j`. */
  function SpaceRunEnd(s: string, j: nat): (t: nat)
    requires j <= |s|
    ensures j <= t <= |s|
    ensures forall k :: j <= k < t ==> IsSpace(s[k])
    ensures t < |s| ==> !IsSpace(s[t])
    decreases |s| - j
  {
    if j == |s| || !IsSpace(s[j]) then j else SpaceRunEnd(s, j + 1)
  }

  /** No line break in `s[a..b]`. */
  predicate BreakFree(s: string, a: nat, b: nat)
    requires a <= b <= |s|
  {
    forall k :: a <= k < b ==> s[k] != '\n'
  }

  /** Scanning the whitespace run that starts at `j`: the position just
      after its last line break, or 0 when the run has none. */
  function RunBreakEnd(s: string, j: nat): (e: nat)
    requires j <= |s|
    ensures e == 0 || (j < e <= |s| && s[e - 1] == '\n')
    ensures forall k :: j <= k < e ==> IsSpace(s[k])
    ensures e == 0 <==> BreakFree(s, j, SpaceRunEnd(s, j))
    ensures e > 0 ==> e <= SpaceRunEnd(s, j) && BreakFree(s, e, SpaceRunEnd(s, j))
    decreases |s| - j
  {
    if j == |s| || !IsSpace(s[j]) then 0
    else
      var e := RunBreakEnd(s, j + 1);
      assert SpaceRunEnd(s, j) == SpaceRunEnd(s, j + 1);
      if e > 0 then e else if s[j] == '\n' then j + 1 else 0
  }

  /** The greedy `\s*` leaves no line break in the whitespace that follows
      a match. */
  lemma RunBreakEndGreedy(s: string, j: nat)
    requires j <= |s| && RunBreakEnd(s, j) > 0
    ensures RunBreakEnd(s, RunBreakEnd(s, j)) == 0
  {
    var e := RunBreakEnd(s, j);
    SpaceRunEndFrom(s, j, e);
  }

  /** Starting later inside a whitespace run does not move its end. */
  lemma {:induction false} SpaceRunEndFrom(s: string, j: nat, e: nat)
    requires j <= |s| && j <= e <= SpaceRunEnd(s, j)
    ensures SpaceRunEnd(s, e) == SpaceRunEnd(s, j)
    decreases e - j
  {
    if j < e {
      SpaceRunEndFrom(s, j + 1, e);
    }
  }

  /** The pattern `\n\s*\n` matches at `k`. */
  predicate MatchAt(s: string, k: nat)
    requires k < |s|
  {
    s[k] == '\n' && RunBreakEnd(s, k + 1) > 0
  }

  /** The pattern matches nowhere in `[j, i)`. */
  predicate NoMatchBetween(s: string, j: nat, i: nat)
    requires j <= i <= |s|
  {
    forall k :: j <= k < i ==> !MatchAt(s, k)
  }

  /** Where the pattern `\n\s*\n` first matches at or after `j`, or `|s|`.
      The greedy `\s*` takes the whole whitespace run and gives back up to
      its last line break. */
  function NextBlankLine(s: string, j: nat): (i: nat)
    requires j <= |s|
    ensures j <= i <= |s|
    ensures i < |s| ==> s[i] == '\n' && RunBreakEnd(s, i + 1) > 0
    ensures NoMatchBetween(s, j, i)
    decreases |s| - j
  {
    if j == |s| then j
    else if s[j] == '\n' && RunBreakEnd(s, j + 1) > 0 then j
    else NextBlankLine(s, j + 1)
  }

  /** The pieces of `s[j..]` between blank-line separators. */
  function SplitFrom(s: string, j: nat): (r: seq<string>)
    requires j <= |s|
    ensures |r| >= 1
    decreases |s| - j
  {
    var i := NextBlankLine(s, j);
    if i == |s| then [s[j..]]
    else [s[j..i]] + SplitFrom(s, RunBreakEnd(s, i + 1))
  }

  /** The separators `SplitFrom` cuts out: the text each match covers. */
  function Separators(s: string, j: nat): (r: seq<string>)
    requires j <= |s|
    decreases |s| - j
  {
    var i := NextBlankLine(s, j);
    if i == |s| then []
    else [s[i..RunBreakEnd(s, i + 1)]] + Separators(s, RunBreakEnd(s, i + 1))
  }

  /** The pieces with the separators put back between them. */
  function Interleave(pieces: seq<string>, seps: seq<string>): string
    requires |pieces| == |seps| + 1
    decreases |seps|
  {
    if seps == [] then pieces[0] else pieces[0] + seps[0] + Interleave(pieces[1..], seps[1..])
  }

  /** A text the pattern `\n\s*\n` matches as a whole: a line break,
      whitespace, and a line break. */
  predicate IsSeparator(sep: string)
  {
    |sep| >= 2 && sep[0] == '\n' && sep[|sep| - 1] == '\n' && forall k :: 0 <= k < |sep| ==> IsSpace(sep[k])
  }

  /** `re.search(r"\n\s*\n", t)` finds nothing. */
  predicate NoBlankLine(t: string)
  {
    NextBlankLine(t, 0) == |t|
  }

  /** A piece followed by the line break that starts the next separator,
      if there is one. */
  function Extended(pieces: seq<string>, seps: seq<string>, k: nat): string
    requires |pieces| == |seps| + 1 && k < |pieces|
  {
    pieces[k] + (if k < |seps| then "\n" else "")
  }

  /** `pieces` and `seps` split `s` as `re.split(r"\n\s*\n", s)` does:
      put back together they give `s`; every separator is a match; no
      match starts inside a piece, even one that would run on into the
      next separator (leftmost matching); and no piece after a separator
      starts with whitespace holding a line break the separator could have
      taken (the greedy `\s*`), which `greedyFirst` also asks of the first
      piece. */
  predicate SplitOfText(s: string, pieces: seq<string>, seps: seq<string>, greedyFirst: bool)
  {
    |pieces| == |seps| + 1 &&
    Interleave(pieces, seps) == s &&
    (forall k :: 0 <= k < |seps| ==> IsSeparator(seps[k])) &&
    (forall k :: 0 <= k < |pieces| ==> NoBlankLine(Extended(pieces, seps, k))) &&
    (forall k :: 0 <= k < |pieces| && (k > 0 || greedyFirst) ==> RunBreakEnd(Extended(pieces, seps, k), 0) == 0)
  }

  /** A line break run found inside a window of the text is found in the
      text as well: the window's whitespace run is a prefix of the text's. */
  lemma {:induction false} WindowBreak(s: string, a: nat, b: nat, x: nat)
    requires a <= b <= |s| && x <= b - a
    ensures RunBreakEnd(s[a..b], x) > 0 ==> RunBreakEnd(s, a + x) > 0
    decreases b - a - x
  {
    if x < b - a {
      assert s[a..b][x] == s[a + x];
      WindowBreak(s, a, b, x + 1);
    }
  }

  /** The piece `SplitFrom` cuts at `j` holds no match, even with the line
      break that follows it. */
  lemma PieceFree(s: string, j: nat, i: nat, x: nat)
    requires j <= |s| && i == NextBlankLine(s, j) && x == if i < |s| then i + 1 else i
    ensures NoBlankLine(s[j..x])
  {
    var t := s[j..x];
    var m := NextBlankLine(t, 0);
    if m < |t| {
      MatchInWindow(s, j, x, m);
      assert false;
    }
  }

  /** A match inside a window of the text, before its last character, is
      a match in the text. */
  lemma MatchInWindow(s: string, a: nat, b: nat, m: nat)
    requires a <= b <= |s| && m < b - a && MatchAt(s[a..b], m)
    ensures a + m + 1 < b && MatchAt(s, a + m)
  {
    WindowBreak(s, a, b, m + 1);
    SliceAt(s, a, b, m);
  }

  lemma SliceAt(s: string, a: nat, b: nat, m: nat)
    requires a <= b <= |s| && m < b - a
    ensures s[a..b][m] == s[a + m]
  {
  }

  /** A piece starting where no line break run starts begins without one. */
  lemma PieceGreedy(s: string, j: nat, x: nat)
    requires j <= x <= |s| && RunBreakEnd(s, j) == 0
    ensures RunBreakEnd(s[j..x], 0) == 0
  {
    WindowBreak(s, j, x, 0);
  }

  /** One more piece and separator in front of a split. */
  lemma SplitOfTextCons(piece: string, sep: string, t: string, rest: seq<string>, seps: seq<string>, greedyFirst: bool)
    requires SplitOfText(t, rest, seps, true) && IsSeparator(sep)
    requires NoBlankLine(piece + "\n")
    requires greedyFirst ==> RunBreakEnd(piece + "\n", 0) == 0
    ensures SplitOfText(piece + sep + t, [piece] + rest, [sep] + seps, greedyFirst)
  {
    var ps := [piece] + rest;
    var ss := [sep] + seps;
    assert ps[1..] == rest && ss[1..] == seps;
    assert Extended(ps, ss, 0) == piece + "\n";
    forall k | 0 < k < |ps|
      ensures Extended(ps, ss, k) == Extended(rest, seps, k - 1)
    {
    }
    forall k | 0 <= k < |ss|
      ensures IsSeparator(ss[k])
    {
      if k > 0 {
        assert ss[k] == seps[k - 1];
      }
    }
  }

  lemma SplitFromStep(s: string, j: nat, i: nat, e: nat)
    requires j <= |s| && i == NextBlankLine(s, j) && i < |s| && e == RunBreakEnd(s, i + 1)
    ensures SplitFrom(s, j) == [s[j..i]] + SplitFrom(s, e)
    ensures Separators(s, j) == [s[i..e]] + Separators(s, e)
  {
  }

  lemma SplitFromLast(s: string, j: nat)
    requires j <= |s| && NextBlankLine(s, j) == |s|
    ensures SplitFrom(s, j) == [s[j..]] && Separators(s, j) == []
    ensures s[j..NextBlankLine(s, j)] == s[j..]
  {
  }

  /** The text a match covers is a separator. */
  lemma SeparatorAt(s: string, i: nat)
    requires i < |s| && MatchAt(s, i)
    ensures IsSeparator(s[i..RunBreakEnd(s, i + 1)])
  {
    var e := RunBreakEnd(s, i + 1);
    var sep := s[i..e];
    assert sep[0] == s[i] && sep[|sep| - 1] == s[e - 1];
    forall k | 0 <= k < |sep| ensures IsSpace(sep[k]) {
      assert sep[k] == s[i + k];
    }
  }

  lemma SliceJoin(s: string, j: nat, i: nat, e: nat)
    requires j <= i <= e <= |s|
    ensures s[j..i] + s[i..e] + s[e..] == s[j..]
  {
  }

  lemma SliceSnoc(s: string, j: nat, i: nat)
    requires j <= i < |s| && s[i] == '\n'
    ensures s[j..i + 1] == s[j..i] + "\n"
  {
  }

  /** The last piece, when no match is left, splits as `re.split` does. */
  lemma SplitFromOne(s: string, j: nat)
    requires j <= |s| && NextBlankLine(s, j) == |s|
    ensures SplitOfText(s[j..], SplitFrom(s, j), Separators(s, j), RunBreakEnd(s, j) == 0)
  {
    var g := RunBreakEnd(s, j) == 0;
    SplitFromLast(s, j);
    assert NoBlankLine(s[j..]) by {
      PieceFree(s, j, |s|, |s|);
    }
    assert g ==> RunBreakEnd(s[j..], 0) == 0 by {
      if g {
        PieceGreedy(s, j, |s|);
      }
    }
    assert Extended([s[j..]], [], 0) == s[j..];
  }

  /** A piece and the first match after it, in front of the split of the
      rest, split as `re.split` does. */
  lemma SplitFromCons(s: string, j: nat, i: nat, e: nat)
    requires j <= |s| && i == NextBlankLine(s, j) && i < |s| && e == RunBreakEnd(s, i + 1)
    requires SplitOfText(s[e..], SplitFrom(s, e), Separators(s, e), true)
    ensures SplitOfText(s[j..], SplitFrom(s, j), Separators(s, j), RunBreakEnd(s, j) == 0)
  {
    var g := RunBreakEnd(s, j) == 0;
    var piece := s[j..i];
    var sep := s[i..e];
    assert piece + sep + s[e..] == s[j..] by {
      SliceJoin(s, j, i, e);
    }
    assert NoBlankLine(piece + "\n") by {
      SliceSnoc(s, j, i);
      PieceFree(s, j, i, i + 1);
    }
    assert g ==> RunBreakEnd(piece + "\n", 0) == 0 by {
      if g {
        SliceSnoc(s, j, i);
        PieceGreedy(s, j, i + 1);
      }
    }
    assert IsSeparator(sep) by {
      SeparatorAt(s, i);
    }
    SplitOfTextCons(piece, sep, s[e..], SplitFrom(s, e), Separators(s, e), g);
    SplitFromStep(s, j, i, e);
  }

  /** The pieces and separators of `s[j..]` split it as `re.split` does. */
  lemma {:induction false} SplitFromPieces(s: string, j: nat)
    requires j <= |s|
    ensures SplitOfText(s[j..], SplitFrom(s, j), Separators(s, j), RunBreakEnd(s, j) == 0)
    decreases |s| - j
  {
    var i := NextBlankLine(s, j);
    if i == |s| {
      SplitFromOne(s, j);
    } else {
      var e := RunBreakEnd(s, i + 1);
      RunBreakEndGreedy(s, i + 1);
      SplitFromPieces(s, e);
      SplitFromCons(s, j, i, e);
    }
  }

  /** `re.split(r"\n\s*\n", s)`: the pieces between blank-line separators,
      empty pieces included. */
  function BlankLineSplit(s: string): (r: seq<string>)
    ensures |r| >= 1
    ensures SplitOfText(s, r, Separators(s, 0), false)
  {
    SplitFromPieces(s, 0);
    assert s[0..] == s;
    SplitFrom(s, 0)
  }

  /** Every piece stripped. */
  function StripAll(pieces: seq<string>): (r: seq<string>)
    ensures |r| == |pieces| && forall k :: 0 <= k < |r| ==> r[k] == Strip(pieces[k])
  {
    seq(|pieces|, k requires 0 <= k < |pieces| => Strip(pieces[k]))
  }

  predicate NonEmpty(p: string)
  {
    p != []
  }

  /** `[p.strip() for p in pieces if p.strip()]`: the stripped pieces that
      are not empty, in order. */
  function NonBlankStripped(pieces: seq<string>): (r: seq<string>)
    ensures forall k :: 0 <= k < |r| ==> r[k] != []
    ensures r == Filter(StripAll(pieces), NonEmpty)
    decreases |pieces|
  {
    if pieces == [] then []
    else
      var p := Strip(pieces[0]);
      assert StripAll(pieces)[1..] == StripAll(pieces[1..]);
      (if p != [] then [p] else []) + NonBlankStripped(pieces[1..])
  }

  /** Every kept piece is stripped: it neither starts nor ends with
      whitespace; and the kept pieces keep the order of the pieces. */
  lemma NonBlankStrippedEnds(pieces: seq<string>)
    ensures forall k :: 0 <= k < |NonBlankStripped(pieces)| ==>
      !IsSpace(NonBlankStripped(pieces)[k][0]) && !IsSpace(NonBlankStripped(pieces)[k][|NonBlankStripped(pieces)[k]| - 1])
    ensures IsSubsequence(NonBlankStripped(pieces), StripAll(pieces))
  {
    var r := NonBlankStripped(pieces);
    var all := StripAll(pieces);
    FilterSubsequence(all, NonEmpty);
    forall k | 0 <= k < |r|
      ensures !IsSpace(r[k][0]) && !IsSpace(r[k][|r[k]| - 1])
    {
      assert r[k] in Filter(all, NonEmpty);
      var j :| 0 <= j < |all| && all[j] == r[k];
      assert r[k] == Strip(pieces[j]);
    }
  }

  /** The paragraphs `_chunk_paragraphs` packs. */
  function Paragraphs(text: string): (r: seq<string>)
    ensures forall k :: 0 <= k < |r| ==> r[k] != []
  {
    NonBlankStripped(BlankLineSplit(text))
  }

  ghost predicate AllSpace(s: string)
  {
    forall k :: 0 <= k < |s| ==> IsSpace(s[k])
  }

  lemma {:induction false} TrimLeftEmpty(s: string)
    ensures TrimLeft(s) == [] <==> AllSpace(s)
    decreases |s|
  {
    if s != [] && IsSpace(s[0]) {
      TrimLeftEmpty(s[1..]);
      assert forall k :: 1 <= k < |s| ==> s[k] == s[1..][k - 1];
    }
  }

  lemma {:induction false} TrimRightEmpty(s: string)
    ensures TrimRight(s) == [] <==> AllSpace(s)
    decreases |s|
  {
    if s != [] && IsSpace(s[|s| - 1]) {
      TrimRightEmpty(s[..|s| - 1]);
      assert forall k :: 0 <= k < |s| - 1 ==> s[k] == s[..|s| - 1][k];
    }
  }

  /** A piece strips to nothing exactly when it is all whitespace. */
  lemma StripEmpty(s: string)
    ensures Strip(s) == [] <==> AllSpace(s)
  {
    TrimLeftEmpty(s);
    TrimRightEmpty(TrimLeft(s));
  }

  /** Every piece is blank. */
  ghost predicate AllBlank(pieces: seq<string>)
  {
    forall k :: 0 <= k < |pieces| ==> AllSpace(pieces[k])
  }

  lemma AllBlankCons(p: string, rest: seq<string>)
    ensures AllBlank([p] + rest) <==> AllSpace(p) && AllBlank(rest)
  {
    var ps := [p] + rest;
    if AllSpace(p) && AllBlank(rest) {
      forall k | 0 <= k < |ps| ensures AllSpace(ps[k]) {
        if k > 0 {
          assert ps[k] == rest[k - 1];
        }
      }
    }
    if AllBlank(ps) {
      assert AllSpace(ps[0]);
      forall k | 0 <= k < |rest| ensures AllSpace(rest[k]) {
        assert ps[k + 1] == rest[k];
      }
    }
  }

  /** The separators are whitespace, so the text from `j` on is blank
      exactly when every piece is. */
  lemma {:induction false} SplitFromSpace(s: string, j: nat)
    requires j <= |s|
    ensures AllSpace(s[j..]) <==> AllBlank(SplitFrom(s, j))
    decreases |s| - j
  {
    var i := NextBlankLine(s, j);
    if i == |s| {
      assert AllBlank([s[j..]]) <==> AllSpace([s[j..]][0]);
    } else {
      var e := RunBreakEnd(s, i + 1);
      SplitFromStep(s, j, i, e);
      SplitFromSpace(s, e);
      AllBlankCons(s[j..i], SplitFrom(s, e));
      SpaceAround(s, j, i, e);
    }
  }

  /** Removing the whitespace stretch `s[i..e]` does not change whether
      `s[j..]` is blank. */
  lemma SpaceAround(s: string, j: nat, i: nat, e: nat)
    requires j <= i < e <= |s|
    requires s[i] == '\n' && forall k :: i + 1 <= k < e ==> IsSpace(s[k])
    ensures AllSpace(s[j..]) <==> AllSpace(s[j..i]) && AllSpace(s[e..])
  {
    if AllSpace(s[j..i]) && AllSpace(s[e..]) {
      forall k | 0 <= k < |s| - j ensures IsSpace(s[j..][k]) {
        if j + k < i {
          assert s[j..][k] == s[j..i][k];
        } else if j + k >= e {
          assert s[j..][k] == s[e..][j + k - e];
        }
      }
    }
    if AllSpace(s[j..]) {
      assert forall k :: 0 <= k < i - j ==> s[j..i][k] == s[j..][k];
      assert forall k :: 0 <= k < |s| - e ==> s[e..][k] == s[j..][e - j + k];
    }
  }

  lemma BlankLineSplitSpace(s: string)
    ensures AllSpace(s) <==> AllBlank(BlankLineSplit(s))
  {
    SplitFromSpace(s, 0);
    assert s[0..] == s;
  }

  lemma {:induction false} NonBlankStrippedEmpty(pieces: seq<string>)
    ensures NonBlankStripped(pieces) == [] <==> AllBlank(pieces)
    decreases |pieces|
  {
    if pieces != [] {
      StripEmpty(pieces[0]);
      NonBlankStrippedEmpty(pieces[1..]);
      AllBlankCons(pieces[0], pieces[1..]);
      assert pieces == [pieces[0]] + pieces[1..];
    }
  }

  /** A text has no paragraph exactly when it is all whitespace. */
  lemma ParagraphsEmpty(text: string)
    ensures Paragraphs(text) == [] <==> AllSpace(text)
  {
    BlankLineSplitSpace(text);
    NonBlankStrippedEmpty(BlankLineSplit(text));
  }

  // ---------------------------------------------------------------------
  // Packing paragraphs into chunks

  const Sep := "\n\n"

  /** The state of the packing loop after some paragraphs: the chunks
      flushed so far, the buffer and its running size `cur`, as the source
      keeps them; and, for reasoning about them, the paragraphs each chunk
      took (`groups`) and the overlap tail each began with (`leads`), and
      the same two for the buffer (`taken`, `lead`). */
  datatype Packing = Packing(chunks: seq<string>, buf: seq<string>, cur: int,
                             leads: seq<seq<string>>, groups: seq<seq<string>>,
                             lead: seq<string>, taken: seq<string>)

  /** The buffer a flushed chunk passes on: its last `overlap` characters
      when it is longer than `overlap`, nothing otherwise. */
  function Overlap(chunk: string, overlap: int): (r: seq<string>)
    ensures |r| <= 1
  {
    if |chunk| > overlap then [PyFrom(chunk, -overlap)] else []
  }

  /** One iteration of the packing loop. */
  function PackStep(st: Packing, p: string, targetSize: int, overlap: int): Packing
  {
    if st.cur + |p| + 1 <= targetSize || st.buf == [] then
      st.(buf := st.buf + [p], cur := st.cur + |p| + 1, taken := st.taken + [p])
    else
      var joined := Join(st.buf, Sep);
      var lead := Overlap(joined, overlap);
      var cur := if |joined| > overlap then |PyFrom(joined, -overlap)| + |p| + 1 else |p| + 1;
      Packing(st.chunks + [joined], lead + [p], cur,
              st.leads + [st.lead], st.groups + [st.taken], lead, [p])
  }

  /** The loop state after the given paragraphs. */
  function PackAll(paras: seq<string>, targetSize: int, overlap: int): Packing
    decreases |paras|
  {
    if paras == [] then Packing([], [], 0, [], [], [], [])
    else PackStep(PackAll(paras[..|paras| - 1], targetSize, overlap), paras[|paras| - 1], targetSize, overlap)
  }

  lemma PackAllStep(paras: seq<string>, i: nat, targetSize: int, overlap: int)
    requires i < |paras|
    ensures PackAll(paras[..i + 1], targetSize, overlap) == PackStep(PackAll(paras[..i], targetSize, overlap), paras[i], targetSize, overlap)
  {
    assert paras[..i + 1][..i] == paras[..i];
  }

  /** The chunks of a finished loop: the flushed ones and the final
      buffer. */
  function ChunksOf(st: Packing): seq<string>
  {
    if st.buf != [] then st.chunks + [Join(st.buf, Sep)] else st.chunks
  }

  /** The paragraphs each chunk of a finished loop took. */
  function GroupsOf(st: Packing): seq<seq<string>>
  {
    if st.buf != [] then st.groups + [st.taken] else st.groups
  }

  /** The overlap tail each chunk of a finished loop began with. */
  function LeadsOf(st: Packing): seq<seq<string>>
  {
    if st.buf != [] then st.leads + [st.lead] else st.leads
  }

  /** The chunks `_chunk_paragraphs` returns for the paragraphs. */
  function Chunks(paras: seq<string>, targetSize: int, overlap: int): seq<string>
  {
    ChunksOf(PackAll(paras, targetSize, overlap))
  }

  function Groups(paras: seq<string>, targetSize: int, overlap: int): seq<seq<string>>
  {
    GroupsOf(PackAll(paras, targetSize, overlap))
  }

  function Leads(paras: seq<string>, targetSize: int, overlap: int): seq<seq<string>>
  {
    LeadsOf(PackAll(paras, targetSize, overlap))
  }

  /** The running size the source keeps for a buffer: the overlap tail
      counts its length, each paragraph its length plus one. */
  function Budget(lead: seq<string>, group: seq<string>): int
  {
    (if lead == [] then 0 else |lead[0]|) + Size(group)
  }

  function Size(group: seq<string>): int
    decreases |group|
  {
    if group == [] then 0 else Size(group[..|group| - 1]) + |group[|group| - 1]| + 1
  }

  function Flatten(groups: seq<seq<string>>): seq<string>
    decreases |groups|
  {
    if groups == [] then [] else Flatten(groups[..|groups| - 1]) + groups[|groups| - 1]
  }

  // The invariant of the packing loop, in four parts.

  /** Every paragraph read so far sits in exactly one group, in order, and
      the buffer is the overlap tail followed by the taken paragraphs. */
  ghost predicate Partitioned(st: Packing, done: seq<string>)
  {
    Flatten(st.groups) + st.taken == done &&
    |st.groups| == |st.chunks| && |st.leads| == |st.chunks| &&
    st.buf == st.lead + st.taken && |st.lead| <= 1 &&
    (done == [] <==> st.buf == []) && (done != [] ==> st.taken != [])
  }

  /** Each flushed chunk is its overlap tail and its paragraphs joined. */
  ghost predicate Assembled(st: Packing)
    requires |st.groups| == |st.chunks| && |st.leads| == |st.chunks|
  {
    forall k :: 0 <= k < |st.chunks| ==>
      st.groups[k] != [] && |st.leads[k]| <= 1 && st.chunks[k] == Join(st.leads[k] + st.groups[k], Sep)
  }

  /** Each chunk after the first begins with the tail of the one before. */
  ghost predicate Overlapping(st: Packing, overlap: int)
    requires |st.leads| == |st.chunks|
  {
    (forall k :: 0 <= k < |st.chunks| ==> st.leads[k] == if k == 0 then [] else Overlap(st.chunks[k - 1], overlap)) &&
    st.lead == if st.chunks == [] then [] else Overlap(st.chunks[|st.chunks| - 1], overlap)
  }

  /** `cur` is the buffer's budget, which stays within the target once
      the buffer holds two or more paragraphs. */
  ghost predicate CurIsBudget(st: Packing, targetSize: int)
  {
    st.cur == Budget(st.lead, st.taken) && (|st.taken| >= 2 ==> st.cur <= targetSize)
  }

  /** A flushed group of two or more paragraphs stayed within the target. */
  ghost predicate WithinTarget(st: Packing, targetSize: int)
    requires |st.leads| == |st.groups|
  {
    forall k :: 0 <= k < |st.groups| && |st.groups[k]| >= 2 ==> Budget(st.leads[k], st.groups[k]) <= targetSize
  }

  /** The groups of a state are non-empty, and so is the buffer's once a
      chunk has been flushed. */
  ghost predicate GroupsNonEmpty(st: Packing)
  {
    (|st.groups| > 0 ==> st.taken != []) && forall k :: 0 <= k < |st.groups| ==> st.groups[k] != []
  }

  /** The paragraph read right after group `k` was packed. */
  function After(st: Packing, k: nat): string
    requires GroupsNonEmpty(st) && k < |st.groups|
  {
    if k + 1 < |st.groups| then st.groups[k + 1][0] else st.taken[0]
  }

  /** A chunk was flushed only because the paragraph after it did not
      fit. */
  ghost predicate FlushedOnOverflow(st: Packing, targetSize: int)
    requires |st.leads| == |st.groups| && GroupsNonEmpty(st)
  {
    forall k :: 0 <= k < |st.groups| ==> Budget(st.leads[k], st.groups[k]) + |After(st, k)| + 1 > targetSize
  }

  /** The whole invariant of the packing loop after reading `done`. */
  ghost predicate PackInvariant(st: Packing, done: seq<string>, targetSize: int, overlap: int)
  {
    Partitioned(st, done) && Assembled(st) && Overlapping(st, overlap) && GroupsNonEmpty(st) &&
    CurIsBudget(st, targetSize) && WithinTarget(st, targetSize) && FlushedOnOverflow(st, targetSize)
  }

  lemma FlattenSnoc(groups: seq<seq<string>>, g: seq<string>)
    ensures Flatten(groups + [g]) == Flatten(groups) + g
  {
    assert (groups + [g])[..|groups|] == groups;
  }

  lemma SizeSnoc(group: seq<string>, p: string)
    ensures Size(group + [p]) == Size(group) + |p| + 1
  {
    assert (group + [p])[..|group|] == group;
  }

  /** What one iteration does when the paragraph joins the buffer. */
  ghost predicate Appended(st: Packing, st': Packing, p: string)
  {
    st'.chunks == st.chunks && st'.leads == st.leads && st'.groups == st.groups && st'.lead == st.lead &&
    st'.buf == st.buf + [p] && st'.taken == st.taken + [p] && st'.cur == st.cur + |p| + 1
  }

  /** What one iteration does when the buffer is flushed first. */
  ghost predicate Flushed(st: Packing, st': Packing, p: string, overlap: int)
  {
    st'.chunks == st.chunks + [Join(st.buf, Sep)] && st'.leads == st.leads + [st.lead] &&
    st'.groups == st.groups + [st.taken] && st'.lead == Overlap(Join(st.buf, Sep), overlap) &&
    st'.buf == st'.lead + [p] && st'.taken == [p] && st'.cur == Budget(st'.lead, [p])
  }

  lemma PackStepCases(st: Packing, p: string, targetSize: int, overlap: int)
    ensures st.cur + |p| + 1 <= targetSize || st.buf == [] ==> Appended(st, PackStep(st, p, targetSize, overlap), p)
    ensures !(st.cur + |p| + 1 <= targetSize || st.buf == []) ==> Flushed(st, PackStep(st, p, targetSize, overlap), p, overlap)
  {
    assert Size([p]) == Size([]) + |p| + 1;
  }

  lemma AppendPartitioned(st: Packing, st': Packing, done: seq<string>, p: string)
    requires Partitioned(st, done) && Appended(st, st', p)
    ensures Partitioned(st', done + [p])
  {
    assert Flatten(st.groups) + (st.taken + [p]) == done + [p];
    assert st.buf + [p] == st.lead + (st.taken + [p]);
  }

  lemma FlushPartitioned(st: Packing, st': Packing, done: seq<string>, p: string, overlap: int)
    requires Partitioned(st, done) && Flushed(st, st', p, overlap)
    ensures Partitioned(st', done + [p])
  {
    FlattenSnoc(st.groups, st.taken);
  }

  lemma FlushAssembled(st: Packing, st': Packing, done: seq<string>, p: string, overlap: int)
    requires Partitioned(st, done) && Assembled(st) && st.buf != []
    requires Flushed(st, st', p, overlap) && Partitioned(st', done + [p])
    ensures Assembled(st')
  {
    var n := |st.chunks|;
    forall k | 0 <= k < n + 1
      ensures st'.groups[k] != [] && |st'.leads[k]| <= 1 && st'.chunks[k] == Join(st'.leads[k] + st'.groups[k], Sep)
    {
      if k < n {
        assert st'.chunks[k] == st.chunks[k] && st'.groups[k] == st.groups[k] && st'.leads[k] == st.leads[k];
      } else {
        assert st'.chunks[k] == Join(st.buf, Sep) && st'.groups[k] == st.taken && st'.leads[k] == st.lead;
      }
    }
  }

  lemma FlushOverlapping(st: Packing, st': Packing, done: seq<string>, p: string, overlap: int)
    requires Partitioned(st, done) && Overlapping(st, overlap)
    requires Flushed(st, st', p, overlap) && Partitioned(st', done + [p])
    ensures Overlapping(st', overlap)
  {
    var n := |st.chunks|;
    forall k | 0 <= k < n + 1
      ensures st'.leads[k] == if k == 0 then [] else Overlap(st'.chunks[k - 1], overlap)
    {
      if k < n {
        assert st'.leads[k] == st.leads[k];
      } else {
        assert st'.leads[k] == st.lead;
      }
      if 0 < k {
        assert st'.chunks[k - 1] == st.chunks[k - 1];
      }
    }
    assert st'.chunks[n] == Join(st.buf, Sep);
  }

  lemma AppendBudgeted(st: Packing, st': Packing, done: seq<string>, p: string, targetSize: int)
    requires Partitioned(st, done) && GroupsNonEmpty(st) && CurIsBudget(st, targetSize)
    requires WithinTarget(st, targetSize) && FlushedOnOverflow(st, targetSize)
    requires st.cur + |p| + 1 <= targetSize || st.buf == []
    requires Appended(st, st', p) && Partitioned(st', done + [p])
    ensures GroupsNonEmpty(st') && CurIsBudget(st', targetSize)
    ensures WithinTarget(st', targetSize) && FlushedOnOverflow(st', targetSize)
  {
    SizeSnoc(st.taken, p);
    if st.buf == [] {
      assert st.taken == [] && st.groups == [];
    }
    forall k | 0 <= k < |st'.groups| ensures After(st', k) == After(st, k) {
      assert st'.taken[0] == st.taken[0];
    }
  }

  lemma FlushBudgeted(st: Packing, st': Packing, done: seq<string>, p: string, targetSize: int, overlap: int)
    requires Partitioned(st, done) && GroupsNonEmpty(st) && CurIsBudget(st, targetSize)
    requires WithinTarget(st, targetSize) && FlushedOnOverflow(st, targetSize)
    requires st.cur + |p| + 1 > targetSize && st.buf != []
    requires Flushed(st, st', p, overlap) && Partitioned(st', done + [p])
    ensures GroupsNonEmpty(st') && CurIsBudget(st', targetSize)
    ensures WithinTarget(st', targetSize) && FlushedOnOverflow(st', targetSize)
  {
    var n := |st.groups|;
    assert GroupsNonEmpty(st') by {
      assert forall k :: 0 <= k < n ==> st'.groups[k] == st.groups[k];
      assert st'.groups[n] == st.taken;
    }
    assert Size([p]) == Size([]) + |p| + 1;
    forall k | 0 <= k < n + 1 && |st'.groups[k]| >= 2
      ensures Budget(st'.leads[k], st'.groups[k]) <= targetSize
    {
      if k < n {
        assert st'.groups[k] == st.groups[k] && st'.leads[k] == st.leads[k];
      } else {
        assert st'.groups[k] == st.taken && st'.leads[k] == st.lead;
      }
    }
    forall k | 0 <= k < n + 1
      ensures Budget(st'.leads[k], st'.groups[k]) + |After(st', k)| + 1 > targetSize
    {
      if k < n {
        assert st'.groups[k] == st.groups[k] && st'.leads[k] == st.leads[k];
        assert After(st', k) == After(st, k) by {
          if k + 1 < n {
            assert st'.groups[k + 1] == st.groups[k + 1];
          } else {
            assert st'.groups[k + 1] == st.taken;
          }
        }
      } else {
        assert st'.groups[k] == st.taken && st'.leads[k] == st.lead && After(st', k) == p;
      }
    }
  }

  /** One iteration keeps the whole invariant. */
  lemma StepInvariant(st: Packing, done: seq<string>, p: string, targetSize: int, overlap: int)
    requires PackInvariant(st, done, targetSize, overlap)
    ensures PackInvariant(PackStep(st, p, targetSize, overlap), done + [p], targetSize, overlap)
  {
    var st' := PackStep(st, p, targetSize, overlap);
    PackStepCases(st, p, targetSize, overlap);
    if st.cur + |p| + 1 <= targetSize || st.buf == [] {
      AppendPartitioned(st, st', done, p);
      AppendBudgeted(st, st', done, p, targetSize);
    } else {
      FlushPartitioned(st, st', done, p, overlap);
      FlushAssembled(st, st', done, p, overlap);
      FlushOverlapping(st, st', done, p, overlap);
      FlushBudgeted(st, st', done, p, targetSize, overlap);
    }
  }

  /** The loop invariant holds after every prefix of the paragraphs. */
  lemma {:induction false} PackAllInvariant(paras: seq<string>, targetSize: int, overlap: int)
    ensures PackInvariant(PackAll(paras, targetSize, overlap), paras, targetSize, overlap)
    decreases |paras|
  {
    if paras != [] {
      var n := |paras| - 1;
      SnocLast(paras);
      var before := PackAll(paras[..n], targetSize, overlap);
      PackAllInvariant(paras[..n], targetSize, overlap);
      StepInvariant(before, paras[..n], paras[n], targetSize, overlap);
      PackInvariantSame(PackStep(before, paras[n], targetSize, overlap), PackAll(paras, targetSize, overlap),
                        paras[..n] + [paras[n]], paras, targetSize, overlap);
    }
  }

  lemma SnocLast<T>(xs: seq<T>)
    requires xs != []
    ensures xs[..|xs| - 1] + [xs[|xs| - 1]] == xs
  {
  }

  lemma PackInvariantSame(a: Packing, b: Packing, da: seq<string>, db: seq<string>, targetSize: int, overlap: int)
    requires a == b && da == db && PackInvariant(a, da, targetSize, overlap)
    ensures PackInvariant(b, db, targetSize, overlap)
  {
  }

  /** Group `k` was closed because the paragraph after it would not fit. */
  ghost predicate ClosedOnOverflow(leads: seq<seq<string>>, groups: seq<seq<string>>, k: nat, targetSize: int)
  {
    k < |leads| && k + 1 < |groups| && groups[k + 1] != [] &&
    Budget(leads[k], groups[k]) + |groups[k + 1][0]| + 1 > targetSize
  }

  lemma FinishedPartition(st: Packing, paras: seq<string>)
    requires Partitioned(st, paras) && Assembled(st)
    ensures |GroupsOf(st)| == |ChunksOf(st)| && |LeadsOf(st)| == |ChunksOf(st)|
    ensures Flatten(GroupsOf(st)) == paras
    ensures forall k :: 0 <= k < |ChunksOf(st)| ==>
      GroupsOf(st)[k] != [] && |LeadsOf(st)[k]| <= 1 && ChunksOf(st)[k] == Join(LeadsOf(st)[k] + GroupsOf(st)[k], Sep)
  {
    if st.buf != [] {
      FlattenSnoc(st.groups, st.taken);
      FinishedAssembled(st, ChunksOf(st), GroupsOf(st), LeadsOf(st));
    }
  }

  lemma FinishedAssembled(st: Packing, cs: seq<string>, gs: seq<seq<string>>, ls: seq<seq<string>>)
    requires |st.groups| == |st.chunks| && |st.leads| == |st.chunks| && Assembled(st)
    requires st.taken != [] && |st.lead| <= 1
    requires cs == st.chunks + [Join(st.buf, Sep)] && gs == st.groups + [st.taken] && ls == st.leads + [st.lead]
    requires st.buf == st.lead + st.taken
    ensures forall k :: 0 <= k < |cs| ==> gs[k] != [] && |ls[k]| <= 1 && cs[k] == Join(ls[k] + gs[k], Sep)
  {
    forall k | 0 <= k < |cs| ensures gs[k] != [] && |ls[k]| <= 1 && cs[k] == Join(ls[k] + gs[k], Sep) {
      if k < |st.chunks| {
        assert cs[k] == st.chunks[k] && gs[k] == st.groups[k] && ls[k] == st.leads[k];
      }
    }
  }

  lemma FinishedOverlap(st: Packing, overlap: int)
    requires |st.leads| == |st.chunks| && Overlapping(st, overlap)
    ensures |LeadsOf(st)| == |ChunksOf(st)|
    ensures forall k :: 0 <= k < |ChunksOf(st)| ==>
      LeadsOf(st)[k] == if k == 0 then [] else Overlap(ChunksOf(st)[k - 1], overlap)
  {
    if st.buf != [] {
      FinishedOverlapping(st, ChunksOf(st), LeadsOf(st), overlap);
    }
  }

  lemma FinishedOverlapping(st: Packing, cs: seq<string>, ls: seq<seq<string>>, overlap: int)
    requires |st.leads| == |st.chunks| && Overlapping(st, overlap)
    requires cs == st.chunks + [Join(st.buf, Sep)] && ls == st.leads + [st.lead]
    ensures forall k :: 0 <= k < |cs| ==> ls[k] == if k == 0 then [] else Overlap(cs[k - 1], overlap)
  {
    forall k | 0 <= k < |cs| ensures ls[k] == if k == 0 then [] else Overlap(cs[k - 1], overlap) {
      if k < |st.chunks| {
        assert ls[k] == st.leads[k];
      }
      if 0 < k {
        assert cs[k - 1] == st.chunks[k - 1];
      }
    }
  }

  lemma FinishedBudget(st: Packing, paras: seq<string>, targetSize: int, overlap: int)
    requires PackInvariant(st, paras, targetSize, overlap)
    ensures |GroupsOf(st)| == |LeadsOf(st)|
    ensures forall k :: 0 <= k < |GroupsOf(st)| && |GroupsOf(st)[k]| >= 2 ==> Budget(LeadsOf(st)[k], GroupsOf(st)[k]) <= targetSize
    ensures forall k: nat :: k < |GroupsOf(st)| - 1 ==> ClosedOnOverflow(LeadsOf(st), GroupsOf(st), k, targetSize)
  {
    if st.buf != [] {
      var gs, ls := GroupsOf(st), LeadsOf(st);
      forall k | 0 <= k < |gs| && |gs[k]| >= 2 ensures Budget(ls[k], gs[k]) <= targetSize {
        if k < |st.groups| {
          assert gs[k] == st.groups[k] && ls[k] == st.leads[k];
        }
      }
      forall k: nat | k < |gs| - 1 ensures ClosedOnOverflow(ls, gs, k, targetSize) {
        assert gs[k] == st.groups[k] && ls[k] == st.leads[k];
        assert After(st, k) == gs[k + 1][0];
      }
    }
  }

  /** Every paragraph enters exactly one chunk, whole and in order: the
      chunks' own paragraphs, read in turn, are the paragraphs; and each
      chunk is its overlap tail (if any) and its own paragraphs joined by
      blank lines. */
  lemma ChunksPartition(paras: seq<string>, targetSize: int, overlap: int)
    ensures |Groups(paras, targetSize, overlap)| == |Chunks(paras, targetSize, overlap)|
    ensures |Leads(paras, targetSize, overlap)| == |Chunks(paras, targetSize, overlap)|
    ensures Flatten(Groups(paras, targetSize, overlap)) == paras
    ensures forall k :: 0 <= k < |Chunks(paras, targetSize, overlap)| ==>
      Groups(paras, targetSize, overlap)[k] != [] && |Leads(paras, targetSize, overlap)[k]| <= 1 &&
      Chunks(paras, targetSize, overlap)[k] == Join(Leads(paras, targetSize, overlap)[k] + Groups(paras, targetSize, overlap)[k], Sep)
  {
    PackAllInvariant(paras, targetSize, overlap);
    FinishedPartition(PackAll(paras, targetSize, overlap), paras);
  }

  /** Each chunk after the first starts with the overlap tail of the chunk
      before it: its last `overlap` characters when it is longer than
      `overlap` (the whole chunk when `overlap` is 0), nothing otherwise. */
  lemma ChunksOverlap(paras: seq<string>, targetSize: int, overlap: int)
    ensures |Leads(paras, targetSize, overlap)| == |Chunks(paras, targetSize, overlap)|
    ensures forall k :: 0 <= k < |Chunks(paras, targetSize, overlap)| ==>
      Leads(paras, targetSize, overlap)[k] == if k == 0 then [] else Overlap(Chunks(paras, targetSize, overlap)[k - 1], overlap)
  {
    PackAllInvariant(paras, targetSize, overlap);
    FinishedOverlap(PackAll(paras, targetSize, overlap), overlap);
  }

  /** A paragraph joins a non-empty buffer only when it fits: a chunk with
      two or more paragraphs of its own stays within the target; and a
      chunk is closed only when the next paragraph would not fit. */
  lemma ChunksBudget(paras: seq<string>, targetSize: int, overlap: int)
    ensures |Groups(paras, targetSize, overlap)| == |Leads(paras, targetSize, overlap)|
    ensures forall k :: 0 <= k < |Groups(paras, targetSize, overlap)| && |Groups(paras, targetSize, overlap)[k]| >= 2 ==>
      Budget(Leads(paras, targetSize, overlap)[k], Groups(paras, targetSize, overlap)[k]) <= targetSize
    ensures forall k: nat :: k < |Groups(paras, targetSize, overlap)| - 1 ==>
      ClosedOnOverflow(Leads(paras, targetSize, overlap), Groups(paras, targetSize, overlap), k, targetSize)
  {
    PackAllInvariant(paras, targetSize, overlap);
    FinishedBudget(PackAll(paras, targetSize, overlap), paras, targetSize, overlap);
  }

  /** There are chunks exactly when there are paragraphs, and the first
      chunk begins with the first paragraph. */
  lemma ChunksFirst(paras: seq<string>, targetSize: int, overlap: int)
    ensures Chunks(paras, targetSize, overlap) == [] <==> paras == []
    ensures paras != [] ==> paras[0] <= Chunks(paras, targetSize, overlap)[0]
  {
    var st := PackAll(paras, targetSize, overlap);
    PackAllInvariant(paras, targetSize, overlap);
    FinishedPartition(st, paras);
    FinishedOverlap(st, overlap);
    var cs, gs, ls := ChunksOf(st), GroupsOf(st), LeadsOf(st);
    if paras != [] {
      assert cs != [];
      FlattenFirst(gs);
      JoinFirst(gs[0]);
      assert ls[0] + gs[0] == gs[0];
    }
  }

  lemma {:induction false} FlattenFirst(groups: seq<seq<string>>)
    requires groups != [] && groups[0] != []
    ensures Flatten(groups) != [] && Flatten(groups)[0] == groups[0][0]
    decreases |groups|
  {
    if |groups| > 1 {
      var n := |groups| - 1;
      FlattenFirst(groups[..n]);
    }
  }

  lemma JoinFirst(parts: seq<string>)
    requires parts != []
    ensures parts[0] <= Join(parts, Sep)
  {
  }

  /** `_chunk_paragraphs`: pack the paragraphs of `text` into chunks of
      about `targetSize` characters, each starting with the tail of the one
      before. */
  method ChunkParagraphs(text: string, targetSize: int, overlap: int) returns (chunks: seq<string>)
    ensures chunks == Chunks(Paragraphs(text), targetSize, overlap)
    ensures chunks == [] <==> AllSpace(text)
  {
    var paras := Paragraphs(text);
    ParagraphsEmpty(text);
    ChunksFirst(paras, targetSize, overlap);
    if paras == [] {
      return [];
    }
    chunks := PackParagraphs(paras, targetSize, overlap);
  }

  /** The packing loop of `_chunk_paragraphs`, over the paragraphs. */
  method PackParagraphs(paras: seq<string>, targetSize: int, overlap: int) returns (chunks: seq<string>)
    ensures chunks == Chunks(paras, targetSize, overlap)
  {
    chunks := [];
    var buf: seq<string> := [];
    var cur := 0;
    ghost var st := PackAll([], targetSize, overlap);
    for i := 0 to |paras|
      invariant st == PackAll(paras[..i], targetSize, overlap)
      invariant chunks == st.chunks && buf == st.buf && cur == st.cur
    {
      var p := paras[i];
      if cur + |p| + 1 <= targetSize || buf == [] {
        buf := buf + [p];
        cur := cur + |p| + 1;
      } else {
        chunks := chunks + [Join(buf, Sep)];
        var joined := Join(buf, Sep);
        if |joined| > overlap {
          var tail := PyFrom(joined, -overlap);
          buf := [tail, p];
          cur := |tail| + |p| + 1;
        } else {
          buf := [p];
          cur := |p| + 1;
        }
      }
      PackAllStep(paras, i, targetSize, overlap);
      st := PackStep(st, p, targetSize, overlap);
    }
    assert paras[..|paras|] == paras;
    if buf != [] {
      chunks := chunks + [Join(buf, Sep)];
    }
  }

  // Scoring and ranking.

  function Distinct(tokens: seq<string>): set<string>
  {
    set t | t in tokens
  }

  /** The number of distinct tokens the query and the document share. */
  function Shared(q: seq<string>, d: seq<string>): nat
  {
    |Distinct(q) * Distinct(d)|
  }

  /** `_score`: nothing for an empty query or document; otherwise the shared
      distinct tokens plus a length hint of at most 0.1. */
  function Score(q: seq<string>, d: seq<string>): (s: real)
    ensures s > 0.0 <==> q != [] && d != []
    ensures q == [] || d == [] ==> s == 0.0
    ensures q != [] && d != [] ==> Shared(q, d) as real < s <= Shared(q, d) as real + 0.1
  {
    if q == [] || d == [] then 0.0
    else Shared(q, d) as real + 0.1 * (if |d| < 100 then |d| else 100) as real / 100.0
  }

  /** Sharing more distinct tokens always ranks higher, whatever the
      lengths of the two documents. */
  lemma ScoreSharedFirst(q: seq<string>, d1: seq<string>, d2: seq<string>)
    requires q != [] && d1 != [] && d2 != [] && Shared(q, d1) > Shared(q, d2)
    ensures Score(q, d1) > Score(q, d2)
  {
  }

  /** With the same shared tokens, a longer document scores at least as
      high, up to 100 tokens, and no higher beyond. */
  lemma ScoreLengthHint(q: seq<string>, d1: seq<string>, d2: seq<string>)
    requires q != [] && d1 != [] && d2 != [] && Shared(q, d1) == Shared(q, d2)
    ensures |d1| <= |d2| ==> Score(q, d1) <= Score(q, d2)
    ensures |d1| < |d2| && |d1| < 100 ==> Score(q, d1) < Score(q, d2)
    ensures |d1| >= 100 && |d2| >= 100 ==> Score(q, d1) == Score(q, d2)
  {
  }

  /** A chunk record as `build_index` writes it and `query_index` reads
      it back; a record without tokens reads as one with none. */
  datatype Record = Record(id: string, docPath: string, chunkIdx: int, text: string, tokens: seq<string>)

  type Hit = (real, Record)

  /** The lines of the index with a positive score, in file order; a line
      that does not parse (`None`) is skipped. */
  function Scored(q: seq<string>, lines: seq<Option<Record>>): (r: seq<Hit>)
    ensures forall k :: 0 <= k < |r| ==> r[k].0 > 0.0 && r[k].0 == Score(q, r[k].1.tokens) && Some(r[k].1) in lines
    ensures |r| <= |lines|
    decreases |lines|
  {
    if lines == [] then []
    else
      var n := |lines| - 1;
      var rest := Scored(q, lines[..n]);
      assert forall k :: 0 <= k < |rest| ==> Some(rest[k].1) in lines by {
        forall k | 0 <= k < |rest| ensures Some(rest[k].1) in lines {
          assert Some(rest[k].1) in lines[..n];
        }
      }
      match lines[n]
      case Some(rec) => if Score(q, rec.tokens) > 0.0 then rest + [(Score(q, rec.tokens), rec)] else rest
      case None => rest
  }

  /** Every parsed line with a positive score is kept. */
  lemma {:induction false} ScoredComplete(q: seq<string>, lines: seq<Option<Record>>, rec: Record)
    requires Some(rec) in lines && Score(q, rec.tokens) > 0.0
    ensures (Score(q, rec.tokens), rec) in Scored(q, lines)
    decreases |lines|
  {
    var n := |lines| - 1;
    if lines[n] != Some(rec) {
      assert Some(rec) in lines[..n] by {
        var k :| 0 <= k < |lines| && lines[k] == Some(rec);
        assert k < n && lines[..n][k] == Some(rec);
      }
      ScoredComplete(q, lines[..n], rec);
    }
  }

  // Python's `sort(key=score, reverse=True)`, which is stable, written as
  // an insertion sort on values.

  ghost predicate SortedDesc<T>(xs: seq<(real, T)>)
  {
    forall i, j :: 0 <= i < j < |xs| ==> xs[i].0 >= xs[j].0
  }

  /** The entries with score `v`, in order. */
  function WithScore<T>(xs: seq<(real, T)>, v: real): seq<(real, T)>
    decreases |xs|
  {
    if xs == [] then []
    else if xs[0].0 == v then [xs[0]] + WithScore(xs[1..], v)
    else WithScore(xs[1..], v)
  }

  /** Put `x` after every entry scoring at least as much. */
  function InsertDesc<T>(x: (real, T), s: seq<(real, T)>): (r: seq<(real, T)>)
    ensures multiset(r) == multiset(s) + multiset{x}
    decreases |s|
  {
    if s == [] then [x]
    else if s[0].0 >= x.0 then
      assert s == [s[0]] + s[1..];
      [s[0]] + InsertDesc(x, s[1..])
    else [x] + s
  }

  function SortDesc<T>(xs: seq<(real, T)>): (r: seq<(real, T)>)
    ensures multiset(r) == multiset(xs)
    decreases |xs|
  {
    if xs == [] then []
    else
      var n := |xs| - 1;
      assert xs == xs[..n] + [xs[n]];
      InsertDesc(xs[n], SortDesc(xs[..n]))
  }

  lemma {:induction false} InsertSorted<T>(x: (real, T), s: seq<(real, T)>)
    requires SortedDesc(s)
    ensures SortedDesc(InsertDesc(x, s))
    decreases |s|
  {
    if s != [] && s[0].0 >= x.0 {
      InsertSorted(x, s[1..]);
      var r := InsertDesc(x, s[1..]);
      forall e | e in r ensures s[0].0 >= e.0 {
        assert e in multiset(r);
        if e != x {
          assert e in s[1..];
        }
      }
    }
  }

  lemma {:induction false} WithScoreAppend<T>(a: seq<(real, T)>, b: seq<(real, T)>, v: real)
    ensures WithScore(a + b, v) == WithScore(a, v) + WithScore(b, v)
    decreases |a|
  {
    if a == [] {
      assert a + b == b;
    } else {
      assert (a + b)[0] == a[0] && (a + b)[1..] == a[1..] + b;
      WithScoreAppend(a[1..], b, v);
      if a[0].0 == v {
        assert [a[0]] + (WithScore(a[1..], v) + WithScore(b, v)) == ([a[0]] + WithScore(a[1..], v)) + WithScore(b, v);
      }
    }
  }

  lemma {:induction false} WithScoreAbove<T>(s: seq<(real, T)>, v: real)
    requires forall k :: 0 <= k < |s| ==> s[k].0 < v
    ensures WithScore(s, v) == []
    decreases |s|
  {
    if s != [] {
      WithScoreAbove(s[1..], v);
    }
  }

  lemma {:induction false} InsertStable<T>(x: (real, T), s: seq<(real, T)>, v: real)
    requires SortedDesc(s)
    ensures WithScore(InsertDesc(x, s), v) == WithScore(s, v) + (if x.0 == v then [x] else [])
    decreases |s|
  {
    if s == [] {
    } else if s[0].0 >= x.0 {
      InsertStable(x, s[1..], v);
      WithScoreCons(s[0], InsertDesc(x, s[1..]), v);
      WithScoreCons(s[0], s[1..], v);
      var head := if s[0].0 == v then [s[0]] else [];
      var tail := if x.0 == v then [x] else [];
      assert head + (WithScore(s[1..], v) + tail) == (head + WithScore(s[1..], v)) + tail;
    } else {
      WithScoreCons(x, s, v);
      if x.0 == v {
        WithScoreAbove(s, v);
      }
    }
  }

  lemma WithScoreCons<T>(y: (real, T), r: seq<(real, T)>, v: real)
    ensures WithScore([y] + r, v) == (if y.0 == v then [y] else []) + WithScore(r, v)
  {
    assert ([y] + r)[0] == y && ([y] + r)[1..] == r;
  }


  /** The sort puts scores in descending order and is a permutation. */
  lemma {:induction false} SortDescSorted<T>(xs: seq<(real, T)>)
    ensures SortedDesc(SortDesc(xs))
    decreases |xs|
  {
    if xs != [] {
      var n := |xs| - 1;
      SortDescSorted(xs[..n]);
      InsertSorted(xs[n], SortDesc(xs[..n]));
    }
  }

  /** The sort is stable: the entries of any one score keep their order. */
  lemma {:induction false} SortDescStable<T>(xs: seq<(real, T)>, v: real)
    ensures WithScore(SortDesc(xs), v) == WithScore(xs, v)
    decreases |xs|
  {
    if xs != [] {
      var n := |xs| - 1;
      SortDescStable(xs[..n], v);
      SortDescSorted(xs[..n]);
      InsertStable(xs[n], SortDesc(xs[..n]), v);
      SnocLast(xs);
      WithScoreAppend(xs[..n], [xs[n]], v);
      assert [xs[n]][1..] == [];
    }
  }

  /** The hits `query_index` returns for the query tokens `q`. */
  function Ranked(q: seq<string>, lines: seq<Option<Record>>, topK: int): seq<Hit>
  {
    PyTakeSeq(SortDesc(Scored(q, lines)), Max(1, topK))
  }

  /** The ranking keeps positive scores only, best first, at most
      `max(1, top_k)` of them, and as many as there are when fewer. */
  lemma RankedTop(q: seq<string>, lines: seq<Option<Record>>, topK: int)
    ensures |Ranked(q, lines, topK)| == if |Scored(q, lines)| < Max(1, topK) then |Scored(q, lines)| else Max(1, topK)
    ensures SortedDesc(Ranked(q, lines, topK))
    ensures forall k :: 0 <= k < |Ranked(q, lines, topK)| ==>
      Ranked(q, lines, topK)[k].0 > 0.0 && Ranked(q, lines, topK)[k].0 == Score(q, Ranked(q, lines, topK)[k].1.tokens) &&
      Some(Ranked(q, lines, topK)[k].1) in lines
  {
    var sc := Scored(q, lines);
    SortDescSorted(sc);
    TakeSorted(sc, SortDesc(sc), Ranked(q, lines, topK));
  }

  /** No record left out of the ranking scores higher than one kept. */
  lemma RankedBest(q: seq<string>, lines: seq<Option<Record>>, topK: int)
    ensures forall k, e :: 0 <= k < |Ranked(q, lines, topK)| && e in Scored(q, lines) && e !in Ranked(q, lines, topK) ==>
      e.0 <= Ranked(q, lines, topK)[k].0
  {
    var sc := Scored(q, lines);
    SortDescSorted(sc);
    TakeBest(sc, SortDesc(sc), Ranked(q, lines, topK));
  }

  lemma TakeSorted(sc: seq<Hit>, sorted: seq<Hit>, r: seq<Hit>)
    requires multiset(sorted) == multiset(sc) && SortedDesc(sorted) && r <= sorted
    ensures |sorted| == |sc| && SortedDesc(r)
    ensures forall k :: 0 <= k < |r| ==> r[k] in sc
  {
    assert |multiset(sorted)| == |multiset(sc)|;
    forall k | 0 <= k < |r| ensures r[k] in sc {
      assert r[k] == sorted[k];
      assert r[k] in multiset(sc);
    }
  }

  lemma TakeBest(sc: seq<Hit>, sorted: seq<Hit>, r: seq<Hit>)
    requires multiset(sorted) == multiset(sc) && SortedDesc(sorted) && r <= sorted
    ensures forall k, e :: 0 <= k < |r| && e in sc && e !in r ==> e.0 <= r[k].0
  {
    forall k, e | 0 <= k < |r| && e in sc && e !in r ensures e.0 <= r[k].0 {
      assert e in multiset(sorted);
      var j :| 0 <= j < |sorted| && sorted[j] == e;
      assert r[k] == sorted[k];
    }
  }

  /** `query_index`: a missing index raises `FileNotFoundError`; otherwise
      score every line that parses and rank them. The lines are the index
      file read in advance, and `idx` is the index file's path as the
      message prints it. */
  method QueryIndex(idx: string, index: Option<seq<Option<Record>>>, query: string, topK: int) returns (r: Result<seq<Hit>>)
    ensures index.None? <==> r.Err?
    ensures r.Err? ==> r.kind == "FileNotFoundError" && r.msg == "Index not found: " + idx
    ensures index.Some? ==> r == Ok(Ranked(Tokenize(query), index.value, topK))
  {
    if index.None? {
      return Err("FileNotFoundError", "Index not found: " + idx);
    }
    var lines := index.value;
    var q := Tokenize(query);
    var scored: seq<Hit> := [];
    for i := 0 to |lines|
      invariant scored == Scored(q, lines[..i])
    {
      assert lines[..i + 1][..i] == lines[..i];
      match lines[i]
      case Some(rec) =>
        var s := Score(q, rec.tokens);
        if s > 0.0 {
          scored := scored + [(s, rec)];
        }
      case None =>
    }
    assert lines[..|lines|] == lines;
    r := Ok(PyTakeSeq(SortDesc(scored), Max(1, topK)));
  }

  // Building the index.

  /** A `.txt` or `.md` file found under the source: its name, its path as
      recorded, and its text as read. */
  datatype SourceFile = SourceFile(name: string, path: string, text: string)

  const TargetSize := 600
  const OverlapSize := 100

  /** The record of chunk `i` of a file: id `<file name>:<i>`. */
  function ChunkRecord(f: SourceFile, i: nat, chunk: string): Record
  {
    Record(f.name + ":" + NatToString(i), f.path, i, chunk, Tokenize(chunk))
  }

  /** The records of one file's chunks, in order. */
  function NumberChunks(f: SourceFile, chunks: seq<string>): (r: seq<Record>)
    ensures |r| == |chunks|
    decreases |chunks|
  {
    if chunks == [] then []
    else
      var n := |chunks| - 1;
      NumberChunks(f, chunks[..n]) + [ChunkRecord(f, n, chunks[n])]
  }

  /** The records `build_index` writes for the files, file by file. */
  function IndexRecords(files: seq<SourceFile>): seq<Record>
    decreases |files|
  {
    if files == [] then []
    else
      var n := |files| - 1;
      IndexRecords(files[..n]) + NumberChunks(files[n], Chunks(Paragraphs(files[n].text), TargetSize, OverlapSize))
  }

  /** A file's chunks are numbered consecutively from 0, each record
      carrying the chunk's text and its tokens. */
  lemma {:induction false} NumberChunksConsecutive(f: SourceFile, chunks: seq<string>)
    ensures forall k :: 0 <= k < |chunks| ==>
      NumberChunks(f, chunks)[k].chunkIdx == k && NumberChunks(f, chunks)[k].text == chunks[k] &&
      NumberChunks(f, chunks)[k].docPath == f.path && NumberChunks(f, chunks)[k].tokens == Tokenize(chunks[k]) &&
      NumberChunks(f, chunks)[k].id == f.name + ":" + NatToString(k)
    decreases |chunks|
  {
    if chunks != [] {
      var n := |chunks| - 1;
      NumberChunksConsecutive(f, chunks[..n]);
    }
  }

  /** The number after the file name in a chunk id reads back as the chunk's
      index, so ids within one file are distinct. */
  lemma ChunkIdParses(f: SourceFile, i: nat, chunk: string)
    ensures ChunkRecord(f, i, chunk).id[..|f.name|] == f.name && ChunkRecord(f, i, chunk).id[|f.name|] == ':'
    ensures ParseInt(ChunkRecord(f, i, chunk).id[|f.name| + 1..]) == Some(i)
  {
    var id := ChunkRecord(f, i, chunk).id;
    assert id[|f.name| + 1..] == NatToString(i) == IntToString(i);
    ParseIntOfIntToString(i);
  }

  lemma ChunkIdsDistinct(f: SourceFile, i: nat, j: nat, a: string, b: string)
    requires i != j
    ensures ChunkRecord(f, i, a).id != ChunkRecord(f, j, b).id
  {
    ChunkIdParses(f, i, a);
    ChunkIdParses(f, j, b);
  }

  lemma NumberChunksStep(f: SourceFile, chunks: seq<string>, i: nat)
    requires i < |chunks|
    ensures NumberChunks(f, chunks[..i + 1]) == NumberChunks(f, chunks[..i]) + [ChunkRecord(f, i, chunks[i])]
  {
    assert chunks[..i + 1][..i] == chunks[..i];
  }

  lemma IndexRecordsStep(files: seq<SourceFile>, j: nat)
    requires j < |files|
    ensures IndexRecords(files[..j + 1]) ==
      IndexRecords(files[..j]) + NumberChunks(files[j], Chunks(Paragraphs(files[j].text), TargetSize, OverlapSize))
  {
    assert files[..j + 1][..j] == files[..j];
  }

  /** The inner loop of `build_index`: one record per chunk of a file. */
  method WriteChunks(f: SourceFile, chunks: seq<string>) returns (records: seq<Record>)
    ensures records == NumberChunks(f, chunks)
  {
    records := [];
    for i := 0 to |chunks|
      invariant records == NumberChunks(f, chunks[..i])
    {
      var cid := f.name + ":" + NatToString(i);
      records := records + [Record(cid, f.path, i, chunks[i], Tokenize(chunks[i]))];
      NumberChunksStep(f, chunks, i);
    }
    assert chunks[..|chunks|] == chunks;
  }

  /** The records of one file: its chunks, numbered. */
  method IndexFile(f: SourceFile) returns (records: seq<Record>)
    ensures records == NumberChunks(f, Chunks(Paragraphs(f.text), TargetSize, OverlapSize))
  {
    var chunks := ChunkParagraphs(f.text, TargetSize, OverlapSize);
    records := WriteChunks(f, chunks);
  }

  /** `build_index`: chunk each file and write one record per chunk. The
      file walk and the reads are inputs; the output file is the returned
      records. */
  method BuildIndex(files: seq<SourceFile>) returns (records: seq<Record>)
    ensures records == IndexRecords(files)
  {
    records := [];
    for j := 0 to |files|
      invariant records == IndexRecords(files[..j])
    {
      var written := IndexFile(files[j]);
      records := records + written;
      IndexRecordsStep(files, j);
    }
    assert files[..|files|] == files;
  }
}
