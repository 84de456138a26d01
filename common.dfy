// Shared vocabulary: option/result wrappers, the character and string
// operations the Python code uses (lower, strip, split, join, slicing),
// decimal rendering and parsing of integers, and a JSON-like value type.

module Common {

  datatype Option<T> = None | Some(value: T)

  /** A Python call that either returns a value or raises; the error carries
      the exception type name and its message. */
  datatype Result<T> = Ok(value: T) | Err(kind: string, msg: string)

  // ---------------------------------------------------------------------
  // Characters

  /** Whitespace as Python's `str.strip`, `str.split` and regex `\s` see it,
      restricted to ASCII: the space, tab, line feed, vertical tab, form
      feed and carriage return, and the four separators 0x1C to 0x1F. */
  predicate IsSpace(c: char)
  {
    c == ' ' || ('\t' <= c <= '\r') || ('\U{001C}' <= c <= '\U{001F}')
  }

  predicate IsAsciiUpper(c: char) { 'A' <= c <= 'Z' }
  predicate IsAsciiLower(c: char) { 'a' <= c <= 'z' }
  predicate IsDigit(c: char) { '0' <= c <= '9' }

  /** The first position of `c` in `s`, or `|s|` when there is none. */
  function IndexOf(s: string, c: char): (r: nat)
    ensures r <= |s|
    ensures r < |s| ==> s[r] == c
    ensures forall k :: 0 <= k < r ==> s[k] != c
  {
    if s == [] then 0 else if s[0] == c then 0 else 1 + IndexOf(s[1..], c)
  }

  /** The nine upper-case Polish letters. */
  predicate IsPolishUpper(c: char)
  {
    c == 'Ą' || c == 'Ć' || c == 'Ę' || c == 'Ł' || c == 'Ń' || c == 'Ó' || c == 'Ś' || c == 'Ż' || c == 'Ź'
  }

  /** The nine lower-case Polish letters. */
  predicate IsPolishLower(c: char)
  {
    c == 'ą' || c == 'ć' || c == 'ę' || c == 'ł' || c == 'ń' || c == 'ó' || c == 'ś' || c == 'ż' || c == 'ź'
  }

  /** Python's `str.lower()` on ASCII and Polish letters; other characters
      are left alone. Eight of the Polish pairs are adjacent code points,
      'Ó'/'ó' are 32 apart like the ASCII letters. */
  function LowerChar(c: char): (r: char)
    ensures IsAsciiUpper(c) ==> IsAsciiLower(r)
    ensures IsPolishUpper(c) ==> IsPolishLower(r)
    ensures !IsAsciiUpper(c) && !IsPolishUpper(c) ==> r == c
  {
    if IsAsciiUpper(c) || c == 'Ó' then (c as int + 32) as char
    else if IsPolishUpper(c) then (c as int + 1) as char
    else c
  }

  function UpperChar(c: char): (r: char)
    ensures IsAsciiLower(c) ==> IsAsciiUpper(r)
    ensures IsPolishLower(c) ==> IsPolishUpper(r)
    ensures !IsAsciiLower(c) && !IsPolishLower(c) ==> r == c
  {
    if IsAsciiLower(c) || c == 'ó' then (c as int - 32) as char
    else if IsPolishLower(c) then (c as int - 1) as char
    else c
  }

  function Lower(s: string): (r: string)
    ensures |r| == |s|
    ensures forall k :: 0 <= k < |s| ==> r[k] == LowerChar(s[k])
  {
    if s == [] then [] else [LowerChar(s[0])] + Lower(s[1..])
  }

  /** Python's `str.capitalize()`: first character upper, the rest lower. */
  function Capitalize(s: string): (r: string)
    ensures |r| == |s|
    ensures s != [] ==> r[0] == UpperChar(s[0]) && r[1..] == Lower(s[1..])
  {
    if s == [] then [] else [UpperChar(s[0])] + Lower(s[1..])
  }

  // ---------------------------------------------------------------------
  // Strings

  /** `sub in s` in Python. */
  predicate Contains(s: string, sub: string)
    decreases |s|
  {
    sub <= s || (s != [] && Contains(s[1..], sub))
  }

  lemma {:induction false} ContainsAt(s: string, sub: string, i: nat)
    requires i + |sub| <= |s| && s[i..i + |sub|] == sub
    ensures Contains(s, sub)
    decreases i
  {
    if i > 0 {
      assert s[1..][i - 1..i - 1 + |sub|] == sub;
      ContainsAt(s[1..], sub, i - 1);
    }
  }

  lemma {:induction false} ContainsAppend(a: string, b: string, sub: string)
    requires Contains(b, sub)
    ensures Contains(a + b, sub)
    decreases |a|
  {
    if a == [] {
      assert a + b == b;
    } else {
      assert (a + b)[1..] == a[1..] + b;
      ContainsAppend(a[1..], b, sub);
    }
  }

  lemma {:induction false} ContainsPrefix(a: string, b: string, sub: string)
    requires Contains(a, sub)
    ensures Contains(a + b, sub)
    decreases |a|
  {
    if sub <= a {
      assert sub <= a + b;
    } else {
      assert (a + b)[1..] == a[1..] + b;
      ContainsPrefix(a[1..], b, sub);
    }
  }

  /** `s.startswith(p)`. */
  predicate StartsWith(s: string, p: string) { p <= s }

  /** `s.replace(a, b)` for single characters `a` and `b`. */
  function ReplaceChar(s: string, a: char, b: char): (r: string)
    ensures |r| == |s|
    ensures forall k :: 0 <= k < |s| ==> r[k] == if s[k] == a then b else s[k]
  {
    if s == [] then [] else [if s[0] == a then b else s[0]] + ReplaceChar(s[1..], a, b)
  }

  /** `sep.join(parts)`. */
  function Join(parts: seq<string>, sep: string): string
  {
    if parts == [] then ""
    else if |parts| == 1 then parts[0]
    else parts[0] + sep + Join(parts[1..], sep)
  }

  lemma {:induction false} JoinSnoc(parts: seq<string>, p: string, sep: string)
    requires parts != []
    ensures Join(parts + [p], sep) == Join(parts, sep) + sep + p
    decreases |parts|
  {
    if |parts| == 1 {
      assert parts + [p] == [parts[0], p];
    } else {
      assert (parts + [p])[1..] == parts[1..] + [p];
      JoinSnoc(parts[1..], p, sep);
    }
  }

  /** Repeat a one-character string, as `c * n` in Python. */
  function Repeat(c: char, n: nat): (r: string)
    ensures |r| == n && forall k :: 0 <= k < n ==> r[k] == c
  {
    if n == 0 then [] else [c] + Repeat(c, n - 1)
  }

  /** `s.lstrip()`: the suffix left when leading whitespace is removed. */
  function TrimLeft(s: string): (r: string)
    ensures |r| <= |s| && r == s[|s| - |r|..]
    ensures r != [] ==> !IsSpace(r[0])
    ensures forall k :: 0 <= k < |s| - |r| ==> IsSpace(s[k])
  {
    if s != [] && IsSpace(s[0]) then TrimLeft(s[1..]) else s
  }

  /** `s.rstrip()`: the prefix left when trailing whitespace is removed. */
  function TrimRight(s: string): (r: string)
    ensures |r| <= |s| && r == s[..|r|]
    ensures r != [] ==> !IsSpace(r[|r| - 1])
    ensures forall k :: |r| <= k < |s| ==> IsSpace(s[k])
  {
    if s != [] && IsSpace(s[|s| - 1]) then TrimRight(s[..|s| - 1]) else s
  }

  /** `s.strip()`: the infix left when whitespace is removed from both ends. */
  function Strip(s: string): (r: string)
    ensures |r| <= |s|
    ensures r != [] ==> !IsSpace(r[0]) && !IsSpace(r[|r| - 1])
  {
    TrimRight(TrimLeft(s))
  }

  /** A string with no whitespace at either end is its own strip. */
  lemma StripUnchanged(t: string)
    requires t != [] ==> !IsSpace(t[0]) && !IsSpace(t[|t| - 1])
    ensures Strip(t) == t
  {
    assert TrimLeft(t) == t;
    assert TrimRight(t) == t;
  }

  /** `Strip(s)` is the slice of `s` that starts after its leading
      whitespace, and everything outside that slice is whitespace. */
  lemma StripIsInfix(s: string)
    ensures |s| - |TrimLeft(s)| + |Strip(s)| <= |s|
    ensures Strip(s) == s[|s| - |TrimLeft(s)|..|s| - |TrimLeft(s)| + |Strip(s)|]
    ensures forall k :: 0 <= k < |s| - |TrimLeft(s)| ==> IsSpace(s[k])
    ensures forall k :: |s| - |TrimLeft(s)| + |Strip(s)| <= k < |s| ==> IsSpace(s[k])
  {
    var t := TrimLeft(s);
    var r := TrimRight(t);
    SliceOfSlice(s, |s| - |t|, t, r);
  }

  /** Every character of `Strip(s)` occurs in `s`. */
  lemma StripKeepsChars(s: string)
    ensures forall c :: c in Strip(s) ==> c in s
  {
    StripIsInfix(s);
    var i := |s| - |TrimLeft(s)|;
    assert forall c :: c in s[i..i + |Strip(s)|] ==> c in s;
  }

  /** A prefix of a suffix is a slice. */
  lemma SliceOfSlice<T>(s: seq<T>, i: nat, t: seq<T>, r: seq<T>)
    requires i <= |s| && t == s[i..] && |r| <= |t| && r == t[..|r|]
    ensures i + |r| <= |s| && r == s[i..i + |r|]
    ensures forall k :: i + |r| <= k < |s| ==> s[k] == t[k - i]
  {
  }

  /** The text before the first occurrence of `c`: `s.split(c)[0]`. */
  function BeforeFirst(s: string, c: char): (r: string)
    ensures r <= s && c !in r
    ensures |r| < |s| ==> s[|r|] == c
  {
    var k := IndexOf(s, c);
    s[..k]
  }

  /** `s.split(c)` for a one-character separator: empty pieces are kept. */
  function SplitOn(s: string, c: char): (r: seq<string>)
    ensures |r| >= 1
    ensures forall k :: 0 <= k < |r| ==> c !in r[k]
    ensures Join(r, [c]) == s
    decreases |s|
  {
    var k := IndexOf(s, c);
    if k == |s| then [s]
    else
      var rest := SplitOn(s[k + 1..], c);
      assert s == s[..k] + [c] + s[k + 1..];
      [s[..k]] + rest
  }

  /** Python's argument-less `s.split()`: the maximal runs of non-space
      characters. */
  function Words(s: string): (r: seq<string>)
    ensures forall k :: 0 <= k < |r| ==> r[k] != [] && forall j :: 0 <= j < |r[k]| ==> !IsSpace(r[k][j])
    decreases |s|
  {
    if s == [] then []
    else if IsSpace(s[0]) then Words(s[1..])
    else
      var n := WordLength(s);
      [s[..n]] + Words(s[n..])
  }

  function WordLength(s: string): (n: nat)
    requires s != [] && !IsSpace(s[0])
    ensures 1 <= n <= |s|
    ensures forall j :: 0 <= j < n ==> !IsSpace(s[j])
    ensures n < |s| ==> IsSpace(s[n])
    decreases |s|
  {
    if |s| == 1 || IsSpace(s[1]) then 1 else 1 + WordLength(s[1..])
  }

  /** `xs[:k]` in Python, for a list or a string, where a negative `k`
      counts from the end. */
  function PyTakeSeq<T>(xs: seq<T>, k: int): (r: seq<T>)
    ensures r <= xs
    ensures 0 <= k <= |xs| ==> |r| == k
    ensures k >= |xs| ==> r == xs
    ensures k < 0 ==> |r| == if |xs| + k < 0 then 0 else |xs| + k
  {
    if k >= 0 then (if k <= |xs| then xs[..k] else xs)
    else if |xs| + k < 0 then [] else xs[..|xs| + k]
  }

  /** `s[k:]` in Python, where a negative `k` counts from the end (so
      `s[-0:]` is the whole string). */
  function PyFrom(s: string, k: int): (r: string)
    ensures |r| <= |s| && r == s[|s| - |r|..]
    ensures 0 <= k <= |s| ==> |r| == |s| - k
    ensures k > |s| ==> r == []
    ensures k < 0 ==> |r| == if |s| + k < 0 then |s| else -k
  {
    if k >= 0 then (if k <= |s| then s[k..] else [])
    else if |s| + k < 0 then s else s[|s| + k..]
  }

  /** Line breaks recognised by Python's `str.splitlines()`, ASCII only. */
  predicate IsLineBreak(c: char)
  {
    c == '\n' || c == '\r' || c == '\U{000B}' || c == '\U{000C}' || c == '\U{001C}' || c == '\U{001D}' || c == '\U{001E}'
  }

  /** `len(s.splitlines())`: one line per terminator ("\r\n" counts once),
      plus an unterminated last line. */
  function LineCount(s: string): (n: nat)
    decreases |s|
  {
    if s == [] then 0
    else
      var k := LineEnd(s);
      if k == |s| then 1
      else if s[k] == '\r' && k + 1 < |s| && s[k + 1] == '\n' then 1 + LineCount(s[k + 2..])
      else 1 + LineCount(s[k + 1..])
  }

  function LineEnd(s: string): (k: nat)
    ensures k <= |s|
    ensures k < |s| ==> IsLineBreak(s[k])
    ensures forall j :: 0 <= j < k ==> !IsLineBreak(s[j])
  {
    if s == [] then 0 else if IsLineBreak(s[0]) then 0 else 1 + LineEnd(s[1..])
  }

  lemma LineCountZero(s: string)
    ensures LineCount(s) == 0 <==> s == []
  {
  }

  // ---------------------------------------------------------------------
  // Numbers and lists

  function Min(a: int, b: int): int
  {
    if a <= b then a else b
  }

  function Max(a: int, b: int): int
  {
    if a >= b then a else b
  }

  /** The elements of `xs` that satisfy `p`, in their order: the list a
      run of `if p(x): out.append(x)` statements builds. */
  function Filter<T(!new)>(xs: seq<T>, p: T -> bool): (r: seq<T>)
    ensures |r| <= |xs|
    ensures forall x :: x in r <==> x in xs && p(x)
    decreases |xs|
  {
    if xs == [] then [] else (if p(xs[0]) then [xs[0]] else []) + Filter(xs[1..], p)
  }

  /** Filtering a list that holds every value the test accepts keeps
      exactly those values. */
  lemma FilterCovers<T(!new)>(xs: seq<T>, p: T -> bool)
    requires forall x :: p(x) ==> x in xs
    ensures forall x :: x in Filter(xs, p) <==> p(x)
  {
  }

  /** `r` is `xs` with some elements left out and the rest kept in order. */
  predicate IsSubsequence<T(==)>(r: seq<T>, xs: seq<T>)
    decreases |xs|
  {
    r == [] || (xs != [] && ((r[0] == xs[0] && IsSubsequence(r[1..], xs[1..])) || IsSubsequence(r, xs[1..])))
  }

  /** Filtering keeps the order of the list. */
  lemma {:induction false} FilterSubsequence<T(!new)>(xs: seq<T>, p: T -> bool)
    ensures IsSubsequence(Filter(xs, p), xs)
    decreases |xs|
  {
    if xs != [] {
      FilterSubsequence(xs[1..], p);
      var r := Filter(xs, p);
      if p(xs[0]) {
        assert r[0] == xs[0] && r[1..] == Filter(xs[1..], p);
      } else {
        assert r == Filter(xs[1..], p);
      }
    }
  }

  lemma {:induction false} SubsequenceSelf<T>(xs: seq<T>)
    ensures IsSubsequence(xs, xs)
    decreases |xs|
  {
    if xs != [] {
      SubsequenceSelf(xs[1..]);
    }
  }

  /** Subsequences of two lists, joined, are a subsequence of the two
      lists joined. */
  lemma {:induction false} SubsequenceAppend<T>(a: seq<T>, b: seq<T>, c: seq<T>, d: seq<T>)
    requires IsSubsequence(a, b) && IsSubsequence(c, d)
    ensures IsSubsequence(a + c, b + d)
    decreases |b|, |a|
  {
    if b == [] {
      assert a == [] && a + c == c && b + d == d;
    } else if a == [] {
      SubsequenceAppend(a, b[1..], c, d);
      assert (b + d)[1..] == b[1..] + d;
      assert a + c == c;
    } else if a[0] == b[0] && IsSubsequence(a[1..], b[1..]) {
      SubsequenceAppend(a[1..], b[1..], c, d);
      assert (a + c)[1..] == a[1..] + c;
      assert (b + d)[1..] == b[1..] + d;
    } else {
      SubsequenceAppend(a, b[1..], c, d);
      assert (b + d)[1..] == b[1..] + d;
    }
  }

  /** A prefix one longer is the prefix with the next element added. */
  lemma TakeSnoc<T>(s: seq<T>, i: nat)
    requires i < |s|
    ensures s[..i + 1] == s[..i] + [s[i]]
  {
  }

  // ---------------------------------------------------------------------
  // Decimal numbers

  function DigitChar(d: nat): (c: char)
    requires d < 10
    ensures IsDigit(c)
  {
    ('0' as int + d) as char
  }

  /** `str(n)` for a natural number. */
  function NatToString(n: nat): (r: string)
    ensures r != [] && forall k :: 0 <= k < |r| ==> IsDigit(r[k])
    decreases n
  {
    if n < 10 then [DigitChar(n)] else NatToString(n / 10) + [DigitChar(n % 10)]
  }

  /** `str(i)` for any integer. */
  function IntToString(i: int): (r: string)
  {
    if i < 0 then "-" + NatToString(-i) else NatToString(i)
  }

  /** The value of a non-empty run of decimal digits. */
  function DigitsValue(s: string): (n: nat)
    requires forall k :: 0 <= k < |s| ==> IsDigit(s[k])
    decreases |s|
  {
    if s == [] then 0
    else
      assert IsDigit(s[|s| - 1]);
      10 * DigitsValue(s[..|s| - 1]) + (s[|s| - 1] as int - '0' as int)
  }

  lemma {:induction false} DigitsValueOfNatToString(n: nat)
    ensures DigitsValue(NatToString(n)) == n
    decreases n
  {
    if n >= 10 {
      var r := NatToString(n / 10) + [DigitChar(n % 10)];
      assert r[..|r| - 1] == NatToString(n / 10);
      DigitsValueOfNatToString(n / 10);
    }
  }

  /** Python's `int(s)` for a string: surrounding whitespace, an optional sign
      and at least one decimal digit; anything else raises ValueError. */
  function ParseInt(s: string): (r: Option<int>)
  {
    var t := Strip(s);
    if t == [] then None
    else
      var neg := t[0] == '-';
      var body := if t[0] == '-' || t[0] == '+' then t[1..] else t;
      if body == [] || exists k :: 0 <= k < |body| && !IsDigit(body[k]) then None
      else
        var v: int := DigitsValue(body);
        Some(if neg then -v else v)
  }

  /** `int(str(i)) == i`: rendering an integer and parsing it back is the
      identity. */
  lemma ParseIntOfIntToString(i: int)
    ensures ParseInt(IntToString(i)) == Some(i)
  {
    var n: nat := if i < 0 then -i else i;
    var digits := NatToString(n);
    var s := IntToString(i);
    assert s == if i < 0 then "-" + digits else digits;
    assert !IsSpace(s[0]) && !IsSpace(s[|s| - 1]);
    StripUnchanged(s);
    if i < 0 {
      assert s[1..] == digits;
    } else {
      assert s[0] != '-' && s[0] != '+';
    }
    DigitsValueOfNatToString(n);
  }

  // ---------------------------------------------------------------------
  // JSON-like values (the shapes agents return and the payloads exported)

  datatype Json =
    | JNull
    | JBool(b: bool)
    | JInt(i: int)
    | JFloat(r: real)
    | JStr(s: string)
    | JList(items: seq<Json>)
    | JObj(fields: seq<(string, Json)>)

  /** `d.get(key)` on an ordered dictionary (the first entry with that key). */
  function Get(fields: seq<(string, Json)>, key: string): (r: Option<Json>)
    ensures r.Some? <==> exists k :: 0 <= k < |fields| && fields[k].0 == key
    ensures r.Some? ==> exists k :: 0 <= k < |fields| && fields[k] == (key, r.value)
  {
    if fields == [] then None
    else if fields[0].0 == key then Some(fields[0].1)
    else Get(fields[1..], key)
  }

  /** Python truthiness. */
  predicate Truthy(v: Json)
  {
    match v
    case JNull => false
    case JBool(b) => b
    case JInt(i) => i != 0
    case JFloat(r) => r != 0.0
    case JStr(s) => s != []
    case JList(items) => items != []
    case JObj(fields) => fields != []
  }

  /** `isinstance(v, (int, float))`; a bool is an int in Python. */
  predicate IsNumber(v: Json)
  {
    v.JBool? || v.JInt? || v.JFloat?
  }
}
