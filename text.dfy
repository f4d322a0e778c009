/** The string operations of Python that the backend relies on: `in` on strings,
    `str.lower`, `str.strip`, `str.join` and the decimal rendering of an int. */
module Text {

  /** `t` occurs as a contiguous block of `s` (the reference meaning of `t in s`). */
  ghost predicate Occurs(t: string, s: string) {
    exists i, j :: 0 <= i <= j <= |s| && s[i..j] == t
  }

  predicate StartsWith(s: string, p: string) {
    |p| <= |s| && s[..|p|] == p
  }

  predicate EndsWith(s: string, p: string) {
    |p| <= |s| && s[|s| - |p|..] == p
  }

  /** Python's `t in s`: scans `s` from the left for a block equal to `t`. */
  function Contains(s: string, t: string): (b: bool)
    ensures b <==> Occurs(t, s)
    decreases |s|
  {
    if StartsWith(s, t) then
      assert s[0..|t|] == t;
      true
    else if |s| == 0 then
      false
    else
      OccursSplit(t, s);
      Contains(s[1..], t)
  }

  /** A block of `s` either starts `s` or is a block of its tail, and a block of the
      tail is a block of `s`. */
  lemma OccursSplit(t: string, s: string)
    requires |s| > 0
    ensures Occurs(t, s) <==> StartsWith(s, t) || Occurs(t, s[1..])
  {
    if Occurs(t, s[1..]) {
      OccursInTail(t, s);
    }
    if StartsWith(s, t) {
      assert s[0..|t|] == t;
    }
    if Occurs(t, s) && !StartsWith(s, t) {
      OccursPastStart(t, s);
    }
  }

  lemma OccursInTail(t: string, s: string)
    requires |s| > 0 && Occurs(t, s[1..])
    ensures Occurs(t, s)
  {
    var i, j :| 0 <= i <= j <= |s| - 1 && s[1..][i..j] == t;
    assert s[i + 1..j + 1] == s[1..][i..j];
  }

  lemma OccursPastStart(t: string, s: string)
    requires |s| > 0 && Occurs(t, s) && !StartsWith(s, t)
    ensures Occurs(t, s[1..])
  {
    var i, j :| 0 <= i <= j <= |s| && s[i..j] == t;
    assert i != 0;
    assert s[1..][i - 1..j - 1] == s[i..j];
  }

  /** An empty string contains only the empty string. */
  lemma OccursInEmpty(t: string)
    requires Occurs(t, "")
    ensures t == ""
  {
    var i, j :| 0 <= i <= j <= 0 && ""[i..j] == t;
  }

  /** A block of a block of `c` is a block of `c`. */
  lemma OccursTransitive(a: string, b: string, c: string)
    requires Occurs(a, b) && Occurs(b, c)
    ensures Occurs(a, c)
  {
    var i, j :| 0 <= i <= j <= |b| && b[i..j] == a;
    var k, l :| 0 <= k <= l <= |c| && c[k..l] == b;
    assert |c[k + i..k + j]| == |a|;
    forall m | 0 <= m < |a| ensures c[k + i..k + j][m] == a[m] {
      assert a[m] == b[i + m] == c[k + i + m];
    }
    assert c[k + i..k + j] == a;
  }

  /** A text whose first character never appears in `s` does not occur in `s`. */
  lemma FirstCharAbsent(t: string, s: string)
    requires |t| > 0 && t[0] !in s
    ensures !Occurs(t, s)
  {
  }

  /** ASCII case mapping: 'A'..'Z' become 'a'..'z', every other character is kept. */
  function LowerChar(c: char): char {
    if 'A' <= c <= 'Z' then (c as int + 32) as char else c
  }

  predicate IsUpper(c: char) {
    'A' <= c <= 'Z'
  }

  /** Python's `str.lower`, restricted to the ASCII letters. */
  function Lower(s: string): (r: string)
    ensures |r| == |s|
    ensures forall i :: 0 <= i < |s| ==> r[i] == LowerChar(s[i])
    ensures forall i :: 0 <= i < |r| ==> !IsUpper(r[i])
  {
    if s == [] then [] else [LowerChar(s[0])] + Lower(s[1..])
  }

  /** Lowering twice is lowering once. */
  lemma LowerIdempotent(s: string)
    ensures Lower(Lower(s)) == Lower(s)
  {
  }

  /** Lowering commutes with taking a block. */
  lemma LowerSlice(s: string, i: nat, j: nat)
    requires i <= j <= |s|
    ensures Lower(s)[i..j] == Lower(s[i..j])
  {
  }

  /** A concatenation starts with its first part and ends with its last. */
  lemma ConcatEnds(p: string, q: string)
    ensures StartsWith(p + q, p) && EndsWith(p + q, q)
  {
  }

  /** The middle part of a three-way concatenation is a block of it. */
  lemma ConcatMiddle(p: string, q: string, t: string)
    ensures (p + q + t)[|p|..|p| + |q|] == q
    ensures Occurs(q, p + q + t)
  {
    assert (p + q + t)[|p|..|p| + |q|] == q;
  }

  /** The ends of a prompt framed as `a + b + (c + d) + e + f`. */
  lemma FrameEnds(a: string, b: string, c: string, d: string, e: string, f: string)
    ensures StartsWith(a + b + (c + d) + e + f, a + b + c)
    ensures EndsWith(a + b + (c + d) + e + f, e + f)
  {
    assert a + b + (c + d) + e + f == (a + b + c) + (d + e + f);
    assert a + b + (c + d) + e + f == (a + b + (c + d)) + (e + f);
  }

  /** A four-way concatenation starts with its first part, ends with its last, and
      holds each middle part as a block. */
  lemma Concat4Parts(a: string, b: string, c: string, d: string)
    ensures StartsWith(a + b + c + d, a) && EndsWith(a + b + c + d, d)
    ensures Occurs(b, a + b + c + d) && Occurs(c, a + b + c + d)
  {
    assert (a + b + c + d)[|a|..|a| + |b|] == b;
    assert (a + b + c + d)[|a| + |b|..|a| + |b| + |c|] == c;
  }

  lemma StartsWithTrans(s: string, t: string, u: string)
    requires StartsWith(s, t) && StartsWith(t, u)
    ensures StartsWith(s, u)
  {
    assert s[..|u|] == s[..|t|][..|u|];
  }

  /** Python's `sep.join(parts)`. */
  function Join(sep: string, parts: seq<string>): string
    decreases |parts|
  {
    if |parts| == 0 then ""
    else if |parts| == 1 then parts[0]
    else parts[0] + sep + Join(sep, parts[1..])
  }

  /** Joining one more part appends the separator and that part. */
  lemma {:induction false} JoinSnoc(sep: string, parts: seq<string>, p: string)
    requires |parts| > 0
    ensures Join(sep, parts + [p]) == Join(sep, parts) + sep + p
    decreases |parts|
  {
    if |parts| == 1 {
      assert (parts + [p])[1..] == [p];
    } else {
      assert (parts + [p])[1..] == parts[1..] + [p];
      JoinSnoc(sep, parts[1..], p);
    }
  }

  /** Python's `str.isspace` for one character. */
  predicate IsSpace(c: char) {
    c == ' ' || '\t' <= c <= '\r' || '\U{1C}' <= c <= '\U{1F}' || c == '\U{85}' || c == '\U{A0}'
    || c == '\U{1680}' || '\U{2000}' <= c <= '\U{200A}' || c == '\U{2028}' || c == '\U{2029}'
    || c == '\U{202F}' || c == '\U{205F}' || c == '\U{3000}'
  }

  /** Drops the leading white space. */
  function TrimStart(s: string): (r: string)
    ensures |r| <= |s| && r == s[|s| - |r|..]
    ensures forall k :: 0 <= k < |s| - |r| ==> IsSpace(s[k])
    ensures r != [] ==> !IsSpace(r[0])
  {
    if s != [] && IsSpace(s[0]) then TrimStart(s[1..]) else s
  }

  /** Drops the trailing white space. */
  function TrimEnd(s: string): (r: string)
    ensures |r| <= |s| && r == s[..|r|]
    ensures forall k :: |r| <= k < |s| ==> IsSpace(s[k])
    ensures r != [] ==> !IsSpace(r[|r| - 1])
  {
    if s != [] && IsSpace(s[|s| - 1]) then TrimEnd(s[..|s| - 1]) else s
  }

  /** `r` sits in `s` at offset `a`, with only white space before and after it. */
  predicate SpaceFramed(s: string, r: string, a: nat) {
    a + |r| <= |s| && s[a..a + |r|] == r &&
    (forall k :: 0 <= k < a ==> IsSpace(s[k])) &&
    (forall k :: a + |r| <= k < |s| ==> IsSpace(s[k]))
  }

  /** Python's `str.strip()` with no argument: only leading and trailing white space
      is removed, and all of it. */
  function Strip(s: string): (r: string)
    ensures r != [] ==> !IsSpace(r[0]) && !IsSpace(r[|r| - 1])
    ensures exists a :: SpaceFramed(s, r, a)
    ensures Occurs(r, s)
  {
    var t := TrimStart(s);
    TrimsFrame(s, t, TrimEnd(t));
    TrimEnd(t)
  }

  /** A prefix `r` of a suffix `t` of `s`, with only white space after `r` in `t`,
      is a block of `s` framed at the offset where `t` starts. */
  lemma {:induction false} TrimsFrame(s: string, t: string, r: string)
    requires |t| <= |s| && t == s[|s| - |t|..] && (forall k :: 0 <= k < |s| - |t| ==> IsSpace(s[k]))
    requires |r| <= |t| && r == t[..|r|] && (forall k :: |r| <= k < |t| ==> IsSpace(t[k]))
    ensures SpaceFramed(s, r, |s| - |t|) && Occurs(r, s)
  {
    var a := |s| - |t|;
    assert s[a..a + |r|] == r by {
      assert s[a..a + |r|] == s[a..][..|r|];
    }
    forall k | a + |r| <= k < |s|
      ensures IsSpace(s[k])
    {
      assert s[k] == t[k - a];
    }
  }

  function DigitChar(d: nat): char
    requires d < 10
  {
    "0123456789"[d]
  }

  /** The decimal text of `n`, as `f"{n}"` renders a non-negative int. */
  function NatToString(n: nat): (r: string)
    ensures |r| >= 1
    ensures forall k :: 0 <= k < |r| ==> '0' <= r[k] <= '9'
    decreases n
  {
    if n < 10 then [DigitChar(n)] else NatToString(n / 10) + [DigitChar(n % 10)]
  }

  /** Reads a string of decimal digits back as a number. */
  function DecimalValue(s: string): nat
    requires forall k :: 0 <= k < |s| ==> '0' <= s[k] <= '9'
  {
    if s == [] then 0 else 10 * DecimalValue(s[..|s| - 1]) + (s[|s| - 1] as int - '0' as int)
  }

  lemma DigitValue(d: nat)
    requires d < 10
    ensures DigitChar(d) as int - '0' as int == d
  {
    if d == 0 {} else if d == 1 {} else if d == 2 {} else if d == 3 {} else if d == 4 {}
    else if d == 5 {} else if d == 6 {} else if d == 7 {} else if d == 8 {} else {}
  }

  /** Rendering a number in decimal loses nothing: reading it back gives the number. */
  lemma {:induction false} DecimalRoundTrip(n: nat)
    ensures DecimalValue(NatToString(n)) == n
    decreases n
  {
    var r := NatToString(n);
    if n < 10 {
      DigitValue(n);
      assert r[..0] == [];
    } else {
      var q, d := n / 10, n % 10;
      assert r == NatToString(q) + [DigitChar(d)];
      assert r[..|r| - 1] == NatToString(q);
      DecimalRoundTrip(q);
      DigitValue(d);
      assert DecimalValue(r) == 10 * q + d;
    }
  }

}
