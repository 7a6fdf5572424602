/** The Python `str` operations the ingestion scripts use: `lower`, `strip`,
    `in`, `startswith`, `endswith`, `find`, `rfind`, `join` and `str(int)`. */
module Text {

  // ---------------------------------------------------------------------------
  // str.lower
  // ---------------------------------------------------------------------------

  function LowerChar(c: char): char {
    if 'A' <= c <= 'Z' then (c as int + 32) as char else c
  }

  /** `s.lower()`, restricted to the ASCII letters. */
  function Lower(s: string): (r: string)
    ensures |r| == |s|
    ensures forall i :: 0 <= i < |s| ==> r[i] == LowerChar(s[i])
  {
    if |s| == 0 then "" else [LowerChar(s[0])] + Lower(s[1..])
  }

  lemma LowerIdempotent(s: string)
    ensures Lower(Lower(s)) == Lower(s)
  {
    assert forall i :: 0 <= i < |s| ==> LowerChar(LowerChar(s[i])) == LowerChar(s[i]);
  }

  lemma LowerConcat(a: string, b: string)
    ensures Lower(a + b) == Lower(a) + Lower(b)
  {
    assert forall i :: 0 <= i < |a + b| ==> Lower(a + b)[i] == (Lower(a) + Lower(b))[i];
  }

  // ---------------------------------------------------------------------------
  // str.strip
  // ---------------------------------------------------------------------------

  /** Python's `str.isspace` for a single character. */
  predicate IsSpace(c: char) {
    || ('\t' <= c <= '\r')
    || ('\U{1C}' <= c <= '\U{1F}')
    || c == ' '
    || c == '\U{85}'
    || c == '\U{A0}'
    || c == '\U{1680}'
    || ('\U{2000}' <= c <= '\U{200A}')
    || c == '\U{2028}'
    || c == '\U{2029}'
    || c == '\U{202F}'
    || c == '\U{205F}'
    || c == '\U{3000}'
  }

  predicate AllSpace(s: string) {
    forall i :: 0 <= i < |s| ==> IsSpace(s[i])
  }

  lemma LowerOfSpace(w: string)
    requires AllSpace(w)
    ensures Lower(w) == w
  {
  }

  /** `s.lstrip()`: the suffix of `s` left once leading whitespace is removed. */
  function LStrip(s: string): (r: string)
    ensures |r| <= |s|
    ensures r == s[|s| - |r|..]
    ensures AllSpace(s[..|s| - |r|])
    ensures |r| > 0 ==> !IsSpace(r[0])
  {
    if |s| > 0 && IsSpace(s[0]) then
      var r := LStrip(s[1..]);
      assert s[1..][..|s[1..]| - |r|] == s[1..|s| - |r|];
      r
    else s
  }

  /** `s.rstrip()`: the prefix of `s` left once trailing whitespace is removed. */
  function RStrip(s: string): (r: string)
    ensures |r| <= |s|
    ensures r == s[..|r|]
    ensures AllSpace(s[|r|..])
    ensures |r| > 0 ==> !IsSpace(r[|r| - 1])
  {
    if |s| > 0 && IsSpace(s[|s| - 1]) then
      var r := RStrip(s[..|s| - 1]);
      assert s[..|s| - 1][|r|..] + [s[|s| - 1]] == s[|r|..];
      r
    else s
  }

  /** `s` is `r` padded on both sides by whitespace, with `r` starting at `i`. */
  predicate PaddedAt(s: string, r: string, i: int) {
    0 <= i && i + |r| <= |s| && s[i..i + |r|] == r && AllSpace(s[..i]) && AllSpace(s[i + |r|..])
  }

  /** `s.strip()`. */
  function Strip(s: string): string {
    RStrip(LStrip(s))
  }

  /** What `strip` leaves is `s` without its whitespace padding, and it
      neither starts nor ends with whitespace. */
  lemma StripPadded(s: string)
    ensures PaddedAt(s, Strip(s), |s| - |LStrip(s)|)
    ensures var r := Strip(s); |r| > 0 ==> !IsSpace(r[0]) && !IsSpace(r[|r| - 1])
  {
    var l := LStrip(s);
    var r := RStrip(l);
    PaddedFromParts(s, l, r);
    if |r| > 0 {
      assert r[0] == l[0];
    }
  }

  /** `r` sits in `s` between whitespace when it is a prefix of a suffix
      of `s` and only whitespace was cut off on either side. */
  lemma PaddedFromParts(s: string, l: string, r: string)
    requires |l| <= |s| && l == s[|s| - |l|..] && AllSpace(s[..|s| - |l|])
    requires |r| <= |l| && r == l[..|r|] && AllSpace(l[|r|..])
    ensures PaddedAt(s, r, |s| - |l|)
  {
    var i := |s| - |l|;
    assert s[i..i + |r|] == r;
    assert s[i + |r|..] == l[|r|..];
  }

  lemma {:induction false} LStripSpacePrefix(w: string, t: string)
    requires AllSpace(w)
    ensures LStrip(w + t) == LStrip(t)
  {
    if |w| > 0 {
      assert IsSpace((w + t)[0]);
      assert (w + t)[1..] == w[1..] + t;
      calc {
        LStrip(w + t);
        LStrip(w[1..] + t);
        { LStripSpacePrefix(w[1..], t); }
        LStrip(t);
      }
    } else {
      assert w + t == t;
    }
  }

  lemma {:induction false} RStripSpaceSuffix(t: string, w: string)
    requires AllSpace(w)
    ensures RStrip(t + w) == RStrip(t)
  {
    if |w| > 0 {
      assert IsSpace((t + w)[|t + w| - 1]);
      assert (t + w)[..|t + w| - 1] == t + w[..|w| - 1];
      calc {
        RStrip(t + w);
        RStrip(t + w[..|w| - 1]);
        { RStripSpaceSuffix(t, w[..|w| - 1]); }
        RStrip(t);
      }
    } else {
      assert t + w == t;
    }
  }

  lemma {:induction false} LStripAppend(t: string, w: string)
    requires !AllSpace(t)
    ensures LStrip(t + w) == LStrip(t) + w
  {
    if IsSpace(t[0]) {
      assert (t + w)[1..] == t[1..] + w;
      LStripAppend(t[1..], w);
    }
  }

  lemma LStripOfSpace(w: string)
    requires AllSpace(w)
    ensures LStrip(w) == ""
  {
  }

  /** Surrounding whitespace never changes what `strip` returns. */
  lemma {:induction false} StripIgnoresPadding(w1: string, s: string, w2: string)
    requires AllSpace(w1) && AllSpace(w2)
    ensures Strip(w1 + s + w2) == Strip(s)
  {
    assert w1 + s + w2 == w1 + (s + w2);
    LStripSpacePrefix(w1, s + w2);
    if AllSpace(s) {
      assert AllSpace(s + w2);
      LStripOfSpace(s + w2);
      LStripOfSpace(s);
    } else {
      LStripAppend(s, w2);
      RStripSpaceSuffix(LStrip(s), w2);
    }
  }

  /** A string that neither starts nor ends with whitespace is its own strip. */
  lemma StripUnpadded(s: string)
    requires |s| > 0 && !IsSpace(s[0]) && !IsSpace(s[|s| - 1])
    ensures Strip(s) == s
  {
  }

  lemma StripIdempotent(s: string)
    ensures Strip(Strip(s)) == Strip(s)
  {
    var r := Strip(s);
    if |r| > 0 {
      assert LStrip(r) == r;
      assert RStrip(r) == r;
    }
  }

  // ---------------------------------------------------------------------------
  // `in`, startswith, endswith, find, rfind
  // ---------------------------------------------------------------------------

  predicate OccursAt(s: string, sub: string, i: int) {
    0 <= i && i + |sub| <= |s| && s[i..i + |sub|] == sub
  }

  /** `sub in s`. */
  predicate Contains(s: string, sub: string) {
    exists i :: 0 <= i <= |s| && OccursAt(s, sub, i)
  }

  predicate StartsWith(s: string, prefix: string) {
    |prefix| <= |s| && s[..|prefix|] == prefix
  }

  predicate EndsWith(s: string, suffix: string) {
    |suffix| <= |s| && s[|s| - |suffix|..] == suffix
  }

  lemma StartsWithConcat(x: string, y: string, prefix: string)
    requires StartsWith(x, prefix)
    ensures StartsWith(x + y, prefix)
  {
    assert (x + y)[..|prefix|] == x[..|prefix|];
  }

  lemma EndsWithConcat(x: string, y: string)
    ensures EndsWith(x + y, y)
  {
    assert (x + y)[|x + y| - |y|..] == y;
  }

  /** `s.find(c)`: the first index of `c`, or -1. */
  function FindChar(s: string, c: char): (r: int)
    ensures -1 <= r < |s|
    ensures r == -1 <==> c !in s
    ensures r >= 0 ==> s[r] == c && c !in s[..r]
  {
    if |s| == 0 then -1
    else if s[0] == c then 0
    else
      var k := FindChar(s[1..], c);
      assert s == [s[0]] + s[1..];
      if k == -1 then -1
      else
        assert s[..k + 1] == [s[0]] + s[1..][..k];
        k + 1
  }

  /** `s.rfind(c)`: the last index of `c`, or -1. */
  function RFindChar(s: string, c: char): (r: int)
    ensures -1 <= r < |s|
    ensures r == -1 <==> c !in s
    ensures r >= 0 ==> s[r] == c && c !in s[r + 1..]
  {
    if |s| == 0 then -1
    else if s[|s| - 1] == c then |s| - 1
    else
      var k := RFindChar(s[..|s| - 1], c);
      assert s == s[..|s| - 1] + [s[|s| - 1]];
      if k == -1 then -1
      else
        assert s[k + 1..] == s[..|s| - 1][k + 1..] + [s[|s| - 1]];
        k
  }

  // ---------------------------------------------------------------------------
  // sep.join(parts)
  // ---------------------------------------------------------------------------

  function Join(parts: seq<string>, sep: string): string {
    if |parts| == 0 then ""
    else if |parts| == 1 then parts[0]
    else parts[0] + sep + Join(parts[1..], sep)
  }

  /** A join of several parts is the first part, the separator, and the
      join of the rest. */
  lemma JoinAfterFirst(parts: seq<string>, sep: string)
    requires |parts| > 1
    ensures Join(parts, sep) == parts[0] + sep + Join(parts[1..], sep)
  {
  }

  lemma JoinStartsWithFirst(parts: seq<string>, sep: string)
    requires |parts| > 0
    ensures StartsWith(Join(parts, sep), parts[0])
    ensures |parts[0]| > 0 ==> Join(parts, sep)[0] == parts[0][0]
  {
    if |parts| > 1 {
      StartsWithConcat(parts[0], sep + Join(parts[1..], sep), parts[0]);
      assert parts[0] + sep + Join(parts[1..], sep) == parts[0] + (sep + Join(parts[1..], sep));
    }
  }

  /** The last `n` parts, joined, end the joined text. */
  lemma {:induction false} JoinEndsWithLast(parts: seq<string>, sep: string, n: nat)
    requires 0 < n <= |parts|
    ensures EndsWith(Join(parts, sep), Join(parts[|parts| - n..], sep))
  {
    if n == |parts| {
      assert parts[|parts| - n..] == parts;
    } else {
      JoinEndsWithLast(parts[1..], sep, n);
      assert parts[1..][|parts[1..]| - n..] == parts[|parts| - n..];
      EndsWithConcat(parts[0] + sep, Join(parts[1..], sep));
      var t := Join(parts[|parts| - n..], sep);
      var m := Join(parts[1..], sep);
      assert EndsWith(m, t);
      assert (parts[0] + sep + m)[|parts[0] + sep + m| - |t|..] == m[|m| - |t|..];
    }
  }

  // ---------------------------------------------------------------------------
  // str(n) for integers
  // ---------------------------------------------------------------------------

  predicate IsDigit(c: char) {
    '0' <= c <= '9'
  }

  function DigitChar(d: nat): (c: char)
    requires d < 10
    ensures IsDigit(c) && c as int - '0' as int == d
  {
    (d + '0' as int) as char
  }

  /** The decimal numeral of `n`, as `str(n)` prints it. */
  function NatToString(n: nat): (r: string)
    ensures |r| > 0
    ensures forall i :: 0 <= i < |r| ==> IsDigit(r[i])
  {
    if n < 10 then [DigitChar(n)] else NatToString(n / 10) + [DigitChar(n % 10)]
  }

  /** `str(i)` for a Python int. */
  function IntToString(i: int): string {
    if i < 0 then "-" + NatToString(-i) else NatToString(i)
  }

  /** The value of a string of decimal digits. */
  function DigitsValue(s: string): nat
    requires forall i :: 0 <= i < |s| ==> IsDigit(s[i])
  {
    if |s| == 0 then 0
    else
      assert IsDigit(s[|s| - 1]);
      DigitsValue(s[..|s| - 1]) * 10 + (s[|s| - 1] as int - '0' as int)
  }

  lemma {:induction false} NatToStringRoundTrip(n: nat)
    ensures DigitsValue(NatToString(n)) == n
  {
    if n >= 10 {
      var r := NatToString(n);
      assert r[..|r| - 1] == NatToString(n / 10);
      NatToStringRoundTrip(n / 10);
    }
  }

  /** Distinct numbers print as distinct numerals. */
  lemma NatToStringInjective(a: nat, b: nat)
    requires NatToString(a) == NatToString(b)
    ensures a == b
  {
    NatToStringRoundTrip(a);
    NatToStringRoundTrip(b);
  }
}
