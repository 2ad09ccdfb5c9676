/**
 * The java.lang.String operations the library relies on: isBlank, strip,
 * toUpperCase, equalsIgnoreCase, and the decimal text of a long
 * (String.valueOf on a Long attribute value).
 */
module JavaStrings {

  /** A Java long. */
  type Long = n: int | -0x8000_0000_0000_0000 <= n < 0x8000_0000_0000_0000

  /**
   * Character.isWhitespace: the Unicode space, line and paragraph separators
   * other than the non-breaking ones (U+00A0, U+2007, U+202F), plus the
   * control characters U+0009..U+000D and U+001C..U+001F.
   */
  predicate IsWhitespace(c: char) {
    || '\U{0009}' <= c <= '\U{000D}'
    || '\U{001C}' <= c <= '\U{0020}'
    || c == '\U{1680}'
    || '\U{2000}' <= c <= '\U{2006}'
    || '\U{2008}' <= c <= '\U{200A}'
    || c == '\U{2028}' || c == '\U{2029}' || c == '\U{205F}' || c == '\U{3000}'
  }

  /** String.isBlank: empty, or made of whitespace only. */
  predicate IsBlank(s: string) {
    forall i :: 0 <= i < |s| ==> IsWhitespace(s[i])
  }

  /** String.stripLeading: the suffix of s left after its leading whitespace. */
  function StripLeading(s: string): (r: string)
    ensures |r| <= |s| && r == s[|s| - |r|..]
    ensures IsBlank(s[..|s| - |r|])
    ensures r == [] || !IsWhitespace(r[0])
  {
    if |s| > 0 && IsWhitespace(s[0]) then
      var r := StripLeading(s[1..]);
      assert s[..|s| - |r|] == [s[0]] + s[1..][..|s| - 1 - |r|];
      r
    else
      s
  }

  /** String.stripTrailing: the prefix of s left after its trailing whitespace. */
  function StripTrailing(s: string): (r: string)
    ensures |r| <= |s| && r == s[..|r|]
    ensures IsBlank(s[|r|..])
    ensures r == [] || !IsWhitespace(r[|r| - 1])
  {
    if |s| > 0 && IsWhitespace(s[|s| - 1]) then
      var r := StripTrailing(s[..|s| - 1]);
      assert s[|r|..] == s[..|s| - 1][|r|..] + [s[|s| - 1]];
      r
    else
      s
  }

  /** String.strip: s without its leading and trailing whitespace. */
  function Strip(s: string): (r: string)
    ensures r == [] <==> IsBlank(s)
    ensures r == [] || (!IsWhitespace(r[0]) && !IsWhitespace(r[|r| - 1]))
  {
    var t := StripLeading(s);
    var k := |s| - |t|;
    var r := StripTrailing(t);
    if r == [] then
      assert t == [] && s[..k] == s;
      r
    else
      assert r[0] == t[0];
      r
  }

  /** A string that neither starts nor ends with whitespace is its own strip. */
  lemma StripOfTrimmed(s: string)
    requires s != [] && !IsWhitespace(s[0]) && !IsWhitespace(s[|s| - 1])
    ensures Strip(s) == s
  {
    assert StripLeading(s) == s;
  }

  /** Leading whitespace does not change what strip leaves. */
  lemma {:induction false} StripLeadingAfterBlank(p: string, x: string)
    requires IsBlank(p)
    ensures StripLeading(p + x) == StripLeading(x)
    decreases |p|
  {
    if p != [] {
      assert (p + x)[0] == p[0] && IsWhitespace(p[0]);
      assert (p + x)[1..] == p[1..] + x;
      StripLeadingAfterBlank(p[1..], x);
    } else {
      assert p + x == x;
    }
  }

  /** Trailing whitespace does not change what strip leaves. */
  lemma {:induction false} StripTrailingBeforeBlank(x: string, q: string)
    requires IsBlank(q)
    ensures StripTrailing(x + q) == StripTrailing(x)
    decreases |q|
  {
    if q != [] {
      assert (x + q)[|x + q| - 1] == q[|q| - 1] && IsWhitespace(q[|q| - 1]);
      assert (x + q)[..|x + q| - 1] == x + q[..|q| - 1];
      StripTrailingBeforeBlank(x, q[..|q| - 1]);
    } else {
      assert x + q == x;
    }
  }

  /** Once a non-blank s has been stripped on the left, text after it is kept as is. */
  lemma {:induction false} StripLeadingKeepsTail(s: string, q: string)
    requires !IsBlank(s)
    ensures StripLeading(s + q) == StripLeading(s) + q
    decreases |s|
  {
    assert (s + q)[0] == s[0];
    if IsWhitespace(s[0]) {
      assert (s + q)[1..] == s[1..] + q;
      StripLeadingKeepsTail(s[1..], q);
    }
  }

  /** strip ignores any whitespace padding around its argument. */
  lemma StripIgnoresPadding(p: string, s: string, q: string)
    requires IsBlank(p) && IsBlank(q)
    ensures Strip(p + s + q) == Strip(s)
  {
    assert p + s + q == p + (s + q);
    StripLeadingAfterBlank(p, s + q);
    if IsBlank(s) {
      assert IsBlank(s + q);
    } else {
      StripLeadingKeepsTail(s, q);
      StripTrailingBeforeBlank(StripLeading(s), q);
    }
  }

  /** Character.toUpperCase, for the ASCII letters. */
  function UpperChar(c: char): char {
    if 'a' <= c <= 'z' then (c as int - 32) as char else c
  }

  /** String.toUpperCase, letter by letter (ASCII case mapping). */
  function ToUpperCase(s: string): (r: string)
    ensures |r| == |s|
    ensures forall i :: 0 <= i < |s| ==> r[i] == UpperChar(s[i])
  {
    seq(|s|, i requires 0 <= i < |s| => UpperChar(s[i]))
  }

  /** String.equalsIgnoreCase: same length, and equal letter by letter up to case. */
  predicate EqualsIgnoreCase(a: string, b: string) {
    |a| == |b| && forall i :: 0 <= i < |a| ==> UpperChar(a[i]) == UpperChar(b[i])
  }

  lemma EqualsIgnoreCaseIsEqualUpperCase(a: string, b: string)
    ensures EqualsIgnoreCase(a, b) <==> ToUpperCase(a) == ToUpperCase(b)
  {
    if ToUpperCase(a) == ToUpperCase(b) {
      assert forall i :: 0 <= i < |a| ==> UpperChar(a[i]) == ToUpperCase(b)[i];
    }
  }

  lemma UpperCharKeepsWhitespace(c: char)
    ensures IsWhitespace(UpperChar(c)) == IsWhitespace(c)
  {
  }

  lemma UpperCaseKeepsBlankness(s: string)
    ensures IsBlank(ToUpperCase(s)) <==> IsBlank(s)
  {
    forall i | 0 <= i < |s| ensures IsWhitespace(ToUpperCase(s)[i]) == IsWhitespace(s[i]) {
      UpperCharKeepsWhitespace(s[i]);
    }
  }

  /** Upper-casing leaves whitespace where it was, so it commutes with strip. */
  lemma {:induction false} StripLeadingOfUpperCase(s: string)
    ensures StripLeading(ToUpperCase(s)) == ToUpperCase(StripLeading(s))
    decreases |s|
  {
    if |s| > 0 {
      UpperCharKeepsWhitespace(s[0]);
      assert ToUpperCase(s)[1..] == ToUpperCase(s[1..]);
      StripLeadingOfUpperCase(s[1..]);
    }
  }

  lemma {:induction false} StripTrailingOfUpperCase(s: string)
    ensures StripTrailing(ToUpperCase(s)) == ToUpperCase(StripTrailing(s))
    decreases |s|
  {
    if |s| > 0 {
      UpperCharKeepsWhitespace(s[|s| - 1]);
      assert ToUpperCase(s)[..|s| - 1] == ToUpperCase(s[..|s| - 1]);
      StripTrailingOfUpperCase(s[..|s| - 1]);
    }
  }

  lemma StripOfUpperCase(s: string)
    ensures Strip(ToUpperCase(s)) == ToUpperCase(Strip(s))
  {
    StripLeadingOfUpperCase(s);
    StripTrailingOfUpperCase(StripLeading(s));
  }

  predicate IsDigit(c: char) {
    '0' <= c <= '9'
  }

  function DigitChar(d: nat): (c: char)
    requires d < 10
    ensures IsDigit(c) && c as int - '0' as int == d
  {
    ('0' as int + d) as char
  }

  /** The decimal digits of n, most significant first, without leading zeros. */
  function NatToString(n: nat): (r: string)
    ensures |r| >= 1 && forall i :: 0 <= i < |r| ==> IsDigit(r[i])
    ensures r[0] == '0' ==> n == 0
    decreases n
  {
    if n < 10 then [DigitChar(n)] else NatToString(n / 10) + [DigitChar(n % 10)]
  }

  /** The number a string of decimal digits denotes. */
  function DecimalValue(s: string): nat
    requires forall i :: 0 <= i < |s| ==> IsDigit(s[i])
  {
    if s == [] then 0
    else
      assert IsDigit(s[|s| - 1]);
      DecimalValue(s[..|s| - 1]) * 10 + (s[|s| - 1] as int - '0' as int)
  }

  lemma {:induction false} NatToStringRoundTrip(n: nat)
    ensures DecimalValue(NatToString(n)) == n
    decreases n
  {
    if n >= 10 {
      var r := NatToString(n);
      assert r[..|r| - 1] == NatToString(n / 10);
      NatToStringRoundTrip(n / 10);
    }
  }

  /** Long.toString: an optional minus sign followed by the decimal digits. */
  function LongToString(n: Long): string {
    if n < 0 then "-" + NatToString(-(n as int)) else NatToString(n)
  }

  /** Long.parseLong on the strings LongToString produces. */
  function ParseLong(s: string): int
    requires s != [] && (s[0] == '-' ==> |s| > 1)
    requires forall i :: (if s[0] == '-' then 1 else 0) <= i < |s| ==> IsDigit(s[i])
  {
    if s[0] == '-' then -(DecimalValue(s[1..]) as int) else DecimalValue(s)
  }

  lemma LongToStringRoundTrip(n: Long)
    ensures var s := LongToString(n); s != [] && (s[0] == '-' ==> |s| > 1) && ParseLong(s) == n
  {
    var s := LongToString(n);
    if n < 0 {
      assert s[1..] == NatToString(-(n as int));
      NatToStringRoundTrip(-(n as int));
    } else {
      NatToStringRoundTrip(n);
    }
  }
}
