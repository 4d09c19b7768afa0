/** Text helpers shared by the model: Python's decimal rendering of integers
    (what `str(n)` and an f-string print for an int) and Python's substring
    test `needle in haystack` on strings. */
module TextUtil {

  /** The character Python prints for a digit `d`. */
  function Digit(d: nat): (c: char)
    requires d < 10
    ensures '0' <= c <= '9'
  {
    "0123456789"[d]
  }

  /** The value of a decimal digit character. */
  function DigitValue(c: char): (d: nat)
    requires '0' <= c <= '9'
    ensures d < 10
  {
    (c as int - '0' as int) as nat
  }

  predicate IsDigits(s: string) {
    forall i :: 0 <= i < |s| ==> '0' <= s[i] <= '9'
  }

  /** `str(n)` for a non-negative int: the shortest decimal numeral. */
  function NatText(n: nat): (s: string)
    ensures |s| >= 1 && IsDigits(s)
    ensures s[0] == '0' ==> n == 0
    decreases n
  {
    if n < 10 then [Digit(n)] else NatText(n / 10) + [Digit(n % 10)]
  }

  /** `str(i)` for any int: a minus sign in front of the magnitude when negative. */
  function IntText(i: int): (s: string)
    ensures |s| >= 1
    ensures i < 0 <==> s[0] == '-'
  {
    if i < 0 then "-" + NatText(-i) else NatText(i)
  }

  /** Reads a string of decimal digits back as a number (the partner of NatText). */
  function ParseNat(s: string): nat
    requires IsDigits(s)
  {
    if |s| == 0 then 0 else ParseNat(s[..|s| - 1]) * 10 + DigitValue(s[|s| - 1])
  }

  /** Reads an optional minus sign followed by digits (the partner of IntText). */
  function ParseInt(s: string): int
    requires |s| >= 1
    requires s[0] == '-' ==> IsDigits(s[1..])
    requires s[0] != '-' ==> IsDigits(s)
  {
    if s[0] == '-' then -(ParseNat(s[1..]) as int) else ParseNat(s)
  }

  lemma {:induction false} ParseNatText(n: nat)
    ensures ParseNat(NatText(n)) == n
    decreases n
  {
    if n >= 10 {
      var s := NatText(n);
      assert s[..|s| - 1] == NatText(n / 10);
      ParseNatText(n / 10);
    }
  }

  /** A negative integer's text reads back as the integer. */
  lemma ParseNegativeText(i: int)
    requires i < 0
    ensures IntText(i)[0] == '-' && IsDigits(IntText(i)[1..]) && ParseInt(IntText(i)) == i
  {
    var t := NatText(-i);
    assert IntText(i) == "-" + t;
    assert IntText(i)[1..] == t;
    ParseNatText(-i);
  }

  /** A non-negative integer's text reads back as the integer. */
  lemma ParseNonNegativeText(i: int)
    requires i >= 0
    ensures IntText(i)[0] != '-' && IsDigits(IntText(i)) && ParseInt(IntText(i)) == i
  {
    var t := NatText(i);
    assert IntText(i) == t;
    ParseNatText(i);
  }

  /** The decimal text of an integer determines the integer. */
  lemma ParseIntText(i: int)
    ensures var s := IntText(i);
      (s[0] == '-' ==> IsDigits(s[1..])) && (s[0] != '-' ==> IsDigits(s)) && ParseInt(s) == i
  {
    if i < 0 {
      ParseNegativeText(i);
    } else {
      ParseNonNegativeText(i);
    }
  }

  /** Distinct integers print differently. */
  lemma IntTextInjective(i: int, j: int)
    requires IntText(i) == IntText(j)
    ensures i == j
  {
    ParseIntText(i);
    ParseIntText(j);
  }

  predicate IsPrefix(p: string, s: string) {
    |p| <= |s| && s[..|p|] == p
  }

  predicate IsSuffix(p: string, s: string) {
    |p| <= |s| && s[|s| - |p|..] == p
  }

  /** Python's `needle in haystack` for two strings. */
  predicate IsInfix(needle: string, haystack: string)
    decreases |haystack|
  {
    IsPrefix(needle, haystack) || (|haystack| > 0 && IsInfix(needle, haystack[1..]))
  }

  /** Whatever stands in the middle of a concatenation occurs in it. */
  lemma {:induction false} InfixOfConcat(a: string, b: string, c: string)
    ensures IsInfix(b, a + b + c)
    decreases |a|
  {
    if |a| == 0 {
      assert a + b + c == b + c;
      assert (b + c)[..|b|] == b;
    } else {
      assert (a + b + c)[1..] == a[1..] + b + c;
      InfixOfConcat(a[1..], b, c);
    }
  }
}
