/** Decimal rendering of integers, as Java's string concatenation does it
    ("(" + id + ")" calls Long.toString / Integer.toString): an optional
    minus sign followed by the digits, with no leading zero. Parsing the
    digits back is the partner that shows the rendering loses nothing. */
module Decimal {

  predicate IsDigit(c: char) {
    '0' <= c <= '9'
  }

  predicate AllDigits(s: string) {
    forall i :: 0 <= i < |s| ==> IsDigit(s[i])
  }

  function DigitChar(d: int): (c: char)
    requires 0 <= d < 10
    ensures IsDigit(c) && DigitValue(c) == d
  {
    (48 + d) as char
  }

  function DigitValue(c: char): (d: int)
    requires IsDigit(c)
    ensures 0 <= d < 10
  {
    c as int - 48
  }

  /** Digits of a natural number, most significant first. */
  function NatToString(n: nat): (s: string)
    ensures 1 <= |s| && AllDigits(s)
    ensures s[0] == '0' <==> n == 0
    ensures n < 10 <==> |s| == 1
  {
    if n < 10 then [DigitChar(n)] else NatToString(n / 10) + [DigitChar(n % 10)]
  }

  /** Java's decimal rendering of an int or long: a minus sign for negatives, then the digits of the magnitude. */
  function IntToString(x: int): (s: string)
    ensures 1 <= |s|
    ensures s[0] == '-' <==> x < 0
    ensures AllDigits(if x < 0 then s[1..] else s)
  {
    if x < 0 then "-" + NatToString(-x) else NatToString(x)
  }

  /** The value of a string of digits. */
  function ParseNat(s: string): nat
    requires AllDigits(s)
  {
    if s == [] then 0 else ParseNat(s[..|s| - 1]) * 10 + DigitValue(s[|s| - 1])
  }

  /** The round trip on natural numbers: their digits parse back to them. */
  lemma {:induction false} ParseNatToString(n: nat)
    ensures ParseNat(NatToString(n)) == n
  {
    var s := NatToString(n);
    if n >= 10 {
      ParseNatToString(n / 10);
      assert s[..|s| - 1] == NatToString(n / 10);
    }
  }

  /** A canonical string of digits (no leading zero) is the rendering of its value. */
  lemma {:induction false} ParseNatCanonical(s: string)
    requires 1 <= |s| && AllDigits(s) && (|s| > 1 ==> s[0] != '0')
    ensures NatToString(ParseNat(s)) == s
  {
    if |s| > 1 {
      var init := s[..|s| - 1];
      ParseNatCanonical(init);
      var v := ParseNat(init);
      var n := ParseNat(s);
      assert n / 10 == v && n % 10 == DigitValue(s[|s| - 1]);
      assert s == init + [s[|s| - 1]];
    }
  }

  /** The text of an integer states its value: after the sign, the digits parse back to the magnitude. */
  lemma ParseIntToString(x: int)
    ensures x < 0 ==> ParseNat(IntToString(x)[1..]) == -x
    ensures x >= 0 ==> ParseNat(IntToString(x)) == x
  {
    if x < 0 {
      var n: nat := -x;
      NegativeDigits(x);
      ParseNatToString(n);
      assert ParseNat(IntToString(x)[1..]) == ParseNat(NatToString(n));
    } else {
      NonNegativeDigits(x);
      ParseNatToString(x);
    }
  }

  /** Distinct naturals have distinct digits. */
  lemma NatToStringInjective(a: nat, b: nat)
    requires NatToString(a) == NatToString(b)
    ensures a == b
  {
    ParseNatToString(a);
    ParseNatToString(b);
  }

  /** A negative number renders as its magnitude's digits after the sign. */
  lemma NegativeDigits(x: int)
    requires x < 0
    ensures IntToString(x)[1..] == NatToString(-x)
  {
    var d := NatToString(-x);
    assert IntToString(x) == "-" + d;
  }

  /** A non-negative number renders as its digits alone. */
  lemma NonNegativeDigits(x: int)
    requires x >= 0
    ensures IntToString(x) == NatToString(x)
  {
  }

  /** Distinct integers render as distinct strings: the sign is the first
      character and the digits parse back to the magnitude. */
  lemma IntToStringInjective(x: int, y: int)
    requires IntToString(x) == IntToString(y)
    ensures x == y
  {
    if x < 0 {
      NegativeDigits(x);
      NegativeDigits(y);
      NatToStringInjective(-x, -y);
    } else {
      assert y >= 0;
      NonNegativeDigits(x);
      NonNegativeDigits(y);
      NatToStringInjective(x, y);
    }
  }
}
