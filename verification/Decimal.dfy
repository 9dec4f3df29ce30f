// The decimal numerals in session, ticket and match identifiers.

module Decimal {

  function Digit(n: nat): (c: char)
    requires n < 10
    ensures '0' <= c <= '9'
  {
    '0' + n as char
  }

  predicate IsDigit(c: char) {
    '0' <= c <= '9'
  }

  function DigitValue(c: char): (n: nat)
    requires IsDigit(c)
    ensures n < 10 && Digit(n) == c
  {
    (c - '0') as nat
  }

  /** The digits of `n`; none for zero. */
  function Digits(n: nat): (s: string)
    ensures s == [] <==> n == 0
    ensures forall c | c in s :: IsDigit(c)
    ensures n > 0 ==> s[0] != '0'
  {
    if n == 0 then "" else Digits(n / 10) + [Digit(n % 10)]
  }

  function Numeral(n: nat): (s: string)
    ensures |s| > 0 && forall c | c in s :: IsDigit(c)
  {
    if n == 0 then "0" else Digits(n)
  }

  function Parse(s: string): nat
    requires forall c | c in s :: IsDigit(c)
  {
    if s == [] then 0 else 10 * Parse(s[..|s| - 1]) + DigitValue(s[|s| - 1])
  }

  lemma {:induction false} ParseDigits(n: nat)
    ensures Parse(Digits(n)) == n
  {
    if n > 0 {
      ParseDigits(n / 10);
      assert Digits(n)[..|Digits(n)| - 1] == Digits(n / 10);
    }
  }

  /** Parsing inverts printing, so different numbers print differently. */
  lemma ParseNumeral(n: nat)
    ensures Parse(Numeral(n)) == n
  {
    ParseDigits(n);
    if n == 0 {
      assert Parse("") == 0;
    }
  }

  lemma NumeralInjective(m: nat, n: nat)
    requires Numeral(m) == Numeral(n)
    ensures m == n
  {
    ParseNumeral(m);
    ParseNumeral(n);
  }

  lemma TenTimes(n: nat, d: nat)
    requires d < 10
    ensures (10 * n + d) / 10 == n && (10 * n + d) % 10 == d
  {}

  /** Printing inverts parsing on canonical numerals: digits without a leading zero. */
  lemma {:induction false} DigitsParse(s: string)
    requires forall c | c in s :: IsDigit(c)
    requires s != [] ==> s[0] != '0'
    ensures Digits(Parse(s)) == s
    ensures s != [] ==> Parse(s) > 0
  {
    if s != [] {
      var front, last := s[..|s| - 1], s[|s| - 1];
      DigitsParse(front);
      assert s == front + [last];
      TenTimes(Parse(front), DigitValue(last));
    }
  }

  function Pow10(k: nat): (p: nat)
    ensures p > 0
  {
    if k == 0 then 1 else 10 * Pow10(k - 1)
  }

  lemma {:induction false} DigitCount(n: nat, k: nat)
    requires n < Pow10(k)
    ensures |Digits(n)| <= k
  {
    if n > 0 && k > 0 {
      DigitCount(n / 10, k - 1);
    }
  }

  const MAX_INT64: int := 0x7FFF_FFFF_FFFF_FFFF

  lemma Int64HasNineteenDigits(n: nat)
    requires n <= MAX_INT64
    ensures |Digits(n)| <= 19
  {
    assert Pow10(5) == 100000;
    assert Pow10(10) == 1_00000_00000;
    assert Pow10(15) == 1_00000_00000_00000;
    assert Pow10(19) == 1_0000_00000_00000_00000;
    DigitCount(n, 19);
  }

  /** Prints a signed 64-bit integer into a buffer of twenty characters, from its end. A negative
      value prints as the empty string. */
  method FormatInt(value: int) returns (s: string)
    requires -MAX_INT64 - 1 <= value <= MAX_INT64
    ensures value >= 0 ==> s == Numeral(value)
    ensures value < 0 ==> s == ""
  {
    if value == 0 {
      return "0";
    }
    ghost var whole := if value > 0 then Digits(value) else "";
    assert |whole| <= 19 by {
      if value > 0 {
        Int64HasNineteenDigits(value);
      }
    }
    var buf := new char[20];
    var i, v := buf.Length, value;
    while v > 0
      invariant 0 <= i <= 20
      invariant value > 0 ==> v >= 0
      invariant v <= 0 ==> buf[i..] == whole
      invariant v > 0 ==> Digits(v) + buf[i..] == whole
    {
      ghost var tail := buf[i..];
      DigitsUnfold(v, tail);
      assert i > 0;
      i := i - 1;
      buf[i] := Digit(v % 10);
      assert buf[i..] == [Digit(v % 10)] + tail;
      v := v / 10;
    }
    return buf[i..];
  }

  /** The last digit moves from the number to the text behind it. */
  lemma DigitsUnfold(v: nat, tail: string)
    requires v > 0
    ensures Digits(v) + tail == Digits(v / 10) + ([Digit(v % 10)] + tail)
    ensures |Digits(v)| >= 1
    ensures v / 10 == 0 ==> Digits(v) + tail == [Digit(v % 10)] + tail
  {}
}
