/**
 * Decimal digit strings: JavaScript's String(n) for a non-negative integer, its
 * inverse, and the shape of the six-digit one-time codes the server issues.
 */
module Decimal {

  predicate IsDigit(c: char) {
    '0' <= c <= '9'
  }

  predicate AllDigits(s: string) {
    forall i :: 0 <= i < |s| ==> IsDigit(s[i])
  }

  function DigitChar(d: nat): (c: char)
    requires d < 10
  {
    (48 + d) as char
  }

  function DigitValue(c: char): (d: nat)
    requires IsDigit(c)
  {
    c as int - 48
  }

  function Pow10(k: nat): (p: nat)
    ensures p >= 1
  {
    if k == 0 then 1 else 10 * Pow10(k - 1)
  }

  /** String(n): the decimal digits of n, most significant first, without leading zeros. */
  function DecimalString(n: nat): (s: string)
    ensures |s| >= 1 && AllDigits(s)
    ensures s[0] == '0' ==> n == 0
    decreases n
  {
    if n < 10 then [DigitChar(n)] else DecimalString(n / 10) + [DigitChar(n % 10)]
  }

  /** The value a string of decimal digits denotes. */
  function ParseDecimal(s: string): (n: nat)
    requires AllDigits(s)
    decreases |s|
  {
    if s == [] then 0 else 10 * ParseDecimal(s[..|s| - 1]) + DigitValue(s[|s| - 1])
  }

  lemma {:induction false} ParseDecimalString(n: nat)
    ensures ParseDecimal(DecimalString(n)) == n
    decreases n
  {
    if n >= 10 {
      ParseDecimalString(n / 10);
      var s := DecimalString(n);
      assert s[..|s| - 1] == DecimalString(n / 10);
    }
  }

  /** Distinct values have distinct decimal strings. */
  lemma DecimalStringInjective(a: nat, b: nat)
    requires DecimalString(a) == DecimalString(b)
    ensures a == b
  {
    ParseDecimalString(a);
    ParseDecimalString(b);
  }

  /** A number with k + 1 digits has a decimal string of length k + 1. */
  lemma {:induction false} DecimalStringLength(n: nat, k: nat)
    requires Pow10(k) <= n < Pow10(k + 1)
    ensures |DecimalString(n)| == k + 1
    decreases k
  {
    if k > 0 {
      assert Pow10(k) == 10 * Pow10(k - 1);
      assert Pow10(k + 1) == 10 * Pow10(k);
      DecimalStringLength(n / 10, k - 1);
    }
  }

  /** A one-time code as the verification flow stores it: six digits, the first not zero. */
  predicate IsOtpCode(s: string) {
    |s| == 6 && AllDigits(s) && s[0] != '0'
  }

  /** Every draw the code generator can make yields a six-digit code that denotes the draw. */
  lemma OtpCodeOfDraw(draw: nat)
    requires 100000 <= draw <= 999999
    ensures IsOtpCode(DecimalString(draw))
    ensures ParseDecimal(DecimalString(draw)) == draw
  {
    assert Pow10(5) == 100000 && Pow10(6) == 1000000;
    DecimalStringLength(draw, 5);
    ParseDecimalString(draw);
  }

  /** Conversely, every six-digit code is the decimal string of a draw in range. */
  lemma {:induction false} OtpCodeIsDraw(s: string)
    requires IsOtpCode(s)
    ensures 100000 <= ParseDecimal(s) <= 999999
    ensures DecimalString(ParseDecimal(s)) == s
  {
    ParseBounds(s);
    StringOfParse(s);
  }

  lemma {:induction false} ParseBounds(s: string)
    requires AllDigits(s) && |s| >= 1
    ensures ParseDecimal(s) < Pow10(|s|)
    ensures s[0] != '0' ==> Pow10(|s| - 1) <= ParseDecimal(s)
    decreases |s|
  {
    if |s| > 1 {
      var p := s[..|s| - 1];
      ParseBounds(p);
      assert p[0] == s[0];
    }
  }

  lemma {:induction false} StringOfParse(s: string)
    requires AllDigits(s) && |s| >= 1 && (s[0] != '0' || |s| == 1)
    ensures DecimalString(ParseDecimal(s)) == s
    decreases |s|
  {
    if |s| > 1 {
      var p := s[..|s| - 1];
      assert p[0] == s[0];
      ParseBounds(p);
      StringOfParse(p);
      var n := ParseDecimal(s);
      assert n / 10 == ParseDecimal(p) && n % 10 == DigitValue(s[|s| - 1]);
    }
  }
}
