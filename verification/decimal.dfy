/** Decimal renderings of numbers, as Python's `str(k)` produces them and as
    `str.isdigit` inspects them. Only the ASCII digits are modelled. */
module Decimal {

  predicate IsDigit(c: char) {
    '0' <= c <= '9'
  }

  /** `s.isdigit()`: non-empty and made of digits only. */
  predicate IsDigits(s: string) {
    |s| > 0 && forall i :: 0 <= i < |s| ==> IsDigit(s[i])
  }

  /** A digit string without a leading zero, so it names a number >= 1. */
  predicate IsPositiveDecimal(s: string) {
    IsDigits(s) && s[0] != '0'
  }

  function DigitChar(d: nat): (c: char)
    requires d < 10
    ensures IsDigit(c) && DigitValue(c) == d
  {
    (('0' as int) + d) as char
  }

  function DigitValue(c: char): (d: nat)
    requires IsDigit(c)
    ensures d < 10
  {
    c as int - '0' as int
  }

  /** `str(n)` for a non-negative integer. */
  function Show(n: nat): (s: string)
    ensures IsDigits(s)
    ensures n > 0 ==> s[0] != '0'
    ensures n == 0 ==> s == "0"
  {
    if n < 10 then [DigitChar(n)] else Show(n / 10) + [DigitChar(n % 10)]
  }

  /** The number a digit string denotes (`int(s)` on digit strings). */
  function Value(s: string): nat
    requires forall i :: 0 <= i < |s| ==> IsDigit(s[i])
  {
    if |s| == 0 then 0 else Value(s[..|s| - 1]) * 10 + DigitValue(s[|s| - 1])
  }

  /** Reading back the rendering of a number gives the number. */
  lemma {:induction false} ValueOfShow(n: nat)
    ensures Value(Show(n)) == n
  {
    if n >= 10 {
      var s := Show(n);
      assert s[..|s| - 1] == Show(n / 10);
      ValueOfShow(n / 10);
    }
  }

  /** A digit string without a leading zero denotes a positive number. */
  lemma {:induction false} PositiveValue(s: string)
    requires IsPositiveDecimal(s)
    ensures Value(s) >= 1
  {
    if |s| > 1 {
      PositiveValue(s[..|s| - 1]);
    }
  }

  /** Every digit string without a leading zero is the rendering of the
      number it denotes: these strings are exactly the renderings of the
      positive numbers. */
  lemma {:induction false} ShowOfValue(s: string)
    requires IsPositiveDecimal(s)
    ensures Show(Value(s)) == s
  {
    if |s| > 1 {
      var p := s[..|s| - 1];
      PositiveValue(p);
      ShowOfValue(p);
      var n := Value(s);
      assert n / 10 == Value(p) && n % 10 == DigitValue(s[|s| - 1]);
      assert Show(n) == p + [s[|s| - 1]];
    }
  }
}
