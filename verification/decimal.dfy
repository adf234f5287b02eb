/** Decimal rendering of integers, as Swift's string interpolation `"\(n)"`
    writes an `Int`: an optional minus sign, then digits without leading
    zeros. */
module Decimal {

  predicate IsDigit(c: char) {
    '0' <= c <= '9'
  }

  predicate AllDigits(s: string) {
    forall i :: 0 <= i < |s| ==> IsDigit(s[i])
  }

  function DigitChar(d: nat): (c: char)
    requires d < 10
    ensures IsDigit(c) && c as int - '0' as int == d
  {
    (48 + d) as char
  }

  /** The digits of `n`, most significant first. */
  function NatDigits(n: nat): (s: string)
    ensures |s| >= 1 && AllDigits(s)
    ensures s[0] == '0' ==> n == 0
    decreases n
  {
    if n < 10 then [DigitChar(n)] else NatDigits(n / 10) + [DigitChar(n % 10)]
  }

  /** The number a string of digits denotes. */
  function NatValue(s: string): nat
    requires AllDigits(s)
  {
    if s == [] then 0 else NatValue(s[..|s| - 1]) * 10 + (s[|s| - 1] as int - '0' as int)
  }

  /** `"\(n)"` for an `Int`. */
  function DecimalString(n: int): string {
    if n < 0 then "-" + NatDigits(-n) else NatDigits(n)
  }

  /** Reading the digits back gives the number. */
  lemma {:induction false} NatDigitsRoundTrip(n: nat)
    ensures NatValue(NatDigits(n)) == n
    decreases n
  {
    if n >= 10 {
      NatDigitsRoundTrip(n / 10);
      var s := NatDigits(n);
      assert s[..|s| - 1] == NatDigits(n / 10);
    }
  }

  /** The first character tells the sign. */
  lemma SignShown(n: int)
    ensures |DecimalString(n)| >= 1
    ensures DecimalString(n)[0] == '-' <==> n < 0
  {
    if n >= 0 {
      assert IsDigit(NatDigits(n)[0]);
    }
  }

  /** Distinct integers are written differently. */
  lemma DecimalStringInjective(a: int, b: int)
    ensures DecimalString(a) == DecimalString(b) ==> a == b
  {
    if DecimalString(a) == DecimalString(b) {
      SignShown(a);
      SignShown(b);
      assert a < 0 <==> b < 0;
      var na := if a < 0 then -a else a;
      var nb := if b < 0 then -b else b;
      assert NatDigits(na) == NatDigits(nb) by {
        if a < 0 {
          assert DecimalString(a)[1..] == NatDigits(na);
          assert DecimalString(b)[1..] == NatDigits(nb);
        }
      }
      NatDigitsRoundTrip(na);
      NatDigitsRoundTrip(nb);
    }
  }
}
