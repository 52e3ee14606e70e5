/**
 * Decimal numerals: the text a template literal gives a non-negative integer,
 * and the value `parseInt(text, 10)` reads from a string of digits.
 */
module Decimal {

  predicate IsDigit(c: char) { '0' <= c <= '9' }

  predicate AllDigits(s: string) { forall k :: 0 <= k < |s| ==> IsDigit(s[k]) }

  /** A numeral without a leading zero, as `[1-9]\d*` matches. */
  predicate IsNumeral(s: string) { s != [] && AllDigits(s) && s[0] != '0' }

  function DigitChar(d: nat): (c: char)
    requires d < 10
    ensures IsDigit(c) && c as int - 48 == d
  {
    (48 + d) as char
  }

  /** The shortest decimal numeral of n. */
  function Numeral(n: nat): (s: string)
  {
    if n < 10 then [DigitChar(n)] else Numeral(n / 10) + [DigitChar(n % 10)]
  }

  /** The value of a string of decimal digits. */
  function NumeralValue(s: string): nat
    requires AllDigits(s)
  {
    if s == [] then 0 else NumeralValue(s[..|s| - 1]) * 10 + (s[|s| - 1] as int - 48)
  }

  lemma NumeralStep(n: nat) returns (q: nat, d: nat)
    requires n >= 10
    ensures d < 10 && n == 10 * q + d && 1 <= q < n
    ensures Numeral(n) == Numeral(q) + [DigitChar(d)]
  {
    q, d := n / 10, n % 10;
  }

  /** The numeral of a positive number is a digit string without a leading zero. */
  lemma {:induction false} NumeralWellFormed(n: nat)
    ensures AllDigits(Numeral(n))
    ensures n >= 1 ==> IsNumeral(Numeral(n))
  {
    if n >= 10 {
      var q, d := NumeralStep(n);
      NumeralWellFormed(q);
      assert Numeral(n)[0] == Numeral(q)[0];
    }
  }

  /** Reading a numeral back gives the number it was written from. */
  lemma {:induction false} NumeralRoundTrip(n: nat)
    ensures AllDigits(Numeral(n)) && NumeralValue(Numeral(n)) == n
  {
    NumeralWellFormed(n);
    if n < 10 {
      assert Numeral(n)[..0] == [];
    } else {
      var q, d := NumeralStep(n);
      NumeralRoundTrip(q);
      var s := Numeral(n);
      assert s[..|s| - 1] == Numeral(q);
    }
  }

  /** A numeral without a leading zero denotes a positive number. */
  lemma {:induction false} NumeralPositive(s: string)
    requires IsNumeral(s)
    ensures NumeralValue(s) >= 1
  {
    var p := s[..|s| - 1];
    if p != [] {
      assert p[0] == s[0];
      NumeralPositive(p);
    }
  }
}
