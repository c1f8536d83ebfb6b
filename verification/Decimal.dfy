/** Decimal numerals: the text of a natural number and its value, each inverse to the other. */
module Decimal {

  predicate IsDigit(c: char) { '0' <= c <= '9' }

  /** One or more decimal digits. */
  predicate AllDigits(s: string) {
    s != "" && forall i :: 0 <= i < |s| ==> IsDigit(s[i])
  }

  function Digit(d: nat): (c: char)
    requires d < 10
    ensures IsDigit(c) && DigitValue(c) == d
  {
    "0123456789"[d]
  }

  function DigitValue(c: char): (d: nat)
    requires IsDigit(c)
    ensures d < 10
  {
    c as int - '0' as int
  }

  /** The shortest numeral of n. */
  function Numeral(n: nat): (s: string)
    ensures AllDigits(s)
  {
    if n < 10 then [Digit(n)] else Numeral(n / 10) + [Digit(n % 10)]
  }

  /** The number a digit string denotes. */
  function Value(s: string): nat
    requires AllDigits(s)
  {
    var last := DigitValue(s[|s| - 1]);
    if |s| == 1 then last else 10 * Value(s[..|s| - 1]) + last
  }

  /** A numeral without leading zeros: "0" alone, or one that starts with another digit. */
  predicate Canonical(s: string) {
    s == "0" || (AllDigits(s) && s[0] != '0')
  }

  lemma {:induction false} NumeralCanonical(n: nat)
    ensures Canonical(Numeral(n)) && (n > 0 ==> Numeral(n)[0] != '0')
  {
    if n >= 10 { NumeralCanonical(n / 10); }
  }

  lemma {:induction false} ValueOfNumeral(n: nat)
    ensures Value(Numeral(n)) == n
  {
    if n >= 10 {
      ValueOfNumeral(n / 10);
      var s := Numeral(n);
      assert s[..|s| - 1] == Numeral(n / 10);
    }
  }

  lemma {:induction false} ValuePositive(s: string)
    requires AllDigits(s) && s[0] != '0'
    ensures Value(s) > 0
  {
    if |s| > 1 { ValuePositive(s[..|s| - 1]); }
  }

  /** Canonical numerals are exactly the numerals of their values, so they denote distinct numbers. */
  lemma {:induction false} NumeralOfValue(s: string)
    requires Canonical(s)
    ensures AllDigits(s) && Numeral(Value(s)) == s
  {
    if |s| > 1 {
      var init := s[..|s| - 1];
      assert AllDigits(init);
      NumeralOfValue(init);
      ValuePositive(init);
      assert s == init + [s[|s| - 1]];
    }
  }

  /** Larger numbers never have shorter numerals. */
  lemma {:induction false} NumeralLengthMonotone(m: nat, n: nat)
    requires m <= n
    ensures |Numeral(m)| <= |Numeral(n)|
  {
    if m >= 10 { NumeralLengthMonotone(m / 10, n / 10); }
  }
}
