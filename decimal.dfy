/** Decimal rendering of worker numbers.

    Storage keeps a worker's slot number as a string (`"1"`), while the worker
    itself knows it as an integer; the ownership check compares the stored
    string with the decimal rendering of the integer. This module defines that
    rendering and proves that it is exactly the canonical decimal notation:
    it can be read back, and the only string it produces for `n` is the one
    without leading zeros. */
module Decimal {

  predicate IsDigit(c: char) {
    '0' <= c <= '9'
  }

  predicate AllDigits(s: string) {
    forall i :: 0 <= i < |s| ==> IsDigit(s[i])
  }

  /** A non-empty string of digits with no leading zero, except "0" itself. */
  predicate IsCanonicalDecimal(s: string) {
    |s| >= 1 && AllDigits(s) && (s[0] == '0' ==> |s| == 1)
  }

  function DigitChar(d: nat): (c: char)
    requires d < 10
    ensures IsDigit(c)
    ensures (c == '0') == (d == 0)
  {
    (('0' as int) + d) as char
  }

  function DigitValue(c: char): (d: nat)
    requires IsDigit(c)
    ensures d < 10
    ensures DigitChar(d) == c
  {
    (c as int) - ('0' as int)
  }

  /** The invariant-culture decimal rendering of a non-negative integer. */
  function NatToDecimal(n: nat): (s: string)
    ensures IsCanonicalDecimal(s)
    decreases n
  {
    if n < 10 then [DigitChar(n)]
    else NatToDecimal(n / 10) + [DigitChar(n % 10)]
  }

  /** The number a string of digits denotes, most significant digit first. */
  function DecimalValue(s: string): (v: nat)
    requires AllDigits(s)
  {
    if |s| == 0 then 0
    else DecimalValue(s[..|s| - 1]) * 10 + DigitValue(s[|s| - 1])
  }

  /** Reading back the rendering of `n` yields `n`. */
  lemma {:induction false} DecimalValueOfNatToDecimal(n: nat)
    ensures DecimalValue(NatToDecimal(n)) == n
    decreases n
  {
    var s := NatToDecimal(n);
    if n < 10 {
      assert s[..|s| - 1] == [];
    } else {
      DecimalValueOfNatToDecimal(n / 10);
      assert s[..|s| - 1] == NatToDecimal(n / 10);
    }
  }

  /** A digit string that does not start with '0' denotes a positive number. */
  lemma {:induction false} LeadingNonZeroIsPositive(s: string)
    requires |s| >= 1 && AllDigits(s) && s[0] != '0'
    ensures DecimalValue(s) >= 1
    decreases |s|
  {
    if |s| > 1 {
      LeadingNonZeroIsPositive(s[..|s| - 1]);
    }
  }

  /** Rendering the number a canonical decimal string denotes gives back the string. */
  lemma {:induction false} NatToDecimalOfDecimalValue(s: string)
    requires IsCanonicalDecimal(s)
    ensures NatToDecimal(DecimalValue(s)) == s
    decreases |s|
  {
    var p := s[..|s| - 1];
    var d := DigitValue(s[|s| - 1]);
    if |s| == 1 {
      assert p == [];
      assert s == [s[0]];
    } else {
      assert IsCanonicalDecimal(p);
      LeadingNonZeroIsPositive(p);
      NatToDecimalOfDecimalValue(p);
      var v := DecimalValue(s);
      assert v == DecimalValue(p) * 10 + d;
      assert v / 10 == DecimalValue(p) && v % 10 == d;
      assert s == p + [s[|s| - 1]];
    }
  }

  /** The rendering of `n` is `s` exactly when `s` is canonical decimal notation for `n`. */
  lemma NatToDecimalIsCanonicalNotation(n: nat, s: string)
    ensures NatToDecimal(n) == s <==> IsCanonicalDecimal(s) && DecimalValue(s) == n
  {
    if NatToDecimal(n) == s {
      DecimalValueOfNatToDecimal(n);
    }
    if IsCanonicalDecimal(s) && DecimalValue(s) == n {
      NatToDecimalOfDecimalValue(s);
    }
  }

  /** Distinct numbers have distinct renderings. */
  lemma NatToDecimalInjective(m: nat, n: nat)
    ensures NatToDecimal(m) == NatToDecimal(n) ==> m == n
  {
    DecimalValueOfNatToDecimal(m);
    DecimalValueOfNatToDecimal(n);
  }
}
