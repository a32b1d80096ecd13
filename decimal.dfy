/**
 * Runs of decimal digits and their values, shared by the regular-expression
 * model, `parseFloat` and the string-to-number coercion.
 */
module Decimal {
  import opened JsString

  /** End of the maximal run of digits in `s` that starts at index `i`. */
  function DigitsEnd(s: string, i: nat): (e: nat)
    requires i <= |s|
    ensures i <= e <= |s|
    ensures forall k :: i <= k < e ==> IsDigit(s[k])
    ensures e == |s| || !IsDigit(s[e])
    decreases |s| - i
  {
    if i < |s| && IsDigit(s[i]) then DigitsEnd(s, i + 1) else i
  }

  /** A run of digits ends exactly where the digits stop. */
  lemma {:induction false} DigitsEndAt(s: string, i: nat, e: nat)
    requires i <= e <= |s|
    requires forall k :: i <= k < e ==> IsDigit(s[k])
    requires e == |s| || !IsDigit(s[e])
    ensures DigitsEnd(s, i) == e
    decreases e - i
  {
    if i < e {
      DigitsEndAt(s, i + 1, e);
    }
  }

  function DigitValue(c: char): (v: nat)
    ensures v <= 9
  {
    if IsDigit(c) then c as int - '0' as int else 0
  }

  /** The value of a string of decimal digits, most significant first. */
  function DigitsValue(ds: string): (v: nat)
  {
    if ds == [] then 0 else DigitValue(ds[0]) * Pow10(|ds| - 1) + DigitsValue(ds[1..])
  }

  function Pow10(n: nat): (p: nat)
    ensures p >= 1
  {
    if n == 0 then 1 else 10 * Pow10(n - 1)
  }

  /** Every digit string is worth less than the next power of ten. */
  lemma {:induction false} DigitsValueBound(ds: string)
    ensures DigitsValue(ds) < Pow10(|ds|)
  {
    if ds != [] {
      DigitsValueBound(ds[1..]);
      var d, p := DigitValue(ds[0]), Pow10(|ds| - 1);
      MulAtMostNine(d, p);
      assert DigitsValue(ds) == d * p + DigitsValue(ds[1..]);
    }
  }

  lemma MulAtMostNine(d: nat, p: nat)
    requires d <= 9
    ensures d * p <= 9 * p
  {
  }

  /** The value of the digits after a decimal point. */
  function FractionValue(ds: string): (v: real)
    ensures 0.0 <= v < 1.0
  {
    DigitsValueBound(ds);
    var num, den := DigitsValue(ds) as real, Pow10(|ds|) as real;
    QuotientBelowOne(num, den);
    num / den
  }

  lemma QuotientBelowOne(num: real, den: real)
    requires 0.0 <= num < den
    ensures 0.0 <= num / den < 1.0
  {
    assert num / den * den == num;
  }
}
