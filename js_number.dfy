/**
 * JavaScript's implicit conversion of an operand of `-` to a number, restricted
 * to what the label verifier can feed it: numbers, the empty string and
 * plain decimal strings. Every other string becomes NaN.
 */
module JsNumber {
  import opened JsString
  import opened Decimal

  datatype Number = NaN | Finite(value: real)

  function Abs(x: real): (r: real)
    ensures r >= 0.0 && (r == x || r == -x)
  {
    if x < 0.0 then -x else x
  }

  function Negate(x: Number): Number
  {
    if x.NaN? then NaN else Finite(-x.value)
  }

  /** `a - b` on numbers: NaN when either side is NaN. */
  function Minus(a: Number, b: Number): (r: Number)
    ensures r.NaN? <==> a.NaN? || b.NaN?
    ensures r.Finite? ==> r.value == a.value - b.value
  {
    if a.NaN? || b.NaN? then NaN else Finite(a.value - b.value)
  }

  /** `Math.abs(x) < bound`: every comparison with NaN is false. */
  predicate AbsBelow(x: Number, bound: real)
  {
    x.Finite? && Abs(x.value) < bound
  }

  /** Swapping the operands of `-` negates the difference, and NaN stays NaN. */
  lemma MinusAntisymmetric(a: Number, b: Number)
    ensures Minus(a, b) == Negate(Minus(b, a))
  {
  }

  /** `Math.abs(x) < bound` does not see the sign of x. */
  lemma AbsBelowNegate(x: Number, bound: real)
    ensures AbsBelow(Negate(x), bound) == AbsBelow(x, bound)
  {
  }

  /** A StrUnsignedDecimalLiteral without exponent: `d+`, `d+.d*` or `.d+`. */
  function UnsignedDecimal(t: string): (r: Number)
    ensures r.Finite? ==> r.value >= 0.0
  {
    var w := DigitsEnd(t, 0);
    if w == |t| then
      if w > 0 then Finite(DigitsValue(t) as real) else NaN
    else if t[w] != '.' then NaN
    else
      var e := DigitsEnd(t, w + 1);
      if e == |t| && (w > 0 || e > w + 1) then Finite(DigitsValue(t[..w]) as real + FractionValue(t[w + 1..]))
      else NaN
  }

  /** ToNumber applied to a string: surrounding whitespace ignored, empty means 0, an optional sign. */
  function StringToNumber(s: string): (r: Number)
    ensures (forall i :: 0 <= i < |s| ==> IsSpace(s[i])) ==> r == Finite(0.0)
  {
    var t := Trim(s);
    if t == "" then Finite(0.0)
    else if t[0] == '+' then UnsignedDecimal(t[1..])
    else if t[0] == '-' then Negate(UnsignedDecimal(t[1..]))
    else UnsignedDecimal(t)
  }

  /** A string of decimal digits reads as the number it writes. */
  lemma ReadDigits(t: string)
    requires t != [] && forall k :: 0 <= k < |t| ==> IsDigit(t[k])
    ensures StringToNumber(t) == Finite(DigitsValue(t) as real)
  {
    assert !IsSpace(t[0]) && t[0] != '+' && t[0] != '-' by { assert IsDigit(t[0]); }
    assert !IsSpace(t[|t| - 1]) by { assert IsDigit(t[|t| - 1]); }
    assert TrimStart(t) == t;
    assert TrimEnd(t) == t;
    DigitsEndAt(t, 0, |t|);
    assert UnsignedDecimal(t) == Finite(DigitsValue(t) as real);
  }
}
