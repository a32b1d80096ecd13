/**
 * `normalizeABV` of backend/server.js: the first `\d+\.?\d*` token of the
 * alcohol content as a number, or the empty string when there is none; and
 * the tolerance test verifyLabel applies to two such values.
 */
module Abv {
  import opened Wrappers
  import opened JsString
  import opened Decimal
  import opened NumberPattern
  import opened JsNumber

  /** What normalizeABV returns: a number, or the empty string. */
  datatype Abv = Num(value: real) | Empty

  /** `normalizeABV(abv)`: `abv.match(/(\d+\.?\d*)/)` and `parseFloat` of the group. */
  function NormalizeAbv(abv: Option<string>): (r: Abv)
    ensures r.Num? ==> r.value >= 0.0
    ensures r.Empty? <==> IsFalsy(abv) || forall p :: 0 <= p < |abv.value| ==> !IsDigit(abv.value[p])
  {
    if IsFalsy(abv) then Empty
    else
      match Search(abv.value, "", 0)
      case Some(t) => Num(ParseFloat(Captured(abv.value, t)))
      case None =>
        EmptyUnitMatchesDigits(abv.value);
        Empty
  }

  /** The number read is the greedy token starting at the first digit. */
  lemma AbvIsFirstToken(s: string, p: nat)
    requires p < |s| && IsDigit(s[p])
    requires forall q :: 0 <= q < p ==> !IsDigit(s[q])
    ensures NormalizeAbv(Some(s)) == Num(ParseFloat(s[p..TokenAt(s, p).end]))
  {
    EmptyUnitMatchesDigits(s);
  }

  /** What `-` makes of a normalised ABV: the empty string reads as 0. */
  function AbvToNumber(a: Abv): (r: Number)
    ensures r.Finite?
    ensures r.value == if a.Num? then a.value else 0.0
  {
    match a
    case Num(x) => Finite(x)
    case Empty => Finite(0.0)
  }

  /** `Math.abs(submittedABV - extractedABV) < 0.5`. */
  predicate AbvsMatch(submitted: Abv, extracted: Abv)
  {
    AbsBelow(Minus(AbvToNumber(submitted), AbvToNumber(extracted)), 0.5)
  }

  lemma AbvsMatchSymmetric(a: Abv, b: Abv)
    ensures AbvsMatch(a, b) == AbvsMatch(b, a)
  {
    MinusAntisymmetric(AbvToNumber(a), AbvToNumber(b));
    AbsBelowNegate(Minus(AbvToNumber(b), AbvToNumber(a)), 0.5);
  }

  /** Two numbers match iff they differ by strictly less than half a percentage point. */
  lemma NumbersMatch(a: real, b: real)
    ensures AbvsMatch(Num(a), Num(b)) <==> Abs(a - b) < 0.5
  {
  }

  /** A missing or unreadable ABV reads as 0: it matches another only below 0.5. */
  lemma EmptyMatches(b: Abv)
    ensures AbvsMatch(Empty, b) <==> b.Empty? || Abs(b.value) < 0.5
  {
  }

  /** Two alcohol contents without any digit always match. */
  lemma DigitFreeMatch(a: Option<string>, b: Option<string>)
    requires a.Some? ==> forall p :: 0 <= p < |a.value| ==> !IsDigit(a.value[p])
    requires b.Some? ==> forall p :: 0 <= p < |b.value| ==> !IsDigit(b.value[p])
    ensures AbvsMatch(NormalizeAbv(a), NormalizeAbv(b))
  {
  }

  /** An alcohol content that starts with digits, a dot and digits. */
  lemma AbvOfDecimal(s: string, w: nat)
    requires 0 < w < |s| && IsDigit(s[0]) && DigitsEnd(s, 0) == w && s[w] == '.' && DigitsEnd(s, w + 1) == |s|
    ensures NormalizeAbv(Some(s)) == Num(DigitsValue(s[..w]) as real + FractionValue(s[w + 1..]))
  {
    TokenIs(s, 0, w, |s|);
    AbvIsFirstToken(s, 0);
    assert s[0..|s|] == s;
    ParseDecimal(s, w);
  }

  /** An alcohol content that starts with digits not followed by a dot. */
  lemma AbvOfWhole(s: string, e: nat)
    requires 0 < e <= |s| && IsDigit(s[0]) && DigitsEnd(s, 0) == e && (e == |s| || s[e] != '.')
    ensures NormalizeAbv(Some(s)) == Num(DigitsValue(s[..e]) as real)
  {
    TokenIs(s, 0, e, e);
    AbvIsFirstToken(s, 0);
    assert s[0..e] == s[..e];
    DigitsEndAt(s[..e], 0, e);
    ParseWhole(s[..e]);
  }

  /** Examples: 45 against 44.5 is a mismatch, 45 against 44.6 a match. */
  lemma ToleranceExamples()
    ensures !AbvsMatch(NormalizeAbv(Some("45")), NormalizeAbv(Some("44.5")))
    ensures AbvsMatch(NormalizeAbv(Some("45")), NormalizeAbv(Some("44.6")))
  {
    assert NormalizeAbv(Some("45")) == Num(45.0) by { Read45("45"); }
    assert NormalizeAbv(Some("44.5")) == Num(44.5) by { Read445("44.5"); }
    assert NormalizeAbv(Some("44.6")) == Num(44.6) by { Read446("44.6"); }
  }

  /** Example: the sample alcohol contents "40%" and "45%" do not match. */
  lemma SampleAbvExample()
    ensures NormalizeAbv(Some("40%")) == Num(40.0)
    ensures NormalizeAbv(Some("45%")) == Num(45.0)
    ensures !AbvsMatch(NormalizeAbv(Some("40%")), NormalizeAbv(Some("45%")))
  {
    assert NormalizeAbv(Some("40%")) == Num(40.0) by { Read40Percent("40%"); }
    assert NormalizeAbv(Some("45%")) == Num(45.0) by { Read45Percent("45%"); }
  }

  lemma Read45(s: string)
    requires s == "45"
    ensures NormalizeAbv(Some(s)) == Num(45.0)
  {
    DigitsEnd45();
    AbvOfWhole(s, 2);
    assert s[..2] == "45";
    Value45();
  }

  lemma Read445(s: string)
    requires s == "44.5"
    ensures NormalizeAbv(Some(s)) == Num(44.5)
  {
    DigitsEnd445Whole();
    DigitsEnd445Fraction();
    AbvOfDecimal(s, 2);
    assert s[..2] == "44" && s[3..] == "5";
    Value44();
    Fraction5();
  }

  lemma Read446(s: string)
    requires s == "44.6"
    ensures NormalizeAbv(Some(s)) == Num(44.6)
  {
    DigitsEnd446Whole();
    DigitsEnd446Fraction();
    AbvOfDecimal(s, 2);
    assert s[..2] == "44" && s[3..] == "6";
    Value44();
    Fraction6();
  }

  lemma Read40Percent(s: string)
    requires s == "40%"
    ensures NormalizeAbv(Some(s)) == Num(40.0)
  {
    DigitsEnd40Percent();
    AbvOfWhole(s, 2);
    assert s[..2] == "40";
    Value40();
  }

  lemma Read45Percent(s: string)
    requires s == "45%"
    ensures NormalizeAbv(Some(s)) == Num(45.0)
  {
    DigitsEnd45Percent();
    AbvOfWhole(s, 2);
    assert s[..2] == "45";
    Value45();
  }

  lemma DigitsEnd45() ensures DigitsEnd("45", 0) == 2 {}
  lemma DigitsEnd445Whole() ensures DigitsEnd("44.5", 0) == 2 {}
  lemma DigitsEnd445Fraction() ensures DigitsEnd("44.5", 3) == 4 {}
  lemma DigitsEnd446Whole() ensures DigitsEnd("44.6", 0) == 2 {}
  lemma DigitsEnd446Fraction() ensures DigitsEnd("44.6", 3) == 4 {}
  lemma DigitsEnd40Percent() ensures DigitsEnd("40%", 0) == 2 {}
  lemma DigitsEnd45Percent() ensures DigitsEnd("45%", 0) == 2 {}
  lemma Value40() ensures DigitsValue("40") == 40 {}
  lemma Value44() ensures DigitsValue("44") == 44 {}
  lemma Value45() ensures DigitsValue("45") == 45 {}
  lemma Fraction5() ensures FractionValue("5") == 0.5 {}
  lemma Fraction6() ensures FractionValue("6") == 0.6 {}
}
