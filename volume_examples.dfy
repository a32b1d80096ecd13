/**
 * normalizeVolume and the net-contents comparison on concrete inputs. Each
 * example is stated over variables and evaluated in small steps, so that the
 * verifier never unfolds a literal string more than a few characters deep.
 */
module VolumeExamples {
  import opened Wrappers
  import opened JsString
  import opened Decimal
  import opened NumberPattern
  import opened JsNumber
  import opened Volume

  /** None of the first k patterns occurs in n, spelt out pattern by pattern. */
  predicate MissesBefore(n: string, k: nat)
  {
    (k > 0 ==> Search(n, "ml", 0).None?)
    && (k > 1 ==> Search(n, "l", 0).None?)
    && (k > 2 ==> Search(n, "cl", 0).None?)
    && (k > 3 ==> Search(n, "floz", 0).None?)
    && (k > 4 ==> Search(n, "oz", 0).None?)
  }

  lemma MissesBeforeAll(n: string, k: nat)
    requires k <= |VolumePatterns| && MissesBefore(n, k)
    ensures forall j :: 0 <= j < k ==> Search(n, VolumePatterns[j].literal, 0).None?
  {
  }

  /** VolumeOf once the first matching pattern, its token and the rounded value are known. */
  lemma FirstMatch(volume: Option<string>, n: string, k: nat, t: Token, x: real)
    requires !IsFalsy(volume) && Squash(volume.value) == n && k < |VolumePatterns|
    requires Search(n, VolumePatterns[k].literal, 0) == Some(t)
    requires MissesBefore(n, k)
    requires t.start <= t.end <= |n| && Converted(n, VolumePatterns[k], t) == x
    ensures VolumeOf(volume) == Ml(x)
  {
    MissesBeforeAll(n, k);
    VolumeOfHit(volume, k);
  }

  /** VolumeOf once it is known that no pattern matches. */
  lemma NoMatch(volume: Option<string>, n: string)
    requires !IsFalsy(volume) && Squash(volume.value) == n
    requires MissesBefore(n, |VolumePatterns|)
    ensures VolumeOf(volume) == Raw(n)
  {
    MissesBeforeAll(n, |VolumePatterns|);
    VolumeOfMiss(volume);
  }

  /** The pattern matches at the start of n, with the token given by its digit runs. */
  lemma HitAtStart(n: string, u: string, w: nat, e: nat)
    requires 0 < |n| && IsDigit(n[0]) && w <= |n| && DigitsEnd(n, 0) == w
    requires if w < |n| && n[w] == '.' then w + 1 <= |n| && DigitsEnd(n, w + 1) == e else e == w
    requires LiteralAt(n, e, u)
    ensures Search(n, u, 0) == Some(Token(0, w, e))
  {
    TokenIs(n, 0, w, e);
    SearchFindsAt(n, u, 0);
  }

  /** Removing the one space between two texts without whitespace. */
  lemma RemoveOneSpace(s: string, n: string, a: string, b: string)
    requires s == a + [' '] + b && n == a + b
    requires RemoveSpaces(a) == a && RemoveSpaces(b) == b
    ensures RemoveSpaces(s) == n
  {
    RemoveSpaceBetween(a, ' ', b);
  }

  // "750 mL" is 750 millilitres.

  lemma Example750Ml(s: string, n: string)
    requires s == "750 mL" && n == "750ml"
    ensures VolumeOf(Some(s)) == Ml(750.0)
  {
    Squash750Ml(s, n);
    HitAtStart750Ml(n);
    Convert750(n);
    FirstMatch(Some(s), n, 0, Token(0, 3, 3), 750.0);
  }

  lemma Squash750Ml(s: string, n: string)
    requires s == "750 mL" && n == "750ml"
    ensures Squash(s) == n
  {
    Lower750Ml();
    Remove750Ml("750 ml", n, "750", "ml");
  }

  lemma Lower750Ml() ensures ToLowerCase("750 mL") == "750 ml" {}

  lemma Remove750Ml(s: string, n: string, a: string, b: string)
    requires s == "750 ml" && n == "750ml" && a == "750" && b == "ml"
    ensures RemoveSpaces(s) == n
  {
    RemoveOneSpace(s, n, a, b);
  }

  lemma HitAtStart750Ml(n: string)
    requires n == "750ml"
    ensures Search(n, "ml", 0) == Some(Token(0, 3, 3))
  {
    DigitsEnd750Ml();
    HitAtStart(n, "ml", 3, 3);
  }

  lemma DigitsEnd750Ml() ensures DigitsEnd("750ml", 0) == 3 {}

  /** The capture "750" taken as millilitres. */
  lemma Convert750(n: string)
    requires n == "750ml"
    ensures Converted(n, VolumePatterns[0], Token(0, 3, 3)) == 750.0
  {
    assert VolumePatterns[0].unit == Millilitre;
    assert Captured(n, Token(0, 3, 3)) == "750";
    Parse750();
    Round750();
  }

  lemma Parse750()
    ensures ParseFloat("750") == 750.0
  {
    DigitsEnd750();
    Value750();
    ParseWhole("750");
  }

  lemma DigitsEnd750() ensures DigitsEnd("750", 0) == 3 {}
  lemma Value750() ensures DigitsValue("750") == 750 {}
  lemma Round750() ensures RoundTo2(750.0 * 1.0) == 750.0 {}

  // "0.75l" is 750 millilitres.

  lemma Example075L(s: string)
    requires s == "0.75l"
    ensures VolumeOf(Some(s)) == Ml(750.0)
  {
    SquashFixed075L(s);
    Miss075L(s);
    HitAtStart075L(s);
    Convert075L(s);
    FirstMatch(Some(s), s, 1, Token(0, 1, 4), 750.0);
  }

  lemma SquashFixed075L(s: string)
    requires s == "0.75l"
    ensures Squash(s) == s
  {
    Lower075L();
    Remove075L();
  }

  lemma Lower075L() ensures ToLowerCase("0.75l") == "0.75l" {}
  lemma Remove075L() ensures RemoveSpaces("0.75l") == "0.75l" {}

  lemma Miss075L(n: string)
    requires n == "0.75l"
    ensures Search(n, "ml", 0).None?
  {
    Never075LM();
    NoMatchUnlessAfterNumber(n, "ml");
  }

  lemma Never075LM() ensures NeverAfterNumber("0.75l", 'm', 0) {}

  lemma HitAtStart075L(n: string)
    requires n == "0.75l"
    ensures Search(n, "l", 0) == Some(Token(0, 1, 4))
  {
    DigitsEnd075L0();
    DigitsEnd075L2();
    HitAtStart(n, "l", 1, 4);
  }

  lemma DigitsEnd075L0() ensures DigitsEnd("0.75l", 0) == 1 {}
  lemma DigitsEnd075L2() ensures DigitsEnd("0.75l", 2) == 4 {}

  /** The capture "0.75" taken as litres. */
  lemma Convert075L(n: string)
    requires n == "0.75l"
    ensures Converted(n, VolumePatterns[1], Token(0, 1, 4)) == 750.0
  {
    assert VolumePatterns[1].unit == Litre;
    assert Captured(n, Token(0, 1, 4)) == "0.75";
    Parse075();
    Round075L();
  }

  lemma Parse075()
    ensures ParseFloat("0.75") == 0.75
  {
    DigitsEnd075Whole();
    DigitsEnd075Fraction();
    ParseDecimal("0.75", 1);
    assert "0.75"[..1] == "0" && "0.75"[2..] == "75";
    Value0();
    Fraction75();
  }

  lemma DigitsEnd075Whole() ensures DigitsEnd("0.75", 0) == 1 {}
  lemma DigitsEnd075Fraction() ensures DigitsEnd("0.75", 2) == 4 {}
  lemma Value0() ensures DigitsValue("0") == 0 {}
  lemma Fraction75() ensures FractionValue("75") == 0.75 {}
  lemma Round075L() ensures RoundTo2(0.75 * 1000.0) == 750.0 {}

  // "75cl" is 750 millilitres.

  lemma Example75Cl(s: string)
    requires s == "75cl"
    ensures VolumeOf(Some(s)) == Ml(750.0)
  {
    SquashFixed75Cl(s);
    Misses75Cl(s);
    HitAtStart75Cl(s);
    Convert75Cl(s);
    FirstMatch(Some(s), s, 2, Token(0, 2, 2), 750.0);
  }

  lemma SquashFixed75Cl(s: string)
    requires s == "75cl"
    ensures Squash(s) == s
  {
    Lower75Cl();
    Remove75Cl();
  }

  lemma Lower75Cl() ensures ToLowerCase("75cl") == "75cl" {}
  lemma Remove75Cl() ensures RemoveSpaces("75cl") == "75cl" {}

  lemma Misses75Cl(n: string)
    requires n == "75cl"
    ensures Search(n, "ml", 0).None? && Search(n, "l", 0).None?
  {
    Never75ClM();
    Never75ClL();
    NoMatchUnlessAfterNumber(n, "ml");
    NoMatchUnlessAfterNumber(n, "l");
  }

  lemma Never75ClM() ensures NeverAfterNumber("75cl", 'm', 0) {}
  lemma Never75ClL() ensures NeverAfterNumber("75cl", 'l', 0) {}

  lemma HitAtStart75Cl(n: string)
    requires n == "75cl"
    ensures Search(n, "cl", 0) == Some(Token(0, 2, 2))
  {
    DigitsEnd75Cl();
    HitAtStart(n, "cl", 2, 2);
  }

  lemma DigitsEnd75Cl() ensures DigitsEnd("75cl", 0) == 2 {}

  /** The capture "75" taken as centilitres. */
  lemma Convert75Cl(n: string)
    requires n == "75cl"
    ensures Converted(n, VolumePatterns[2], Token(0, 2, 2)) == 750.0
  {
    assert VolumePatterns[2].unit == Centilitre;
    assert Captured(n, Token(0, 2, 2)) == "75";
    Parse75();
    Round75Cl();
  }

  lemma Parse75()
    ensures ParseFloat("75") == 75.0
  {
    DigitsEnd75();
    Value75();
    ParseWhole("75");
  }

  lemma DigitsEnd75() ensures DigitsEnd("75", 0) == 2 {}
  lemma Value75() ensures DigitsValue("75") == 75 {}
  lemma Round75Cl() ensures RoundTo2(75.0 * 10.0) == 750.0 {}

  // "25.4 fl oz" is 751.17 millilitres.

  lemma Example254FlOz(s: string, n: string)
    requires s == "25.4 fl oz" && n == "25.4floz"
    ensures VolumeOf(Some(s)) == Ml(751.17)
  {
    Squash254FlOz(s, n);
    Misses254FlOz(n);
    HitAtStart254FlOz(n);
    Convert254FlOz(n);
    FirstMatch(Some(s), n, 3, Token(0, 2, 4), 751.17);
  }

  lemma Squash254FlOz(s: string, n: string)
    requires s == "25.4 fl oz" && n == "25.4floz"
    ensures Squash(s) == n
  {
    Lower254FlOz();
    Remove254FlOz("25.4 fl oz", n, "25.4 fl", "25.4fl", "oz");
  }

  lemma Lower254FlOz() ensures ToLowerCase("25.4 fl oz") == "25.4 fl oz" {}

  lemma Remove254FlOz(s: string, n: string, a: string, a': string, d: string)
    requires s == "25.4 fl oz" && n == "25.4floz" && a == "25.4 fl" && a' == "25.4fl" && d == "oz"
    ensures RemoveSpaces(s) == n
  {
    Remove254Fl(a, a', "25.4", "fl");
    RemoveOz(d);
    RemoveSpaceBetween(a, ' ', d);
    assert s == a + [' '] + d && n == a' + d;
  }

  lemma Remove254Fl(a: string, a': string, b: string, c: string)
    requires a == "25.4 fl" && a' == "25.4fl" && b == "25.4" && c == "fl"
    ensures RemoveSpaces(a) == a'
  {
    RemoveOneSpace(a, a', b, c);
  }

  lemma RemoveOz(d: string)
    requires d == "oz"
    ensures RemoveSpaces(d) == d
  {
  }

  lemma Misses254FlOz(n: string)
    requires n == "25.4floz"
    ensures Search(n, "ml", 0).None? && Search(n, "l", 0).None? && Search(n, "cl", 0).None?
  {
    Never254FlOzM();
    Never254FlOzL();
    Never254FlOzC();
    NoMatchUnlessAfterNumber(n, "ml");
    NoMatchUnlessAfterNumber(n, "l");
    NoMatchUnlessAfterNumber(n, "cl");
  }

  lemma Never254FlOzM() ensures NeverAfterNumber("25.4floz", 'm', 0) {}
  lemma Never254FlOzL() ensures NeverAfterNumber("25.4floz", 'l', 0) {}
  lemma Never254FlOzC() ensures NeverAfterNumber("25.4floz", 'c', 0) {}

  lemma HitAtStart254FlOz(n: string)
    requires n == "25.4floz"
    ensures Search(n, "floz", 0) == Some(Token(0, 2, 4))
  {
    DigitsEnd254FlOz0();
    DigitsEnd254FlOz3();
    HitAtStart(n, "floz", 2, 4);
  }

  lemma DigitsEnd254FlOz0() ensures DigitsEnd("25.4floz", 0) == 2 {}
  lemma DigitsEnd254FlOz3() ensures DigitsEnd("25.4floz", 3) == 4 {}

  /** The capture "25.4" taken as US fluid ounces. */
  lemma Convert254FlOz(n: string)
    requires n == "25.4floz"
    ensures Converted(n, VolumePatterns[3], Token(0, 2, 4)) == 751.17
  {
    assert VolumePatterns[3].unit == FluidOunce;
    assert Captured(n, Token(0, 2, 4)) == "25.4";
    Parse254();
    Round254FlOz();
  }

  lemma Parse254()
    ensures ParseFloat("25.4") == 25.4
  {
    DigitsEnd254Whole();
    DigitsEnd254Fraction();
    ParseDecimal("25.4", 2);
    assert "25.4"[..2] == "25" && "25.4"[3..] == "4";
    Value25();
    Fraction4();
  }

  lemma DigitsEnd254Whole() ensures DigitsEnd("25.4", 0) == 2 {}
  lemma DigitsEnd254Fraction() ensures DigitsEnd("25.4", 3) == 4 {}
  lemma Value25() ensures DigitsValue("25") == 25 {}
  lemma Fraction4() ensures FractionValue("4") == 0.4 {}
  lemma Round254FlOz() ensures RoundTo2(25.4 * 29.5735) == 751.17 {}

  // "12oz" is 354.88 millilitres.

  lemma Example12Oz(s: string)
    requires s == "12oz"
    ensures VolumeOf(Some(s)) == Ml(354.88)
  {
    SquashFixed12Oz(s);
    Misses12Oz(s);
    HitAtStart12Oz(s);
    Convert12Oz(s);
    FirstMatch(Some(s), s, 4, Token(0, 2, 2), 354.88);
  }

  lemma SquashFixed12Oz(s: string)
    requires s == "12oz"
    ensures Squash(s) == s
  {
    Lower12Oz();
    Remove12Oz();
  }

  lemma Lower12Oz() ensures ToLowerCase("12oz") == "12oz" {}
  lemma Remove12Oz() ensures RemoveSpaces("12oz") == "12oz" {}

  lemma Misses12Oz(n: string)
    requires n == "12oz"
    ensures Search(n, "ml", 0).None? && Search(n, "l", 0).None?
    ensures Search(n, "cl", 0).None? && Search(n, "floz", 0).None?
  {
    Never12OzM();
    Never12OzL();
    Never12OzC();
    Never12OzF();
    NoMatchUnlessAfterNumber(n, "ml");
    NoMatchUnlessAfterNumber(n, "l");
    NoMatchUnlessAfterNumber(n, "cl");
    NoMatchUnlessAfterNumber(n, "floz");
  }

  lemma Never12OzM() ensures NeverAfterNumber("12oz", 'm', 0) {}
  lemma Never12OzL() ensures NeverAfterNumber("12oz", 'l', 0) {}
  lemma Never12OzC() ensures NeverAfterNumber("12oz", 'c', 0) {}
  lemma Never12OzF() ensures NeverAfterNumber("12oz", 'f', 0) {}

  lemma HitAtStart12Oz(n: string)
    requires n == "12oz"
    ensures Search(n, "oz", 0) == Some(Token(0, 2, 2))
  {
    DigitsEnd12Oz();
    HitAtStart(n, "oz", 2, 2);
  }

  lemma DigitsEnd12Oz() ensures DigitsEnd("12oz", 0) == 2 {}

  /** The capture "12" taken as US fluid ounces. */
  lemma Convert12Oz(n: string)
    requires n == "12oz"
    ensures Converted(n, VolumePatterns[4], Token(0, 2, 2)) == 354.88
  {
    assert VolumePatterns[4].unit == Ounce;
    assert Captured(n, Token(0, 2, 2)) == "12";
    Parse12();
    Round12Oz();
  }

  lemma Parse12()
    ensures ParseFloat("12") == 12.0
  {
    DigitsEnd12();
    Value12();
    ParseWhole("12");
  }

  lemma DigitsEnd12() ensures DigitsEnd("12", 0) == 2 {}
  lemma Value12() ensures DigitsValue("12") == 12 {}
  lemma Round12Oz() ensures RoundTo2(12.0 * 29.5735) == 354.88 {}

  // "1L 500mL" is 500 millilitres: the ml pattern is tried first and matches further right.

  lemma ExampleMlFirst(s: string, n: string)
    requires s == "1L 500mL" && n == "1l500ml"
    ensures VolumeOf(Some(s)) == Ml(500.0)
  {
    SquashMlFirst(s, n);
    HitMlFirst(n);
    Convert500(n);
    FirstMatch(Some(s), n, 0, Token(2, 5, 5), 500.0);
  }

  lemma SquashMlFirst(s: string, n: string)
    requires s == "1L 500mL" && n == "1l500ml"
    ensures Squash(s) == n
  {
    LowerMlFirst();
    RemoveMlFirst("1l 500ml", n, "1l", "500ml");
  }

  lemma LowerMlFirst() ensures ToLowerCase("1L 500mL") == "1l 500ml" {}

  lemma RemoveMlFirst(s: string, n: string, a: string, b: string)
    requires s == "1l 500ml" && n == "1l500ml" && a == "1l" && b == "500ml"
    ensures RemoveSpaces(s) == n
  {
    RemoveOneSpace(s, n, a, b);
  }

  lemma HitMlFirst(n: string)
    requires n == "1l500ml"
    ensures Search(n, "ml", 0) == Some(Token(2, 5, 5))
  {
    DigitsEndMlFirst0();
    DigitsEndMlFirst2();
    TokenIs(n, 0, 1, 1);
    assert !MatchesAt(n, 0, "ml") by {
      assert n[1..3] != "ml" by { assert n[1..3][1] == '5'; }
    }
    TokenIs(n, 2, 5, 5);
    forall q | 0 <= q < 2
      ensures !MatchesAt(n, q, "ml")
    {
    }
    SearchFindsAt(n, "ml", 2);
  }

  lemma DigitsEndMlFirst0() ensures DigitsEnd("1l500ml", 0) == 1 {}
  lemma DigitsEndMlFirst2() ensures DigitsEnd("1l500ml", 2) == 5 {}

  /** The capture "500" taken as millilitres. */
  lemma Convert500(n: string)
    requires n == "1l500ml"
    ensures Converted(n, VolumePatterns[0], Token(2, 5, 5)) == 500.0
  {
    assert VolumePatterns[0].unit == Millilitre;
    assert Captured(n, Token(2, 5, 5)) == "500";
    Parse500();
    Round500();
  }

  lemma Parse500()
    ensures ParseFloat("500") == 500.0
  {
    DigitsEnd500();
    Value500();
    ParseWhole("500");
  }

  lemma DigitsEnd500() ensures DigitsEnd("500", 0) == 3 {}
  lemma Value500() ensures DigitsValue("500") == 500 {}
  lemma Round500() ensures RoundTo2(500.0 * 1.0) == 500.0 {}

  // ".75l" is read from its first digit on, as 75 litres.

  lemma ExampleLeadingDot(s: string)
    requires s == ".75l"
    ensures VolumeOf(Some(s)) == Ml(75000.0)
  {
    SquashFixedLeadingDot(s);
    MissLeadingDot(s);
    HitLeadingDot(s);
    ConvertLeadingDot(s);
    FirstMatch(Some(s), s, 1, Token(1, 3, 3), 75000.0);
  }

  lemma SquashFixedLeadingDot(s: string)
    requires s == ".75l"
    ensures Squash(s) == s
  {
    LowerLeadingDot();
    RemoveLeadingDot();
  }

  lemma LowerLeadingDot() ensures ToLowerCase(".75l") == ".75l" {}
  lemma RemoveLeadingDot() ensures RemoveSpaces(".75l") == ".75l" {}

  lemma MissLeadingDot(n: string)
    requires n == ".75l"
    ensures Search(n, "ml", 0).None?
  {
    NeverLeadingDotM();
    NoMatchUnlessAfterNumber(n, "ml");
  }

  lemma NeverLeadingDotM() ensures NeverAfterNumber(".75l", 'm', 0) {}

  lemma HitLeadingDot(n: string)
    requires n == ".75l"
    ensures Search(n, "l", 0) == Some(Token(1, 3, 3))
  {
    DigitsEndLeadingDot();
    TokenIs(n, 1, 3, 3);
    assert !MatchesAt(n, 0, "l");
    SearchFindsAt(n, "l", 1);
  }

  lemma DigitsEndLeadingDot() ensures DigitsEnd(".75l", 1) == 3 {}

  /** The capture "75" taken as litres. */
  lemma ConvertLeadingDot(n: string)
    requires n == ".75l"
    ensures Converted(n, VolumePatterns[1], Token(1, 3, 3)) == 75000.0
  {
    assert VolumePatterns[1].unit == Litre;
    assert Captured(n, Token(1, 3, 3)) == "75";
    Parse75();
    RoundLeadingDot();
  }

  lemma RoundLeadingDot() ensures RoundTo2(75.0 * 1000.0) == 75000.0 {}

  // A number without a unit stays a string.

  lemma ExampleNoUnit(s: string)
    requires s == "750"
    ensures VolumeOf(Some(s)) == Raw(s)
  {
    SquashFixedNoUnit(s);
    MissesNoUnit(s);
    NoMatch(Some(s), s);
  }

  lemma SquashFixedNoUnit(s: string)
    requires s == "750"
    ensures Squash(s) == s
  {
    LowerNoUnit();
    RemoveNoUnit();
  }

  lemma LowerNoUnit() ensures ToLowerCase("750") == "750" {}
  lemma RemoveNoUnit() ensures RemoveSpaces("750") == "750" {}

  lemma MissesNoUnit(n: string)
    requires n == "750"
    ensures MissesBefore(n, |VolumePatterns|)
  {
    NeverNoUnitM();
    NeverNoUnitL();
    NeverNoUnitC();
    NeverNoUnitF();
    NeverNoUnitO();
    NoMatchUnlessAfterNumber(n, "ml");
    NoMatchUnlessAfterNumber(n, "l");
    NoMatchUnlessAfterNumber(n, "cl");
    NoMatchUnlessAfterNumber(n, "floz");
    NoMatchUnlessAfterNumber(n, "oz");
  }

  lemma NeverNoUnitM() ensures NeverAfterNumber("750", 'm', 0) {}
  lemma NeverNoUnitL() ensures NeverAfterNumber("750", 'l', 0) {}
  lemma NeverNoUnitC() ensures NeverAfterNumber("750", 'c', 0) {}
  lemma NeverNoUnitF() ensures NeverAfterNumber("750", 'f', 0) {}
  lemma NeverNoUnitO() ensures NeverAfterNumber("750", 'o', 0) {}

  // Net contents compared.

  /** An absent net contents does not match a 750 mL label; two absent ones match. */
  lemma AbsentVolumeExamples(s: string, n: string)
    requires s == "750 mL" && n == "750ml"
    ensures !VolumesMatch(VolumeOf(None), VolumeOf(Some(s)))
    ensures VolumesMatch(VolumeOf(None), VolumeOf(None))
  {
    Example750Ml(s, n);
    AbsentMatchesMl(750.0);
  }

  /** A bare number is read as millilitres by `-`: "750" matches "750 mL". */
  lemma UnitlessMatchesMl(bare: string, s: string, n: string)
    requires bare == "750" && s == "750 mL" && n == "750ml"
    ensures VolumesMatch(VolumeOf(Some(bare)), VolumeOf(Some(s)))
  {
    ExampleNoUnit(bare);
    Example750Ml(s, n);
    Read750(bare);
  }

  lemma Read750(t: string)
    requires t == "750"
    ensures StringToNumber(t) == Finite(750.0)
  {
    Trim750(t);
    DigitsEnd750();
    Value750();
  }

  lemma Trim750(t: string)
    requires t == "750"
    ensures Trim(t) == t
  {
    assert !IsSpace(t[0]) && !IsSpace(t[|t| - 1]);
  }

  /** 25.4 fl oz is 751.17 ml, more than a millilitre away from 750 mL. */
  lemma FluidOuncesAgainstMl(a: string, a': string, b: string, b': string)
    requires a == "25.4 fl oz" && a' == "25.4floz" && b == "750 mL" && b' == "750ml"
    ensures !VolumesMatch(VolumeOf(Some(a)), VolumeOf(Some(b)))
  {
    Example254FlOz(a, a');
    Example750Ml(b, b');
  }
}
