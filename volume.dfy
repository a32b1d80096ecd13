/**
 * `normalizeVolume` of backend/server.js: strip whitespace, lower-case, try
 * the unit patterns ml, l, cl, fl oz, oz in that order, and convert the first
 * match to millilitres rounded to two decimals; otherwise keep the squashed text.
 */
module Volume {
  import opened Wrappers
  import opened JsString
  import opened NumberPattern
  import opened JsNumber
  import opened Decimal

  datatype Unit = Millilitre | Litre | Centilitre | FluidOunce | Ounce

  /** One entry of `volumePatterns`: the unit literal after `(\d+\.?\d*)\s*`, and its unit. */
  datatype VolumePattern = VolumePattern(literal: string, unit: Unit)

  /**
   * `volumePatterns`, in the order they are tried. The input has no whitespace
   * left, so the `\s*` inside the patterns matches nothing and `fl\s*oz` is `floz`.
   */
  const VolumePatterns: seq<VolumePattern> := [
    VolumePattern("ml", Millilitre),
    VolumePattern("l", Litre),
    VolumePattern("cl", Centilitre),
    VolumePattern("floz", FluidOunce),
    VolumePattern("oz", Ounce)
  ]

  /** Millilitres per unit; both ounce patterns use the US fluid ounce. */
  function Factor(u: Unit): real
  {
    match u
    case Millilitre => 1.0
    case Litre => 1000.0
    case Centilitre => 10.0
    case FluidOunce => 29.5735
    case Ounce => 29.5735
  }

  /** What normalizeVolume returns: a number of millilitres, or a string. */
  datatype Vol = Ml(ml: real) | Raw(text: string)

  /** `Math.round(x * 100) / 100`; Math.round sends halves upwards. */
  function RoundTo2(x: real): real
  {
    (x * 100.0 + 0.5).Floor as real / 100.0
  }

  /** `volume.toLowerCase().replace(/\s+/g, '')`. */
  function Squash(volume: string): string
  {
    RemoveSpaces(ToLowerCase(volume))
  }

  /** A squashed text has neither whitespace nor upper-case letters, and squashing it again changes nothing. */
  lemma SquashShape(volume: string)
    ensures forall i :: 0 <= i < |Squash(volume)| ==> !IsSpace(Squash(volume)[i]) && !IsAsciiUpper(Squash(volume)[i])
    ensures Squash(Squash(volume)) == Squash(volume)
  {
    var lower := ToLowerCase(volume);
    var r := Squash(volume);
    forall i | 0 <= i < |r|
      ensures !IsAsciiUpper(r[i])
    {
      assert r[i] in r;
      RemoveSpacesSubset(lower, r[i]);
      var j :| 0 <= j < |lower| && lower[j] == r[i];
    }
    LowerCaseFixed(r);
  }

  /** Math.round to hundredths: within half a hundredth, and a whole number of hundredths. */
  lemma RoundTo2Near(x: real)
    ensures x - 0.005 < RoundTo2(x) <= x + 0.005
    ensures (RoundTo2(x) * 100.0).Floor as real == RoundTo2(x) * 100.0
  {
    var f := (x * 100.0 + 0.5).Floor;
    assert f as real <= x * 100.0 + 0.5 < f as real + 1.0;
    assert RoundTo2(x) * 100.0 == f as real;
  }

  lemma RoundTo2NonNegative(x: real)
    requires x >= 0.0
    ensures RoundTo2(x) >= 0.0
  {
    RoundTo2Near(x);
    assert (x * 100.0 + 0.5).Floor >= 0;
  }

  /** The first pattern, from index k on, whose regular expression matches n. */
  function FirstHit(n: string, k: nat): (h: nat)
    requires k <= |VolumePatterns|
    ensures k <= h <= |VolumePatterns|
    ensures h < |VolumePatterns| ==> Search(n, VolumePatterns[h].literal, 0).Some?
    ensures forall j :: k <= j < h ==> Search(n, VolumePatterns[j].literal, 0).None?
    decreases |VolumePatterns| - k
  {
    if k == |VolumePatterns| then k
    else if Search(n, VolumePatterns[k].literal, 0).Some? then k
    else FirstHit(n, k + 1)
  }

  /** The first pattern that matches is the one after all those that do not. */
  lemma FirstHitAt(n: string, k: nat)
    requires k <= |VolumePatterns|
    requires k < |VolumePatterns| ==> Search(n, VolumePatterns[k].literal, 0).Some?
    requires forall j :: 0 <= j < k ==> Search(n, VolumePatterns[j].literal, 0).None?
    ensures FirstHit(n, 0) == k
  {
  }

  /** The millilitres a match of `pattern` in `n` stands for. */
  function Converted(n: string, pattern: VolumePattern, t: Token): real
    requires t.start <= t.end <= |n|
  {
    RoundTo2(ParseFloat(Captured(n, t)) * Factor(pattern.unit))
  }

  /** The value normalizeVolume returns. */
  function VolumeOf(volume: Option<string>): Vol
  {
    if IsFalsy(volume) then Raw("")
    else
      var normalized := Squash(volume.value);
      var h := FirstHit(normalized, 0);
      if h < |VolumePatterns| then
        var pattern := VolumePatterns[h];
        Ml(Converted(normalized, pattern, Search(normalized, pattern.literal, 0).value))
      else Raw(normalized)
  }

  /** Rounding the scaled capture is what Converted computes. */
  lemma ConvertedIs(n: string, pattern: VolumePattern, t: Token, value: real)
    requires t.start <= t.end <= |n|
    requires value == ParseFloat(Captured(n, t)) * Factor(pattern.unit)
    ensures RoundTo2(value) == Converted(n, pattern, t)
  {
  }

  /** The value VolumeOf takes when pattern k is the first to match. */
  lemma VolumeOfHit(volume: Option<string>, k: nat)
    requires !IsFalsy(volume) && k < |VolumePatterns|
    requires Search(Squash(volume.value), VolumePatterns[k].literal, 0).Some?
    requires forall j :: 0 <= j < k ==> Search(Squash(volume.value), VolumePatterns[j].literal, 0).None?
    ensures VolumeOf(volume) == Ml(Converted(Squash(volume.value), VolumePatterns[k],
      Search(Squash(volume.value), VolumePatterns[k].literal, 0).value))
  {
    FirstHitAt(Squash(volume.value), k);
  }

  /** The value VolumeOf takes when no pattern matches. */
  lemma VolumeOfMiss(volume: Option<string>)
    requires !IsFalsy(volume)
    requires forall j :: 0 <= j < |VolumePatterns| ==> Search(Squash(volume.value), VolumePatterns[j].literal, 0).None?
    ensures VolumeOf(volume) == Raw(Squash(volume.value))
  {
    FirstHitAt(Squash(volume.value), |VolumePatterns|);
  }

  /** normalizeVolume(volume): the loop over the patterns with its early return. */
  method NormalizeVolume(volume: Option<string>) returns (v: Vol)
    ensures v == VolumeOf(volume)
  {
    if IsFalsy(volume) {
      return Raw("");
    }
    var normalized := Squash(volume.value);
    for k := 0 to |VolumePatterns|
      invariant forall j :: 0 <= j < k ==> Search(normalized, VolumePatterns[j].literal, 0).None?
    {
      var pattern := VolumePatterns[k];
      var match_ := Search(normalized, pattern.literal, 0);
      if match_.Some? {
        var parsed := ParseFloat(Captured(normalized, match_.value));
        var value := parsed;
        // The three unit tests of the source exclude each other.
        if pattern.unit == Litre {
          value := value * 1000.0;
        } else if pattern.unit == Centilitre {
          value := value * 10.0;
        } else if pattern.unit == FluidOunce || pattern.unit == Ounce {
          value := value * 29.5735;
        }
        assert Ml(RoundTo2(value)) == VolumeOf(volume) by {
          assert value == parsed * Factor(pattern.unit);
          ConvertedIs(normalized, pattern, match_.value, value);
          VolumeOfHit(volume, k);
        }
        return Ml(RoundTo2(value));
      }
    }
    VolumeOfMiss(volume);
    return Raw(normalized);
  }

  /** A millilitre result is non-negative and a whole number of hundredths. */
  lemma VolumeOfMl(volume: Option<string>)
    requires VolumeOf(volume).Ml?
    ensures VolumeOf(volume).ml >= 0.0
    ensures (VolumeOf(volume).ml * 100.0).Floor as real == VolumeOf(volume).ml * 100.0
  {
    var n := Squash(volume.value);
    var pattern := VolumePatterns[FirstHit(n, 0)];
    ConvertedShape(n, pattern, Search(n, pattern.literal, 0).value);
  }

  /** A converted amount is non-negative and a whole number of hundredths. */
  lemma ConvertedShape(n: string, pattern: VolumePattern, t: Token)
    requires t.start <= t.end <= |n|
    ensures Converted(n, pattern, t) >= 0.0
    ensures (Converted(n, pattern, t) * 100.0).Floor as real == Converted(n, pattern, t) * 100.0
  {
    var parsed, factor := ParseFloat(Captured(n, t)), Factor(pattern.unit);
    var x := parsed * factor;
    assert x >= 0.0 by {
      ScaledNonNegative(parsed, factor);
    }
    RoundedShape(Converted(n, pattern, t), x);
  }

  /** A non-negative amount rounded to hundredths. */
  lemma RoundedShape(r: real, x: real)
    requires x >= 0.0 && r == RoundTo2(x)
    ensures r >= 0.0 && (r * 100.0).Floor as real == r * 100.0
  {
    RoundTo2NonNegative(x);
    RoundTo2Near(x);
  }

  lemma ScaledNonNegative(a: real, b: real)
    requires a >= 0.0 && b >= 0.0
    ensures a * b >= 0.0
  {
  }

  /**
   * A string result comes from an empty input, or from an input in whose
   * squashed form no pattern occurs; that squashed form is the result.
   */
  lemma VolumeOfRaw(volume: Option<string>)
    ensures VolumeOf(volume).Raw? <==> (IsFalsy(volume)
      || forall j :: 0 <= j < |VolumePatterns| ==> Search(Squash(volume.value), VolumePatterns[j].literal, 0).None?)
    ensures VolumeOf(volume).Raw? ==> VolumeOf(volume).text == if IsFalsy(volume) then "" else Squash(volume.value)
  {
    if !IsFalsy(volume) && forall j :: 0 <= j < |VolumePatterns| ==> Search(Squash(volume.value), VolumePatterns[j].literal, 0).None? {
      VolumeOfMiss(volume);
    }
  }

  /** Normalising a string result again gives the same string. */
  lemma RawIsFixed(volume: Option<string>)
    requires VolumeOf(volume).Raw?
    ensures VolumeOf(Some(VolumeOf(volume).text)) == VolumeOf(volume)
  {
    var t := VolumeOf(volume).text;
    VolumeOfRaw(volume);
    if t != "" {
      SquashShape(volume.value);
      VolumeOfMiss(Some(t));
    }
  }

  /** What `-` makes of a normalised volume. */
  function VolumeToNumber(v: Vol): (r: Number)
    ensures v.Ml? ==> r == Finite(v.ml)
  {
    match v
    case Ml(x) => Finite(x)
    case Raw(t) => StringToNumber(t)
  }

  /** A volume left as a string of digits reads as the number it writes. */
  lemma RawDigitsReading(t: string)
    requires t != [] && forall k :: 0 <= k < |t| ==> IsDigit(t[k])
    ensures VolumeToNumber(Raw(t)) == Finite(DigitsValue(t) as real)
  {
    ReadDigits(t);
  }

  /** `submittedVolume === extractedVolume || Math.abs(submittedVolume - extractedVolume) < 1`. */
  predicate VolumesMatch(submitted: Vol, extracted: Vol)
  {
    submitted == extracted || AbsBelow(Minus(VolumeToNumber(submitted), VolumeToNumber(extracted)), 1.0)
  }

  lemma VolumesMatchSymmetric(a: Vol, b: Vol)
    ensures VolumesMatch(a, b) == VolumesMatch(b, a)
  {
    MinusAntisymmetric(VolumeToNumber(a), VolumeToNumber(b));
    AbsBelowNegate(Minus(VolumeToNumber(b), VolumeToNumber(a)), 1.0);
  }

  /** Two millilitre values match iff they differ by less than one millilitre. */
  lemma MillilitresMatch(a: real, b: real)
    ensures VolumesMatch(Ml(a), Ml(b)) <==> Abs(a - b) < 1.0
  {
  }

  /** A string that does not read as a number matches nothing but itself. */
  lemma NotANumberMatchesOnlyItself(t: string, other: Vol)
    requires StringToNumber(t).NaN?
    ensures VolumesMatch(Raw(t), other) <==> other == Raw(t)
  {
  }

  /** An absent volume reads as 0, so it matches a millilitre value only below 1 ml. */
  lemma AbsentMatchesMl(x: real)
    requires x >= 0.0
    ensures VolumesMatch(VolumeOf(None), Ml(x)) <==> x < 1.0
  {
    assert StringToNumber("") == Finite(0.0);
  }
}
