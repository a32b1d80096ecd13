/**
 * `isSimilar(value1, value2, threshold)` of backend/server.js: equal or
 * containing normalised texts are similar; otherwise the Levenshtein
 * similarity 1 - distance / maxLength is compared with the threshold.
 */
module Similarity {
  import opened Wrappers
  import opened TextNormalizer
  import opened Levenshtein

  /** The default threshold of isSimilar, used for the brand name. */
  const DefaultThreshold: real := 0.85

  /** `s.includes(t)`: t occurs in s as a contiguous block. */
  predicate Includes(s: string, t: string)
    decreases |s|
  {
    (|t| <= |s| && s[..|t|] == t) || (s != [] && Includes(s[1..], t))
  }

  /** t occurs in s at index i. */
  predicate OccursAt(s: string, t: string, i: int)
  {
    0 <= i && i + |t| <= |s| && s[i..i + |t|] == t
  }

  /** Includes is the existence of an occurrence index. */
  lemma {:induction false} IncludesAt(s: string, t: string)
    ensures Includes(s, t) <==> exists i :: OccursAt(s, t, i)
    decreases |s|
  {
    if s == [] {
      if t == [] {
        assert OccursAt(s, t, 0);
      }
    } else {
      IncludesAt(s[1..], t);
      if Includes(s[1..], t) {
        var i :| OccursAt(s[1..], t, i);
        assert s[1..][i..i + |t|] == s[i + 1..i + 1 + |t|];
        assert OccursAt(s, t, i + 1);
      }
      if exists i :: OccursAt(s, t, i) {
        var i :| OccursAt(s, t, i);
        if i > 0 {
          assert s[1..][i - 1..i - 1 + |t|] == s[i..i + |t|];
          assert OccursAt(s[1..], t, i - 1);
        }
      }
      if |t| <= |s| && s[..|t|] == t {
        assert OccursAt(s, t, 0);
      }
    }
  }

  /** A text is never included in a strictly shorter one. */
  lemma {:induction false} IncludesNeedsLength(s: string, t: string)
    requires Includes(s, t)
    ensures |t| <= |s|
    decreases |s|
  {
    if !(|t| <= |s| && s[..|t|] == t) {
      IncludesNeedsLength(s[1..], t);
    }
  }

  /** isSimilar(value1, value2, threshold): compares the two normalised texts. */
  function IsSimilar(value1: Option<string>, value2: Option<string>, threshold: real): bool
  {
    SimilarTexts(NormalizeText(value1), NormalizeText(value2), threshold)
  }

  /** The decision isSimilar takes once both values are normalised. */
  function SimilarTexts(norm1: string, norm2: string, threshold: real): bool
  {
    if norm1 == norm2 then true
    else if Includes(norm1, norm2) || Includes(norm2, norm1) then true
    else
      var distance := EditDistance(norm1, norm2);
      var maxLength := Max(|norm1|, |norm2|);
      var similarity := if maxLength > 0 then 1.0 - distance as real / maxLength as real else 1.0;
      similarity >= threshold
  }

  lemma ScalePreservesOrder(a: real, b: real, m: real)
    requires m > 0.0
    ensures a >= b <==> a * m >= b * m
  {
    assert a * m - b * m == (a - b) * m;
    if a < b {
      assert (b - a) * m > 0.0;
    }
  }

  /** 1 - d/m >= t, multiplied out by the positive m. */
  lemma CrossMultiply(d: nat, m: nat, t: real)
    requires m > 0
    ensures 1.0 - d as real / m as real >= t <==> (m - d) as real >= t * m as real
  {
    var mr, dr := m as real, d as real;
    var q := dr / mr;
    assert q * mr == dr;
    assert (1.0 - q) * mr == mr - dr;
    ScalePreservesOrder(1.0 - q, t, mr);
  }

  /** The comparisons isSimilar settles without computing a distance. */
  ghost predicate Trivial(norm1: string, norm2: string)
  {
    norm1 == norm2 || Includes(norm1, norm2) || Includes(norm2, norm1)
  }

  /** `1 - distance / maxLength >= threshold`, multiplied out by the positive maxLength. */
  predicate ThresholdMet(distance: nat, maxLength: nat, threshold: real)
  {
    (maxLength - distance) as real >= threshold * maxLength as real
  }

  lemma RatioIsThresholdMet(similar: bool, distance: nat, maxLength: nat, threshold: real)
    requires maxLength > 0
    requires similar == (1.0 - distance as real / maxLength as real >= threshold)
    ensures similar <==> ThresholdMet(distance, maxLength, threshold)
  {
    CrossMultiply(distance, maxLength, threshold);
  }

  /** Beyond equality and inclusion, the texts are similar iff the distance meets the threshold. */
  lemma SimilarThresholdTest(norm1: string, norm2: string, threshold: real)
    requires !Trivial(norm1, norm2)
    ensures Max(|norm1|, |norm2|) > 0
    ensures SimilarTexts(norm1, norm2, threshold)
      <==> ThresholdMet(EditDistance(norm1, norm2), Max(|norm1|, |norm2|), threshold)
  {
    RatioIsThresholdMet(SimilarTexts(norm1, norm2, threshold), EditDistance(norm1, norm2), Max(|norm1|, |norm2|), threshold);
  }

  /** Texts that are equal or contain one another are always similar. */
  lemma TrivialIsSimilar(norm1: string, norm2: string, threshold: real)
    requires Trivial(norm1, norm2)
    ensures SimilarTexts(norm1, norm2, threshold)
  {
  }

  /** A value that normalises to the empty text is similar to everything, on either side. */
  lemma EmptyIsSimilar(value1: Option<string>, value2: Option<string>, threshold: real)
    requires NormalizeText(value1) == ""
    ensures IsSimilar(value1, value2, threshold) && IsSimilar(value2, value1, threshold)
  {
    var norm2 := NormalizeText(value2);
    assert norm2[..0] == "";
  }

  /** In particular an absent or empty value is similar to everything. */
  lemma AbsentIsSimilar(value1: Option<string>, value2: Option<string>, threshold: real)
    requires JsString.IsFalsy(value1)
    ensures IsSimilar(value1, value2, threshold) && IsSimilar(value2, value1, threshold)
  {
    EmptyIsSimilar(value1, value2, threshold);
  }

  /** The order of the two values does not matter. */
  lemma SimilarSymmetric(value1: Option<string>, value2: Option<string>, threshold: real)
    ensures IsSimilar(value1, value2, threshold) == IsSimilar(value2, value1, threshold)
  {
    var norm1, norm2 := NormalizeText(value1), NormalizeText(value2);
    if !Trivial(norm1, norm2) {
      EditDistanceSymmetric(norm1, norm2);
      SimilarThresholdTest(norm1, norm2, threshold);
      SimilarThresholdTest(norm2, norm1, threshold);
    }
  }

  /** Raising the threshold never turns a non-match into a match. */
  lemma SimilarMonotone(value1: Option<string>, value2: Option<string>, lower: real, higher: real)
    requires lower <= higher
    ensures IsSimilar(value1, value2, higher) ==> IsSimilar(value1, value2, lower)
  {
  }

  /** The similarity never exceeds shorter length / longer length. */
  lemma SimilarNeedsLengths(norm1: string, norm2: string, threshold: real)
    requires !Trivial(norm1, norm2)
    requires SimilarTexts(norm1, norm2, threshold)
    ensures ThresholdMet(Abs(|norm1| - |norm2|), Max(|norm1|, |norm2|), threshold)
  {
    SimilarThresholdTest(norm1, norm2, threshold);
    EditDistanceBounds(norm1, norm2);
  }

  /** At a threshold of at most 0 every pair is similar, since the distance never exceeds the longer length. */
  lemma SimilarAtNonPositiveThreshold(norm1: string, norm2: string, threshold: real)
    requires threshold <= 0.0
    ensures SimilarTexts(norm1, norm2, threshold)
  {
    if !Trivial(norm1, norm2) {
      SimilarThresholdTest(norm1, norm2, threshold);
      EditDistanceBounds(norm1, norm2);
      NonPositiveThresholdMet(EditDistance(norm1, norm2), Max(|norm1|, |norm2|), threshold);
    }
  }

  lemma NonPositiveThresholdMet(distance: nat, maxLength: nat, threshold: real)
    requires distance <= maxLength && threshold <= 0.0
    ensures ThresholdMet(distance, maxLength, threshold)
  {
    assert threshold * maxLength as real <= 0.0 by {
      if maxLength > 0 {
        ScalePreservesOrder(0.0, threshold, maxLength as real);
      }
    }
  }

  /** At a threshold of 1 only equality and inclusion match. */
  lemma SimilarAtFullThreshold(norm1: string, norm2: string)
    ensures SimilarTexts(norm1, norm2, 1.0) <==> Trivial(norm1, norm2)
  {
    if !Trivial(norm1, norm2) {
      SimilarThresholdTest(norm1, norm2, 1.0);
      EditDistanceZeroIff(norm1, norm2);
    }
  }

  /**
   * The sample brands "Old Tom Distillery" (on the label) and "Tom's Distillery"
   * (submitted) do not match at the brand threshold: the length gap of 3
   * already limits the similarity to 15/18.
   */
  lemma SampleBrandsNotSimilar()
    ensures !IsSimilar(Some("Old Tom Distillery"), Some("Tom's Distillery"), DefaultThreshold)
  {
    NormalizeOldTom("Old Tom Distillery", "old tom distillery");
    NormalizeToms("Tom's Distillery", "toms distillery");
    SampleTextsNotSimilar("old tom distillery", "toms distillery");
  }

  /** Stated over variables, so that the verifier does not evaluate the literals character by character. */
  lemma SampleTextsNotSimilar(onLabel: string, submitted: string)
    requires onLabel == "old tom distillery" && submitted == "toms distillery"
    ensures !SimilarTexts(onLabel, submitted, DefaultThreshold)
  {
    assert |onLabel| == 18 && |submitted| == 15;
    if Includes(submitted, onLabel) {
      IncludesNeedsLength(submitted, onLabel);
    }
    forall i | 0 <= i <= |onLabel| - |submitted|
      ensures !OccursAt(onLabel, submitted, i)
    {
      assert onLabel[i..i + |submitted|][3] == onLabel[i + 3] != submitted[3];
    }
    IncludesAt(onLabel, submitted);
    if SimilarTexts(onLabel, submitted, DefaultThreshold) {
      SimilarNeedsLengths(onLabel, submitted, DefaultThreshold);
    }
  }
}
