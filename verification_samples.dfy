/**
 * The sample scenarios of the application (a matching label, a brand
 * mismatch, an alcohol-content mismatch, a label without net contents),
 * run through verifyLabel.
 */
module VerificationSamples {
  import opened Wrappers
  import opened Similarity
  import opened Abv
  import opened Volume
  import opened VolumeExamples
  import opened Verification

  /** The label of the sample scenarios. */
  predicate IsSampleLabel(e: Extracted)
  {
    e.brandName == Some("Old Tom Distillery") && e.productType == Some("Kentucky Straight Bourbon Whiskey")
    && e.alcoholContent == Some("45%") && e.netContents == Some("750 mL")
  }

  /** Sample scenario "matching": the form repeats the label, and every field matches. */
  lemma MatchingSample(e: Extracted, s: Submitted, timestamp: string)
    requires IsSampleLabel(e)
    requires s == Submitted(e.brandName, e.productType, e.alcoholContent, e.netContents)
    ensures Verify(e, s, timestamp).overallMatch
  {
    IdenticalRecordsMatch(e, s, timestamp);
  }

  /** Sample scenario "brandMismatch": only the brand name fails. */
  lemma BrandMismatchSample(e: Extracted, s: Submitted, timestamp: string)
    requires IsSampleLabel(e)
    requires s == Submitted(Some("Tom's Distillery"), e.productType, e.alcoholContent, e.netContents)
    ensures var r := Verify(e, s, timestamp);
      !r.overallMatch && r.fields[BrandName].reason == BrandMismatch
      && r.fields[ProductType].matched && r.fields[AlcoholContent].matched && r.fields[NetContents].matched
  {
    SampleBrandsNotSimilar();
  }

  /** Sample scenario "abvMismatch": only the alcohol content fails, and the reason carries 40 and 45. */
  lemma AbvMismatchSample(e: Extracted, s: Submitted, timestamp: string)
    requires IsSampleLabel(e)
    requires s == Submitted(e.brandName, e.productType, Some("40%"), e.netContents)
    ensures var r := Verify(e, s, timestamp);
      !r.overallMatch && r.fields[AlcoholContent].reason == AbvMismatch(Num(40.0), Num(45.0))
      && r.fields[BrandName].matched && r.fields[ProductType].matched && r.fields[NetContents].matched
  {
    SampleAbvExample();
  }

  /** The label's net contents are missing: that field fails against "750 mL". */
  lemma AbsentVolumeSample(e: Extracted, s: Submitted, timestamp: string)
    requires e.netContents.None? && s.netContents == Some("750 mL")
    ensures !Verify(e, s, timestamp).fields[NetContents].matched
    ensures !Verify(e, s, timestamp).overallMatch
  {
    AbsentVolumeExamples("750 mL", "750ml");
    VolumesMatchSymmetric(VolumeOf(None), VolumeOf(Some("750 mL")));
  }
}
