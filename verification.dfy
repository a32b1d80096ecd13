/**
 * `verifyLabel` of backend/server.js: compare each of the four fields of the
 * submitted record with the record extracted from the label, and fold the four
 * verdicts into one overall match.
 */
module Verification {
  import opened Wrappers
  import opened JsString
  import opened Similarity
  import opened Abv
  import opened Volume

  /** The application form as submitted. */
  datatype Submitted = Submitted(
    brandName: Option<string>,
    productType: Option<string>,
    alcoholContent: Option<string>,
    netContents: Option<string>)

  /** What the image analysis read off the label. */
  datatype Extracted = Extracted(
    brandName: Option<string>,
    productType: Option<string>,
    alcoholContent: Option<string>,
    netContents: Option<string>,
    confidence: Option<string>,
    additionalInfo: Option<string>)

  datatype Field = BrandName | ProductType | AlcoholContent | NetContents

  /** The reason strings; the ABV mismatch carries the two normalised values it prints. */
  datatype Reason =
    | Match
    | BrandMismatch
    | TypeMismatch
    | AbvMismatch(submittedAbv: Abv, labelAbv: Abv)
    | VolumeMismatch

  datatype FieldResult = FieldResult(submitted: Option<string>, extracted: Option<string>, matched: bool, reason: Reason)

  datatype VerificationResult = VerificationResult(
    overallMatch: bool,
    fields: map<Field, FieldResult>,
    timestamp: string,
    confidence: string,
    additionalInfo: Option<string>)

  /** `reason` is 'Match' exactly when `match` is true. */
  predicate Consistent(result: FieldResult)
  {
    result.reason == Match <==> result.matched
  }

  /** The product type is compared with a looser threshold than the brand. */
  const TypeThreshold: real := 0.7

  const AllFields: set<Field> := {BrandName, ProductType, AlcoholContent, NetContents}

  /** `brandName` entry: isSimilar at the default threshold, extracted value first. */
  function BrandResult(e: Extracted, s: Submitted): (r: FieldResult)
    ensures r.submitted == s.brandName && r.extracted == e.brandName
    ensures r.matched == IsSimilar(e.brandName, s.brandName, DefaultThreshold)
    ensures r.reason == (if r.matched then Match else BrandMismatch)
    ensures Consistent(r)
  {
    var m := IsSimilar(e.brandName, s.brandName, DefaultThreshold);
    FieldResult(s.brandName, e.brandName, m, if m then Match else BrandMismatch)
  }

  /** `productType` entry: isSimilar at threshold 0.7. */
  function TypeResult(e: Extracted, s: Submitted): (r: FieldResult)
    ensures r.submitted == s.productType && r.extracted == e.productType
    ensures r.matched == IsSimilar(e.productType, s.productType, TypeThreshold)
    ensures r.reason == (if r.matched then Match else TypeMismatch)
    ensures Consistent(r)
  {
    var m := IsSimilar(e.productType, s.productType, TypeThreshold);
    FieldResult(s.productType, e.productType, m, if m then Match else TypeMismatch)
  }

  /** `alcoholContent` entry: both sides normalised, then the 0.5 tolerance. */
  function AbvResult(e: Extracted, s: Submitted): (r: FieldResult)
    ensures r.submitted == s.alcoholContent && r.extracted == e.alcoholContent
    ensures r.matched == AbvsMatch(NormalizeAbv(s.alcoholContent), NormalizeAbv(e.alcoholContent))
    ensures r.reason == (if r.matched then Match else AbvMismatch(NormalizeAbv(s.alcoholContent), NormalizeAbv(e.alcoholContent)))
    ensures Consistent(r)
  {
    var submittedAbv := NormalizeAbv(s.alcoholContent);
    var extractedAbv := NormalizeAbv(e.alcoholContent);
    var m := AbvsMatch(submittedAbv, extractedAbv);
    FieldResult(s.alcoholContent, e.alcoholContent, m, if m then Match else AbvMismatch(submittedAbv, extractedAbv))
  }

  /** `netContents` entry: both sides normalised, then equality or the 1 ml tolerance. */
  function VolumeResult(e: Extracted, s: Submitted): (r: FieldResult)
    ensures r.submitted == s.netContents && r.extracted == e.netContents
    ensures r.matched == VolumesMatch(VolumeOf(s.netContents), VolumeOf(e.netContents))
    ensures r.reason == (if r.matched then Match else VolumeMismatch)
    ensures Consistent(r)
  {
    var m := VolumesMatch(VolumeOf(s.netContents), VolumeOf(e.netContents));
    FieldResult(s.netContents, e.netContents, m, if m then Match else VolumeMismatch)
  }

  /** `extractedData.confidence || 'medium'`. */
  function ConfidenceOf(e: Extracted): (c: string)
    ensures c != ""
    ensures !IsFalsy(e.confidence) ==> c == e.confidence.value
    ensures IsFalsy(e.confidence) ==> c == "medium"
  {
    if IsFalsy(e.confidence) then "medium" else e.confidence.value
  }

  /** The results object: the four entries, and `overallMatch` cleared by any mismatch. */
  function Assemble(brand: FieldResult, productType: FieldResult, abv: FieldResult, volume: FieldResult,
                    timestamp: string, confidence: string, additionalInfo: Option<string>): (r: VerificationResult)
    ensures r.fields.Keys == AllFields
    ensures r.fields[BrandName] == brand && r.fields[ProductType] == productType
    ensures r.fields[AlcoholContent] == abv && r.fields[NetContents] == volume
    ensures r.overallMatch <==> forall f :: f in r.fields ==> r.fields[f].matched
    ensures Consistent(brand) && Consistent(productType) && Consistent(abv) && Consistent(volume)
      ==> forall f :: f in r.fields ==> Consistent(r.fields[f])
    ensures r.timestamp == timestamp && r.confidence == confidence && r.additionalInfo == additionalInfo
  {
    var fields := map[BrandName := brand, ProductType := productType, AlcoholContent := abv, NetContents := volume];
    assert fields.Keys == AllFields;
    VerificationResult(brand.matched && productType.matched && abv.matched && volume.matched,
      fields, timestamp, confidence, additionalInfo)
  }

  /** The result verifyLabel builds, with the clock reading passed in. */
  function Verify(e: Extracted, s: Submitted, timestamp: string): (r: VerificationResult)
    ensures r.fields.Keys == AllFields
    ensures r.overallMatch <==> forall f :: f in r.fields ==> r.fields[f].matched
    ensures forall f :: f in r.fields ==> Consistent(r.fields[f])
    ensures r.fields[BrandName].submitted == s.brandName && r.fields[BrandName].extracted == e.brandName
    ensures r.fields[ProductType].submitted == s.productType && r.fields[ProductType].extracted == e.productType
    ensures r.fields[AlcoholContent].submitted == s.alcoholContent && r.fields[AlcoholContent].extracted == e.alcoholContent
    ensures r.fields[NetContents].submitted == s.netContents && r.fields[NetContents].extracted == e.netContents
    ensures r.fields[BrandName].matched == IsSimilar(e.brandName, s.brandName, DefaultThreshold)
    ensures r.fields[ProductType].matched == IsSimilar(e.productType, s.productType, TypeThreshold)
    ensures r.fields[AlcoholContent].matched == AbvsMatch(NormalizeAbv(s.alcoholContent), NormalizeAbv(e.alcoholContent))
    ensures r.fields[NetContents].matched == VolumesMatch(VolumeOf(s.netContents), VolumeOf(e.netContents))
    ensures !r.fields[AlcoholContent].matched
      ==> r.fields[AlcoholContent].reason == AbvMismatch(NormalizeAbv(s.alcoholContent), NormalizeAbv(e.alcoholContent))
    ensures r.confidence != "" && (!IsFalsy(e.confidence) ==> r.confidence == e.confidence.value)
    ensures IsFalsy(e.confidence) ==> r.confidence == "medium"
    ensures r.timestamp == timestamp && r.additionalInfo == e.additionalInfo
  {
    Assemble(BrandResult(e, s), TypeResult(e, s), AbvResult(e, s), VolumeResult(e, s),
      timestamp, ConfidenceOf(e), e.additionalInfo)
  }

  /** verifyLabel(extractedData, submittedData): fills `fields` one entry at a time and clears `overallMatch` on each mismatch. */
  method VerifyLabel(extractedData: Extracted, submittedData: Submitted, timestamp: string) returns (results: VerificationResult)
    ensures results == Verify(extractedData, submittedData, timestamp)
  {
    var overallMatch := true;
    var fields: map<Field, FieldResult> := map[];

    var brandMatch := IsSimilar(extractedData.brandName, submittedData.brandName, DefaultThreshold);
    fields := fields[BrandName := FieldResult(submittedData.brandName, extractedData.brandName, brandMatch,
      if brandMatch then Match else BrandMismatch)];
    if !brandMatch {
      overallMatch := false;
    }

    var typeMatch := IsSimilar(extractedData.productType, submittedData.productType, TypeThreshold);
    fields := fields[ProductType := FieldResult(submittedData.productType, extractedData.productType, typeMatch,
      if typeMatch then Match else TypeMismatch)];
    if !typeMatch {
      overallMatch := false;
    }

    var submittedAbv := NormalizeAbv(submittedData.alcoholContent);
    var extractedAbv := NormalizeAbv(extractedData.alcoholContent);
    var abvMatch := AbvsMatch(submittedAbv, extractedAbv);
    fields := fields[AlcoholContent := FieldResult(submittedData.alcoholContent, extractedData.alcoholContent, abvMatch,
      if abvMatch then Match else AbvMismatch(submittedAbv, extractedAbv))];
    if !abvMatch {
      overallMatch := false;
    }

    var submittedVolume := NormalizeVolume(submittedData.netContents);
    var extractedVolume := NormalizeVolume(extractedData.netContents);
    var volumeMatch := VolumesMatch(submittedVolume, extractedVolume);
    fields := fields[NetContents := FieldResult(submittedData.netContents, extractedData.netContents, volumeMatch,
      if volumeMatch then Match else VolumeMismatch)];
    if !volumeMatch {
      overallMatch := false;
    }

    var confidence := if IsFalsy(extractedData.confidence) then "medium" else extractedData.confidence.value;
    results := VerificationResult(overallMatch, fields, timestamp, confidence, extractedData.additionalInfo);
  }

  /** One field that does not match makes the whole label fail. */
  lemma OneMismatchFails(e: Extracted, s: Submitted, timestamp: string, f: Field)
    requires !Verify(e, s, timestamp).fields[f].matched
    ensures !Verify(e, s, timestamp).overallMatch
  {
    assert f in AllFields;
  }

  /** A brand name or product type missing from the label never fails the comparison. */
  lemma AbsentTextsMatch(e: Extracted, s: Submitted, timestamp: string)
    requires IsFalsy(e.brandName) && IsFalsy(e.productType)
    ensures Verify(e, s, timestamp).fields[BrandName].matched
    ensures Verify(e, s, timestamp).fields[ProductType].matched
  {
    AbsentIsSimilar(e.brandName, s.brandName, DefaultThreshold);
    AbsentIsSimilar(e.productType, s.productType, TypeThreshold);
  }

  /** A label that says exactly what was submitted passes on every field. */
  lemma IdenticalRecordsMatch(e: Extracted, s: Submitted, timestamp: string)
    requires e.brandName == s.brandName && e.productType == s.productType
    requires e.alcoholContent == s.alcoholContent && e.netContents == s.netContents
    ensures Verify(e, s, timestamp).overallMatch
  {
  }
}
