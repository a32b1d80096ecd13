# Label verification engine

This project models the comparison engine of an alcohol-label verifier (`backend/server.js`).
A form describes a product: brand name, product type, alcohol content and net contents.
The engine compares each of these fields with the same field read off the label image.

- **`normalizeText`** makes brand names and product types comparable. It lower-cases the text,
  deletes everything outside `[\w\s.]`, collapses whitespace runs to a single space and trims.
- **`isSimilar`** accepts two texts that are equal after normalisation, or where one contains the
  other. Failing that, it accepts them when `1 - distance / maxLength` reaches a threshold.
  The threshold is 0.85 for brands and 0.7 for product types.
- **`levenshteinDistance`** computes `distance` by filling a matrix in two nested loops.
- **`normalizeVolume`** converts the first unit pattern that matches to millilitres, rounded to
  hundredths. The patterns are tried in the order ml, l, cl, fl oz, oz. When none matches, it keeps
  the lower-cased text with its whitespace removed.
- **`normalizeABV`** reads the first number of the alcohol content.
- **`verifyLabel`** applies the four comparisons and folds them into `overallMatch`.

The project has these modules:

- `JsString`: JavaScript falsiness of a possibly absent field, the `\s`, `\w` and `\d` classes,
  `toLowerCase`, `replace(/\s+/g, '')` and `trim`.
- `Decimal`: runs of digits and their values.
- `NumberPattern`: the regular expressions `(\d+\.?\d*)unit` as a leftmost search, and `parseFloat`
  of the captured group.
- `JsNumber`: the number coercion that `-` applies to its operands.
- `TextNormalizer`, `Levenshtein`, `Similarity`, `Volume` and `Abv`: one per helper of the server.
- `VolumeExamples`: worked conversions.
- `Verification`: `verifyLabel`.
- `VerificationSamples`: the sample scenarios of the application, run through `verifyLabel`.

## How the model is built

- **Absent fields.** Fields of the records are `Option<string>`. `None` and `""` behave alike,
  because every normaliser starts with `if (!x)`.
- **Result types.** `normalizeVolume` returns a number or a string (`Vol = Ml(real) | Raw(string)`).
  `normalizeABV` returns a number or `''` (`Abv = Num(real) | Empty`).
- **Coercion.** The subtractions in the ABV and volume comparisons go through an explicit coercion.
  It turns `''` into 0, a plain decimal string into its value, and any other string into NaN.
- **Regular expressions.** Each is a leftmost, unanchored search.
  - At each start position it takes maximal digits, an optional dot and maximal digits, then
    needs the unit literal right after.
  - `NumberPattern.SplitIsGreedy` shows that backtracking could not split the input any other way.
  - The `\s*` inside the volume patterns always matches nothing, because `normalizeVolume` has
    already removed all whitespace. So `fl\s*oz` is the literal `floz`.
- **Arithmetic.** All of it uses exact reals. `Math.round(v * 100) / 100` is
  `Floor(v * 100 + 1/2) / 100`.
- **`levenshteinDistance`** is a method that fills an `array2<int>`. Row `i` runs over `str2` and
  column `j` over `str1`. The method is proved equal to the recursive `Levenshtein.Dist`, which
  uses the same recurrence, and the lemmas are about `Dist`.
- **`normalizeVolume`** is a method that loops over the patterns and returns early. It is proved
  equal to the function `Volume.VolumeOf`.
  - The source tests the unit with three separate `if`s. They exclude one another, so the method
    writes them as one `if … else if` chain.
- **`verifyLabel`** is a method that fills the `fields` map entry by entry and clears `overallMatch`
  after each mismatch. It is proved equal to the function `Verification.Verify`.
  - The clock reading `new Date().toISOString()` is a parameter.
- **Where the code's behaviour differs from a plain reading of the intent, the model follows the code:**
  - An alcohol content with no digits normalises to `''`, and `-` reads `''` as 0. So two
    unreadable alcohol contents match, and an unreadable one matches any value below 0.5.
  - A text that normalises to `""` is contained in every string. So an absent brand name or product
    type is similar to anything, on either side.
  - A bare number such as `"750"` stays the string `"750"`, but `-` reads it as 750. So it matches
    `"750 mL"` (normalised to 750).
  - `".75l"` matches at the `75` and gives 75000 ml.
  - `"1L 500mL"` gives 500, because the ml pattern is tried first.
  - `"25.4 fl oz"` is 751.17 ml, which does not match 750 mL.

## Model

| member | source | states |
|---|---|---|
| JsString.ToLowerCase | backend/server.js:64 | Keeps the length, and maps every ASCII upper-case letter to its lower-case letter and every other character to itself |
| JsString.LowerCaseFixed | backend/server.js:64 | Lower-casing a text without upper-case letters leaves it unchanged |
| JsString.RemoveSpaces | backend/server.js:73 | The result is no longer than the input and contains no whitespace; a text without whitespace is unchanged |
| JsString.RemoveSpacesSubset | backend/server.js:73 | Every character of the result occurs in the input |
| JsString.RemoveSpacesConcat | backend/server.js:73 | Removing whitespace from a concatenation is the concatenation of the two results |
| JsString.TrimStart | backend/server.js:67 | The result is the input without its longest whitespace prefix: a suffix of the input, every character dropped is whitespace, and the result does not start with whitespace |
| JsString.TrimEnd | backend/server.js:67 | The result is the input without its longest whitespace suffix: a prefix of the input, every character dropped is whitespace, and the result does not end with whitespace |
| JsString.RemoveSpacesTrim | backend/server.js:67 | Trimming removes only whitespace: the non-space characters, in order, are those of the input |
| JsString.TrimStartRun | backend/server.js:66-67 | A run of whitespace followed by a non-space character is dropped entirely, and nothing after it |
| JsString.TrimIsSlice | backend/server.js:67 | `trim` returns a contiguous slice of its input |
| JsString.TrimEnds | backend/server.js:67 | A non-empty trimmed text neither starts nor ends with whitespace |
| TextNormalizer.KeepWordSpaceDot | backend/server.js:65 | Every character left is a word character, whitespace or a dot; the result is no longer than the input and gains no upper-case letter |
| TextNormalizer.KeepConcat | backend/server.js:65 | Deleting characters from a concatenation works piece by piece |
| TextNormalizer.KeepFixed | backend/server.js:65 | A text made only of kept characters is unchanged |
| TextNormalizer.CollapseKeepsNonSpace | backend/server.js:66 | Collapsing keeps every non-space character, in order, and adds none |
| TextNormalizer.CollapseRun | backend/server.js:66 | A whitespace run of any length and kind, up to the next non-space character, becomes one plain space |
| TextNormalizer.CollapseConcat | backend/server.js:66 | Collapsing works piece by piece when the cut does not fall inside a whitespace run |
| TextNormalizer.CollapseSingleSpaced | backend/server.js:66 | After collapsing, all whitespace is single plain spaces, never two in a row |
| TextNormalizer.CollapseAlphabet | backend/server.js:64-66 | Collapsing a text of lower-case letters, digits, `_`, `.` and whitespace leaves only those characters, with plain spaces for the whitespace |
| TextNormalizer.CollapseFixed | backend/server.js:66 | A text over that alphabet without double spaces is unchanged by collapsing |
| TextNormalizer.TrimCanonical | backend/server.js:67 | Trimming such a text yields a canonical text: that alphabet, single interior spaces, no space at either end |
| TextNormalizer.NormalizeText | backend/server.js:61-68 | The result is always canonical and never longer than the input; an absent or empty input gives `""` |
| TextNormalizer.CanonicalSteps | backend/server.js:63-67 | Each of the four steps leaves a canonical text unchanged |
| TextNormalizer.CanonicalIsFixed | backend/server.js:61-68 | Normalising a canonical text returns it unchanged |
| TextNormalizer.FixedPointIff | backend/server.js:61-68 | A text is left unchanged by normalisation if and only if it is canonical |
| TextNormalizer.NormalizeIdempotent | backend/server.js:61-68 | Normalising twice gives the same as normalising once |
| TextNormalizer.CanonicalAfterKeep | backend/server.js:63-67 | A text whose deletion step already gives a canonical text normalises to that text |
| TextNormalizer.CanonicalAfterLower | backend/server.js:63-67 | A text whose lower-case form is canonical normalises to that form |
| TextNormalizer.NormalizeKeepsNonSpace | backend/server.js:61-68 | The non-space characters of the result are exactly, in order, those the lower-casing and deletion steps leave |
| TextNormalizer.NormalizeSpacedWords | backend/server.js:61-68 | Two words with whitespace runs before, between and after them normalise to the two words joined by one space |
| TextNormalizer.NormalizeSpacedOldTom | backend/server.js:61-68 | "  Old   Tom " normalises to "old tom" |
| TextNormalizer.NormalizeOldTom | frontend/src/App.jsx:124 | "Old Tom Distillery" normalises to "old tom distillery" |
| TextNormalizer.NormalizeToms | frontend/src/App.jsx:130 | "Tom's Distillery" normalises to "toms distillery" |
| Levenshtein.LevenshteinDistance | backend/server.js:125-151 | The nested-loop fill of the matrix, with first column `i` and first row `j`, returns the recursive edit distance `Dist` of the two whole strings |
| Levenshtein.DistSymmetric | backend/server.js:136-148 | The recurrence gives the same value with the two strings and their prefix lengths exchanged |
| Levenshtein.EditDistanceSymmetric | backend/server.js:125-151 | The distance does not depend on the order of the two strings |
| Levenshtein.DistZeroIff | backend/server.js:136-148 | The distance between two prefixes is 0 if and only if the prefixes are equal |
| Levenshtein.EditDistanceZeroIff | backend/server.js:125-151 | The distance is 0 if and only if the strings are equal |
| Levenshtein.DistAtLeastGap | backend/server.js:136-148 | The distance between two prefixes is at least the difference of their lengths |
| Levenshtein.DistAtMostLonger | backend/server.js:136-148 | The distance between two prefixes is at most the longer length |
| Levenshtein.EditDistanceBounds | backend/server.js:125-151 | The distance lies between the length difference and the longer length |
| Similarity.IncludesAt | backend/server.js:114 | `includes` holds if and only if the text occurs at some index |
| Similarity.IncludesNeedsLength | backend/server.js:114 | A text is only contained in one at least as long |
| Similarity.SimilarThresholdTest | backend/server.js:117-121 | When the texts are neither equal nor contain each other, the longer length is positive, and they are similar iff `maxLength - distance >= threshold * maxLength` |
| Similarity.TrivialIsSimilar | backend/server.js:111-114 | Equal texts, and texts where one contains the other, are always similar |
| Similarity.EmptyIsSimilar | backend/server.js:111-114 | A value that normalises to `""` is similar to every value, on either side |
| Similarity.AbsentIsSimilar | backend/server.js:107-114 | An absent or empty value is similar to every value, on either side |
| Similarity.SimilarSymmetric | backend/server.js:107-122 | isSimilar does not depend on the order of its two values |
| Similarity.SimilarMonotone | backend/server.js:121 | Raising the threshold never turns a non-match into a match |
| Similarity.SimilarNeedsLengths | backend/server.js:117-121 | Beyond equality and inclusion, a match needs `maxLength - lengthGap >= threshold * maxLength` |
| Similarity.SimilarAtNonPositiveThreshold | backend/server.js:117-121 | At a threshold of at most 0 every pair of texts is similar |
| Similarity.SimilarAtFullThreshold | backend/server.js:111-121 | At threshold 1 two texts are similar iff they are equal or one contains the other |
| Similarity.SampleBrandsNotSimilar | frontend/src/App.jsx:124-130 | The sample brands "Old Tom Distillery" and "Tom's Distillery" are not similar at 0.85 |
| Decimal.DigitsEnd | backend/server.js:77 | The end of the maximal digit run from an index: all digits before it, a non-digit or the end of the text at it |
| Decimal.DigitsValueBound | backend/server.js:87 | A digit string is worth less than ten to the power of its length |
| Decimal.FractionValue | backend/server.js:87 | The digits after a decimal point are worth at least 0 and less than 1 |
| NumberPattern.TokenAt | backend/server.js:77-81 | The greedy `\d+\.?\d*` from a digit: maximal whole digits, then a dot and maximal fraction digits when a dot follows |
| NumberPattern.Search | backend/server.js:85 | `match` finds the leftmost index where the pattern matches, or reports that it matches nowhere |
| NumberPattern.SplitIsGreedy | backend/server.js:77-81 | For a unit literal that starts with neither a digit nor a dot, every way the regular expression can match at an index is the greedy token |
| NumberPattern.GreedyIsSplit | backend/server.js:77-81 | The greedy token is one of the ways the regular expression can match |
| NumberPattern.ParseFloat | backend/server.js:87 | `parseFloat` of a captured group is non-negative |
| NumberPattern.EmptyUnitMatchesDigits | backend/server.js:102 | `/(\d+\.?\d*)/` matches at exactly the digits |
| NumberPattern.NoMatchUnlessAfterNumber | backend/server.js:77-81 | A unit pattern cannot match when its first letter never follows a digit or a dot |
| NumberPattern.SearchFindsAt | backend/server.js:85 | The first index where the pattern matches is the match `match` returns |
| JsNumber.MinusAntisymmetric | backend/server.js:240 | Swapping the operands of `-` negates the difference, and a NaN difference stays NaN |
| JsNumber.AbsBelowNegate | backend/server.js:240 | `Math.abs(x) < bound` gives the same answer for x and for its negation, NaN included |
| JsNumber.ReadDigits | backend/server.js:253 | A non-empty string of decimal digits reads as the number it writes |
| JsNumber.UnsignedDecimal | backend/server.js:253 | A numeric string without a sign reads as a non-negative number |
| JsNumber.StringToNumber | backend/server.js:253 | A string of whitespace only, the empty string included, reads as 0 |
| Volume.SquashShape | backend/server.js:73 | The squashed text has no whitespace and no upper-case letter, and squashing it again changes nothing |
| Volume.RoundTo2Near | backend/server.js:92 | The rounded value is within half a hundredth of the input and a whole number of hundredths |
| Volume.RoundTo2NonNegative | backend/server.js:92 | Rounding keeps a non-negative amount non-negative |
| Volume.FirstHit | backend/server.js:84-86 | The index of the first pattern that matches: no pattern before it matches |
| Volume.FirstHitAt | backend/server.js:84-86 | A pattern that matches after all earlier ones missed is the first hit |
| Volume.VolumeOfHit | backend/server.js:84-93 | When pattern k is the first that matches, the result is its converted, rounded value |
| Volume.VolumeOfMiss | backend/server.js:96 | When no pattern matches, the result is the squashed text |
| Volume.NormalizeVolume | backend/server.js:71-97 | The loop over the patterns with its early return computes `VolumeOf` |
| Volume.VolumeOfRaw | backend/server.js:71-97 | The result is a string iff the input is empty or no pattern matches, and that string is `""` or the squashed input |
| Volume.VolumeOfMl | backend/server.js:87-92 | A millilitre result is non-negative and a whole number of hundredths |
| Volume.ConvertedShape | backend/server.js:87-92 | Every converted amount is non-negative and a whole number of hundredths |
| Volume.RawIsFixed | backend/server.js:71-97 | Normalising a string result again gives the same result |
| Volume.RawDigitsReading | backend/server.js:253 | A volume left as a string of digits reads, under `-`, as the number it writes |
| Volume.VolumesMatchSymmetric | backend/server.js:252-253 | The volume comparison does not depend on the order of its sides |
| Volume.MillilitresMatch | backend/server.js:252-253 | Two millilitre values match iff they differ by less than 1 |
| Volume.NotANumberMatchesOnlyItself | backend/server.js:252-253 | A string result that does not read as a number matches only the identical string |
| Volume.AbsentMatchesMl | backend/server.js:250-253 | An absent volume matches a non-negative millilitre value iff that value is below 1 |
| VolumeExamples.FirstMatch | backend/server.js:84-93 | The result once the first matching pattern and its rounded value are known |
| VolumeExamples.NoMatch | backend/server.js:96 | The result once every pattern is known to miss |
| VolumeExamples.Example750Ml | backend/server.js:71-97 | "750 mL" gives 750 ml |
| VolumeExamples.Example075L | backend/server.js:71-97 | "0.75l" gives 750 ml |
| VolumeExamples.Example75Cl | backend/server.js:71-97 | "75cl" gives 750 ml |
| VolumeExamples.Example254FlOz | backend/server.js:71-97 | "25.4 fl oz" gives 751.17 ml |
| VolumeExamples.Example12Oz | backend/server.js:71-97 | "12oz" gives 354.88 ml |
| VolumeExamples.ExampleMlFirst | backend/server.js:76-86 | "1L 500mL" gives 500 ml, because the ml pattern is tried before the l pattern |
| VolumeExamples.ExampleLeadingDot | backend/server.js:78-89 | ".75l" matches at the 75 and gives 75000 ml |
| VolumeExamples.ExampleNoUnit | backend/server.js:96 | "750" matches no pattern and is returned as the string "750" |
| VolumeExamples.AbsentVolumeExamples | backend/server.js:250-258 | An absent net contents does not match "750 mL", and two absent ones match |
| VolumeExamples.UnitlessMatchesMl | backend/server.js:250-258 | The bare "750" matches "750 mL" through the coercion of `-` |
| VolumeExamples.FluidOuncesAgainstMl | backend/server.js:250-258 | "25.4 fl oz" does not match "750 mL" |
| Abv.NormalizeAbv | backend/server.js:100-104 | A number result is non-negative, and the result is `''` iff the input is empty or has no digit |
| Abv.AbvIsFirstToken | backend/server.js:102-103 | The number read is `parseFloat` of the greedy token at the first digit |
| Abv.AbvOfDecimal | backend/server.js:102-103 | An alcohol content of digits, a dot and digits reads as the whole part plus the fraction |
| Abv.AbvOfWhole | backend/server.js:102-103 | An alcohol content that starts with digits not followed by a dot reads as their value |
| Abv.AbvsMatchSymmetric | backend/server.js:240 | The alcohol comparison does not depend on the order of its sides |
| Abv.NumbersMatch | backend/server.js:240 | Two numbers match iff they differ by strictly less than 0.5 |
| Abv.EmptyMatches | backend/server.js:240 | An unreadable alcohol content matches exactly another unreadable one or a number below 0.5 in absolute value |
| Abv.DigitFreeMatch | backend/server.js:238-240 | Two alcohol contents without digits, absent ones included, always match |
| Abv.ToleranceExamples | backend/server.js:238-240 | 45 against 44.5 is a mismatch; 45 against 44.6 is a match |
| Abv.SampleAbvExample | frontend/src/App.jsx:126-138 | "40%" reads as 40, "45%" as 45, and they do not match |
| Verification.BrandResult | backend/server.js:218-225 | The brand entry carries the raw values, is similar at 0.85 with the extracted value first, and its reason is 'Match' iff it matches |
| Verification.TypeResult | backend/server.js:228-235 | The product type entry carries the raw values, is similar at 0.7, and its reason is 'Match' iff it matches |
| Verification.AbvResult | backend/server.js:238-247 | The alcohol entry carries the raw values, uses the 0.5 tolerance on the normalised values, and on a mismatch its reason carries the two normalised values |
| Verification.VolumeResult | backend/server.js:250-260 | The net contents entry carries the raw values, uses equality or the 1 ml tolerance, and its reason is 'Match' iff it matches |
| Verification.ConfidenceOf | backend/server.js:263 | The confidence is the extracted value when that is truthy, and 'medium' otherwise |
| Verification.Assemble | backend/server.js:211-266 | `fields` holds exactly the four entries given; `overallMatch` holds iff all four match; timestamp, confidence and additional information are passed through |
| Verification.Verify | backend/server.js:210-267 | Exactly four fields, each with its raw values and its comparison; `overallMatch` iff all match; 'Match' iff matched; the confidence is the extracted one when truthy and 'medium' otherwise; `additionalInfo` and the timestamp pass through |
| Verification.VerifyLabel | backend/server.js:210-267 | Filling `fields` one entry at a time and clearing `overallMatch` on each mismatch yields `Verify` |
| Verification.OneMismatchFails | backend/server.js:225-260 | One field that does not match makes `overallMatch` false |
| Verification.AbsentTextsMatch | backend/server.js:218-228 | A brand name and product type missing from the label always match |
| Verification.IdenticalRecordsMatch | backend/server.js:210-267 | A label that repeats the four submitted values matches overall |
| VerificationSamples.MatchingSample | frontend/src/App.jsx:123-128 | The "matching" sample passes on every field |
| VerificationSamples.BrandMismatchSample | frontend/src/App.jsx:129-134 | The "brandMismatch" sample fails on the brand alone |
| VerificationSamples.AbvMismatchSample | frontend/src/App.jsx:135-140 | The "abvMismatch" sample fails on the alcohol content alone, and the reason carries 40 and 45 |
| VerificationSamples.AbsentVolumeSample | backend/server.js:250-260 | A missing net contents on the label fails against "750 mL", and so does the whole label |

## Left out

- HTTP and upload handling (Express routes, CORS, multer, file deletion, environment and `listen`) are left out. They are I/O around the engine.
- `analyzeLabelImage` is left out. It is a call to an external vision service and a `JSON.parse`, so the extracted record is an input.
- The clock is left out: `new Date().toISOString()` is a `timestamp` parameter.
- IEEE-754 doubles are left out. `parseFloat`, the products by 1000, 10 and 29.5735, `Math.round` and `1 - d/max` use exact reals, so a rounding error at a boundary is not modelled.
- JsString.ToLowerCase: lowers only ASCII letters. Unicode case mapping is not modelled; for example U+212A KELVIN SIGN lowers to an ASCII `k` in JavaScript and would then survive normalisation.
- JsNumber.StringToNumber: reads only signed plain decimals and the blank string. Exponents, hexadecimal, `Infinity` and similar forms give NaN here, while JavaScript may read them as numbers.
- The text of the ABV mismatch reason is left out. JavaScript's number formatting is not modelled, so the reason is a datatype that holds the two values.
- Non-string extracted values are left out. A number in `alcoholContent` would make `abv.match` throw; every field is a string or absent.
- The frontend (`frontend/src/App.jsx`) is left out, apart from its three sample records, which the sample lemmas use as inputs.
