# URL coordinates: the `showCoord` decoder

The map application plugin reads a URL parameter `showCoord` such as `52.0,7.5,4326` and
turns it into a new map centre. It reads two coordinates and an optional WKID, the
well-known identifier of a spatial reference system. The repository holds two versions of
the handler class `URLCoordinatesHandler`, and this project models the decoding half of each:

- bundle `urlcoordinates` (module `UrlCoordinates`, file `urlcoordinates.dfy`):
  - Optional cleaning of decorations: parentheses, spaces, and the labels `x:`, `x=`, `y:`,
    `y=`, `WKID=` and `WKID:`.
  - Splitting on `,`, and the structural errors for a single piece.
  - The default WKID `defaultWKID` appended at index 2 of a bare pair, with a
    `console.warn`.
  - Optional validation. Bounds come from a table keyed by the parsed WKID: 4326, 25833, or
    unbounded. The WKID's length is measured on the rendering of the parsed integer.
  - Optional logging of every thrown error.
  - The centre point: projected x/y for WKID 25833, latitude/longitude otherwise.
- bundle `url-coordinates` (module `UrlCoordinatesFixed`, file `url_coordinates.dfy`):
  - The same cleaning, which also removes the degree sign `°`.
  - Validation that always runs, with fixed bounds: token 0 within [-180, 180], token 1
    within [-90, 90].
  - The WKID's length is measured on the raw token.
  - No default WKID and no logging.
  - The centre is token 0 as latitude and token 1 as longitude, with token 2 as WKID when
    present.

Shared building blocks:

- `JsString` models the JavaScript string operations the handlers use:
  - `replaceAll(p, "")`: left to right, non-overlapping, never rescanning what it produced.
  - `split` on one character, with `Join` as its inverse.
  - `length`, counted in UTF-16 code units.
- `JsNumber` models global `parseInt` per section 19.2.5 of ECMA-262:
  - It skips leading white space.
  - It reads an optional sign, and a `0x` prefix selects base 16.
  - The value is the longest run of digits; a string with no digit run gives NaN.
  - It also models `toString` of an integer and the infinite limits.
- `Outcomes` holds the outcome of one decode, one of:
  - nothing (absent or empty parameter);
  - an error kind thrown, with what was reported before it;
  - a centre point, with what was reported.
- `VerboseNotation` (`verbose_notation.dfy`) holds the verbose notation's plain
  counterpart `A,B,W` and what the removals do to its decorations.
- `BundleComparison` (`versions.dfy`) proves where the two bundles disagree on the same
  input.

`parseFloat` is a parameter of type `Outcomes.ParseFloat`, a `string -> Option<real>`
(NaN is `None`). An error is its message key, and `console.warn` and `logger.error` are
entries of the outcome's log.
Each decoder is a pure function `Decode` (with `DecodePieces` after the split). Beside it
sit methods in the shape of the source: `CleanInput` (the chain of reassignments),
`ValidateInputs` (the loop that stops at the first throw), `ValidateCoordinateValue` (the
four limit variables) and `DecodeURLParameter`. Each method is proved equal to its function.

Where the documented behaviour and the code differ, the model follows the code:

- In `urlcoordinates`, the missing-WKID warning goes to `console.warn` whether or not
  logger feedback is enabled.
- A removal does not rescan its own output: `xx::1,2` cleans to `x:1,2`, because removing
  the inner `x:` joins the outer `x` and `:` into a label that is not removed again.
- `urlcoordinates` does not remove `°`, although its comment lists it among the removed
  characters. The verbose notation `(x: 52.0°) , (y: 7.5°) , WKID: 4326` then keeps the
  degree signs in its pieces, and decodes like `52.0,7.5,4326` only when `parseFloat`
  ignores a trailing `°` (as JavaScript's does).
- `urlcoordinates` counts the characters of the parsed WKID's rendering, not of the token.
  So `0043` is too short, `04326` passes, and `-100` to `-9999` pass because the minus sign
  counts.
- `url-coordinates` counts the raw token in UTF-16 code units. So `4326abc` is too long
  although `parseInt` reads 4326, and a character outside the Basic Multilingual Plane
  counts two.
- `url-coordinates` checks token 0 against the longitude range [-180, 180] but builds the
  point with token 0 as latitude. So a latitude of 100 is accepted.

## Model

| member | source | states |
|---|---|---|
| JsString.Utf16Length | src/main/js/bundles/url-coordinates/URLCoordinatesHandler.js:158-159 | the `length` of a string in UTF-16 code units: at least its number of characters and at most twice that, equal to it when no character lies above U+FFFF, and twice it when every character does |
| JsString.Utf16LengthOfChar | src/main/js/bundles/url-coordinates/URLCoordinatesHandler.js:158-159 | one character counts one code unit up to U+FFFF and two beyond it |
| JsString.Utf16LengthAppend | src/main/js/bundles/url-coordinates/URLCoordinatesHandler.js:158-159 | the UTF-16 length of a concatenation is the sum of the lengths of its parts |
| JsString.RemoveAll | src/main/js/bundles/urlcoordinates/URLCoordinatesHandler.js:82-90 | `replaceAll(p, "")` never makes the string longer |
| JsString.RemoveAllKeepsOut | src/main/js/bundles/urlcoordinates/URLCoordinatesHandler.js:82-90 | `replaceAll` with `""` never introduces a character, and removing a one-character pattern leaves no occurrence of it |
| JsString.RemoveCharCounts | src/main/js/bundles/urlcoordinates/URLCoordinatesHandler.js:82-84 | removing a one-character pattern deletes exactly its occurrences and keeps every other character's count |
| JsString.RemoveAllAbsent | src/main/js/bundles/urlcoordinates/URLCoordinatesHandler.js:82-90 | a pattern with a character absent from the string leaves the string unchanged |
| JsString.RemoveAllAtMatch | src/main/js/bundles/urlcoordinates/URLCoordinatesHandler.js:82-90 | a match at the front is removed and the scan resumes right after it, without looking back |
| JsString.RemoveAllAround | src/main/js/bundles/urlcoordinates/URLCoordinatesHandler.js:82-90 | a non-empty stretch sharing no character with the pattern is never part of a match: it is kept, and the removal runs on each side of it separately |
| JsString.RemoveEachAppend | src/main/js/bundles/urlcoordinates/URLCoordinatesHandler.js:82-90 | a chain of removals is the removals of its first part followed by those of the rest |
| JsString.RemoveEachRemovesChar | src/main/js/bundles/url-coordinates/URLCoordinatesHandler.js:68-77 | a chain that removes a one-character pattern at any step leaves none of that character, whatever the later steps remove |
| JsString.RemoveEachSkipsAbsentChar | src/main/js/bundles/url-coordinates/URLCoordinatesHandler.js:68-77 | a removal step for a character the string does not hold can be dropped from the chain without changing the result |
| JsString.RemoveEachAround | src/main/js/bundles/urlcoordinates/URLCoordinatesHandler.js:81-93 | a non-empty stretch sharing no character with any pattern of the chain is kept, and the whole chain runs on each side of it separately |
| JsString.Split | src/main/js/bundles/urlcoordinates/URLCoordinatesHandler.js:38-40 | `split(",")` yields at least one piece, no piece holds the separator, and there is exactly one piece iff the string has no separator |
| JsString.Join | src/main/js/bundles/urlcoordinates/URLCoordinatesHandler.js:38-40 | the join of the pieces starts with the first piece, which is followed by the separator when there are two or more pieces |
| JsString.JoinSplit | src/main/js/bundles/urlcoordinates/URLCoordinatesHandler.js:38-40 | joining the pieces with the separator gives the string back |
| JsString.SplitJoin | src/main/js/bundles/urlcoordinates/URLCoordinatesHandler.js:38-40 | splitting the join of separator-free pieces gives the pieces back |
| JsString.SplitAfterSeparator | src/main/js/bundles/urlcoordinates/URLCoordinatesHandler.js:38-40 | a separator-free text followed by the separator is the first piece, and what follows splits on its own |
| JsString.SplitWhole | src/main/js/bundles/urlcoordinates/URLCoordinatesHandler.js:44-45 | a string without the separator splits into itself alone |
| JsString.EmptyPieceOnlyFromEmpty | src/main/js/bundles/urlcoordinates/URLCoordinatesHandler.js:44-45 | the split is the single empty piece exactly when the string is empty |
| VerboseNotation.PlainSplits | src/main/js/bundles/urlcoordinates/URLCoordinatesHandler.js:38-40 | the plain notation `A,B,W` with comma-free parts splits into exactly `A`, `B` and `W` |
| JsNumber.TrimStart | src/main/js/bundles/urlcoordinates/URLCoordinatesHandler.js:197 | `parseInt` continues on a suffix of its input that does not start with white space, and everything before that suffix is white space |
| JsNumber.DigitRun | src/main/js/bundles/urlcoordinates/URLCoordinatesHandler.js:197 | the digits `parseInt` reads are a prefix of digits followed by a non-digit or the end |
| JsNumber.ParseInt | src/main/js/bundles/urlcoordinates/URLCoordinatesHandler.js:197-200 | `parseInt` is NaN for a blank string, and its value is negative only when the text after the white space starts with `-` |
| JsNumber.ParseSigned | src/main/js/bundles/urlcoordinates/URLCoordinatesHandler.js:197-200 | after the white space, NaN for nothing left; a leading `-` gives a value of at most 0 and anything else a value of at least 0 |
| JsNumber.ParseMagnitude | src/main/js/bundles/urlcoordinates/URLCoordinatesHandler.js:197-200 | NaN when no digit comes first; a string of decimal digits only reads as the value of those digits |
| JsNumber.ParseIntDecimal | src/main/js/bundles/url-coordinates/URLCoordinatesHandler.js:150 | a decimal digit run followed by a non-digit parses to the value of the run, leading zeros included and trailing text ignored |
| JsNumber.Digits | src/main/js/bundles/urlcoordinates/URLCoordinatesHandler.js:208 | the rendering of a natural number is a non-empty digit string without a leading zero, except for 0 |
| JsNumber.IntToString | src/main/js/bundles/urlcoordinates/URLCoordinatesHandler.js:208-209 | `toString` of an integer is non-empty, starts with `-` exactly for a negative number, and is digits after that sign |
| JsNumber.DigitsValueOfDigits | src/main/js/bundles/urlcoordinates/URLCoordinatesHandler.js:208 | the rendering of a natural number reads back as that number |
| JsNumber.DigitsLength | src/main/js/bundles/urlcoordinates/URLCoordinatesHandler.js:208 | the rendering has at most k digits iff the number is below 10^k |
| JsNumber.ParseIntOfIntToString | src/main/js/bundles/urlcoordinates/URLCoordinatesHandler.js:59 | `parseInt` of a rendered integer, such as the default WKID stored as a number, gives that integer back |
| JsNumber.RenderedLength | src/main/js/bundles/urlcoordinates/URLCoordinatesHandler.js:208-209 | the rendering of n is shorter than 4 iff -100 < n < 1000, and longer than 5 iff n <= -10000 or n >= 100000 |
| UrlCoordinates.Clean | src/main/js/bundles/urlcoordinates/URLCoordinatesHandler.js:81-93 | the cleaned string holds no parenthesis and no space, and is never longer than the input |
| UrlCoordinates.CleanInput | src/main/js/bundles/urlcoordinates/URLCoordinatesHandler.js:81-93 | the nine reassignments compute the removal chain, whose result holds no parenthesis or space and is no longer than the input |
| UrlCoordinates.AxisLimits | src/main/js/bundles/urlcoordinates/URLCoordinatesHandler.js:142-159 | the bounds are finite exactly for WKID 4326 and 25833, with the lower below the upper, and both infinite for any other WKID |
| UrlCoordinates.CoordinateError | src/main/js/bundles/urlcoordinates/URLCoordinatesHandler.js:129-180 | NaN is reported first; otherwise the check passes iff the value lies in the bounds for its index under the parsed WKID, and a failure names the X or Y limit by index |
| UrlCoordinates.ValidateCoordinateValue | src/main/js/bundles/urlcoordinates/URLCoordinatesHandler.js:129-180 | the four limit variables overwritten for 4326 and 25833 give that verdict, and the error is logged iff logger feedback is on |
| UrlCoordinates.WkidError | src/main/js/bundles/urlcoordinates/URLCoordinatesHandler.js:195-221 | NaN iff `parseInt` fails; passes iff the parsed n has 1000 <= n <= 99999 or -9999 <= n <= -100; too short iff -100 < n < 1000; too long iff n <= -10000 or n >= 100000 |
| UrlCoordinates.ValidationError | src/main/js/bundles/urlcoordinates/URLCoordinatesHandler.js:104-113 | no error iff token 0, token 1 and the WKID are all accepted |
| UrlCoordinates.ValidateInputs | src/main/js/bundles/urlcoordinates/URLCoordinatesHandler.js:104-113 | the loop over every token throws the first failure in index order, or nothing, and logs it iff logger feedback is on |
| UrlCoordinates.CenterFromTokens | src/main/js/bundles/urlcoordinates/URLCoordinatesHandler.js:317-340 | the point carries token 2 as WKID, is projected with tokens 0 and 1 as x and y iff token 2 parses to 25833, and otherwise holds them as latitude and longitude |
| UrlCoordinates.Completed | src/main/js/bundles/urlcoordinates/URLCoordinatesHandler.js:57-60 | a bare pair gets a third element, the default WKID as a number; every piece stays at its index; three or more pieces are kept as they are |
| UrlCoordinates.Decode | src/main/js/bundles/urlcoordinates/URLCoordinatesHandler.js:26-69 | nothing happens iff the parameter is absent or empty |
| UrlCoordinates.DecodePieces | src/main/js/bundles/urlcoordinates/URLCoordinatesHandler.js:43-67 | never nothing; the missing-WKID warning comes first iff there are two pieces; a thrown error is the last log entry when logger feedback is on; with it off only the warning is ever reported |
| UrlCoordinates.DecodeURLParameter | src/main/js/bundles/urlcoordinates/URLCoordinatesHandler.js:26-69 | the imperative decoder, with the default WKID appended to a two-element `splitCoords`, has exactly the outcome of `Decode` |
| UrlCoordinates.HandleSplitCoords | src/main/js/bundles/urlcoordinates/URLCoordinatesHandler.js:43-67 | after the split, the steps in source order give exactly `DecodePieces` |
| UrlCoordinatesProperties.LabelCanSurvive | src/main/js/bundles/urlcoordinates/URLCoordinatesHandler.js:81-93 | cleaning `xx::1,2` leaves the label `x:` in `x:1,2` |
| UrlCoordinatesProperties.DegreeSignKept | src/main/js/bundles/urlcoordinates/URLCoordinatesHandler.js:81-93 | this version leaves `7.5°` unchanged |
| UrlCoordinatesProperties.CleanAround | src/main/js/bundles/urlcoordinates/URLCoordinatesHandler.js:81-93 | digits, the decimal point, the minus sign, the comma and the degree sign occur in no decorative token, so cleaning works on either side of a run of them separately |
| UrlCoordinatesProperties.DecoratedCleaned | src/main/js/bundles/urlcoordinates/URLCoordinatesHandler.js:81-93 | for numerals `A`, `B`, `W` of digits, `.` and `-`, the verbose notation `(x: A°) , (y: B°) , WKID: W` cleans to `A°,B°,W`: every decoration goes but the degree signs stay |
| UrlCoordinatesProperties.DecoratedPieces | src/main/js/bundles/urlcoordinates/URLCoordinatesHandler.js:36-41 | read with `verboseInput`, the verbose notation splits into `A°`, `B°` and `W` |
| UrlCoordinatesProperties.PiecesDecodeAlike | src/main/js/bundles/urlcoordinates/URLCoordinatesHandler.js:43-67 | three pieces that `parseFloat` reads alike and that share the WKID give outcomes of the same kind, with the same error and log, whatever `verboseInput` is |
| UrlCoordinatesProperties.DecoratedDecodesLikePlain | src/main/js/bundles/urlcoordinates/URLCoordinatesHandler.js:26-69 | when `parseFloat` ignores a trailing degree sign, the verbose notation with `verboseInput` succeeds or fails like plain `A,B,W` without it, with the same log, and its centre keeps `A°` and `B°` as texts |
| UrlCoordinatesProperties.PiecesWithoutVerbose | src/main/js/bundles/urlcoordinates/URLCoordinatesHandler.js:36-41 | without `verboseInput` the pieces are comma-free and join back to the raw parameter |
| UrlCoordinatesProperties.WkidLeadingZeros | src/main/js/bundles/urlcoordinates/URLCoordinatesHandler.js:195-221 | `0043` is too short and `04326` passes, since the parsed value is measured |
| UrlCoordinatesProperties.WkidLengthExamples | src/main/js/bundles/urlcoordinates/URLCoordinatesHandler.js:207-220 | `123` is too short and `123456` too long |
| UrlCoordinatesProperties.ValidationIgnoresExtraTokens | src/main/js/bundles/urlcoordinates/URLCoordinatesHandler.js:104-113 | tokens after index 2 never change the validation result |
| UrlCoordinatesProperties.ValidationErrorKinds | src/main/js/bundles/urlcoordinates/URLCoordinatesHandler.js:104-113 | value validation never raises the structural errors |
| UrlCoordinatesProperties.StructuralErrors | src/main/js/bundles/urlcoordinates/URLCoordinatesHandler.js:43-56 | `emptyCoordinates` iff the split is the single empty piece; `malformedCoordinates` iff it is one non-empty piece |
| UrlCoordinatesProperties.SinglePiece | src/main/js/bundles/urlcoordinates/URLCoordinatesHandler.js:36-56 | a non-empty parameter is reported empty iff cleaning removed everything, and malformed iff the (cleaned) string is non-empty and has no comma |
| UrlCoordinatesProperties.BarePairGetsDefaultWkid | src/main/js/bundles/urlcoordinates/URLCoordinatesHandler.js:57-60 | a bare pair logs the missing-WKID warning first, keeps its two pieces, gets the default WKID at index 2, and a resulting centre carries it |
| UrlCoordinatesProperties.ThreePiecesKept | src/main/js/bundles/urlcoordinates/URLCoordinatesHandler.js:57-60 | three or more pieces are kept as they are, and no warning is reported |
| UrlCoordinatesProperties.NoValidationAlwaysCenters | src/main/js/bundles/urlcoordinates/URLCoordinatesHandler.js:62-67 | with validation off, every input of two or more pieces yields the centre of its tokens |
| UrlCoordinatesProperties.CenterIffAccepted | src/main/js/bundles/urlcoordinates/URLCoordinatesHandler.js:62-67 | two or more pieces give a centre iff validation is off or every token is accepted |
| UrlCoordinatesProperties.ValidatedCenter | src/main/js/bundles/urlcoordinates/URLCoordinatesHandler.js:317-340 | a validated centre carries token 2 as WKID, is projected iff that parses to 25833, and satisfies that WKID's bounds and length rule |
| UrlCoordinatesProperties.AcceptedTriple | src/main/js/bundles/urlcoordinates/URLCoordinatesHandler.js:62-64 | three accepted tokens under validation give the centre of `_getCenterFromURL` and report nothing |
| UrlCoordinatesProperties.ProjectedExample | src/main/js/bundles/urlcoordinates/URLCoordinatesHandler.js:321-328 | `500000,6000000,25833` passes the 25833 bounds and gives a projected x/y point |
| UrlCoordinatesProperties.LoggingOnlyAddsEntryToPieces | src/main/js/bundles/urlcoordinates/URLCoordinatesHandler.js:43-67 | after the split, logger feedback leaves a centre unchanged and adds the thrown error's log entry to a failure |
| UrlCoordinatesProperties.LoggingOnlyAddsEntry | src/main/js/bundles/urlcoordinates/URLCoordinatesHandler.js:46-218 | at every throw site (lines 46-54, 136-139, 165-176 and 201-218), logger feedback never changes which outcome occurs; it only appends the thrown error to the log |
| UrlCoordinatesFixed.Clean | src/main/js/bundles/url-coordinates/URLCoordinatesHandler.js:67-80 | the cleaned string holds no parenthesis, degree sign or space, and is never longer than the input |
| UrlCoordinatesFixed.CleanInput | src/main/js/bundles/url-coordinates/URLCoordinatesHandler.js:67-80 | the ten reassignments compute the removal chain, with the same guarantees |
| UrlCoordinatesFixed.CoordinateError | src/main/js/bundles/url-coordinates/URLCoordinatesHandler.js:113-135 | NaN first; token 0 passes iff within [-180, 180], else the longitude limit; token 1 iff within [-90, 90], else the latitude limit |
| UrlCoordinatesFixed.WkidError | src/main/js/bundles/url-coordinates/URLCoordinatesHandler.js:148-165 | NaN iff `parseInt` fails; otherwise too short iff the raw token has fewer than 4 UTF-16 code units, too long iff more than 5, else passes |
| UrlCoordinatesFixed.ValidationError | src/main/js/bundles/url-coordinates/URLCoordinatesHandler.js:90-99 | no error iff both coordinates are accepted and, when there is a token 2, the WKID too |
| UrlCoordinatesFixed.ValidateInputs | src/main/js/bundles/url-coordinates/URLCoordinatesHandler.js:90-99 | the loop over every token throws the first failure in index order, or nothing |
| UrlCoordinatesFixed.CenterFromTokens | src/main/js/bundles/url-coordinates/URLCoordinatesHandler.js:202-222 | tokens 0 and 1 become latitude and longitude unchanged, and the point has a WKID iff there is a token 2, which is that WKID |
| UrlCoordinatesFixed.Decode | src/main/js/bundles/url-coordinates/URLCoordinatesHandler.js:26-55 | nothing happens iff the parameter is absent or empty, and nothing is ever logged |
| UrlCoordinatesFixed.DecodePieces | src/main/js/bundles/url-coordinates/URLCoordinatesHandler.js:43-53 | never nothing and never a log; a centre comes only from two or more pieces that all pass validation |
| UrlCoordinatesFixed.DecodeURLParameter | src/main/js/bundles/url-coordinates/URLCoordinatesHandler.js:26-55 | the imperative decoder has exactly the outcome of `Decode` |
| UrlCoordinatesFixedProperties.DegreeSignRemoved | src/main/js/bundles/url-coordinates/URLCoordinatesHandler.js:67-80 | this version cleans `7.5°` to `7.5` |
| UrlCoordinatesFixedProperties.CleanersAgreeWithoutDegreeSign | src/main/js/bundles/url-coordinates/URLCoordinatesHandler.js:67-80 | on a parameter without a degree sign both cleaners give the same string, so both bundles split it into the same pieces |
| UrlCoordinatesFixedProperties.CleanAround | src/main/js/bundles/url-coordinates/URLCoordinatesHandler.js:67-80 | digits, the decimal point, the minus sign and the comma occur in no decorative token, so cleaning works on either side of a run of them separately |
| UrlCoordinatesFixedProperties.DecoratedCleaned | src/main/js/bundles/url-coordinates/URLCoordinatesHandler.js:67-80 | for numerals `A`, `B`, `W` of digits, `.` and `-`, the verbose notation `(x: A°) , (y: B°) , WKID: W` cleans to `A,B,W` |
| UrlCoordinatesFixedProperties.DecoratedDecodesAsPlain | src/main/js/bundles/url-coordinates/URLCoordinatesHandler.js:26-55 | read with `verboseInput`, the verbose notation gives the pieces `A`, `B`, `W` and exactly the outcome of plain `A,B,W` read without it |
| UrlCoordinatesFixedProperties.VerboseExample | src/main/js/bundles/url-coordinates/URLCoordinatesHandler.js:26-55 | `(x: 52.0°) , (y: 7.5°) , WKID: 4326` cleans to `52.0,7.5,4326` and decodes exactly like it |
| UrlCoordinatesFixedProperties.SignedExample | src/main/js/bundles/url-coordinates/URLCoordinatesHandler.js:26-55 | `(x: -52.0°) , (y: -7.5°) , WKID: 4326` cleans to `-52.0,-7.5,4326`, minus signs kept, and decodes exactly like it |
| UrlCoordinatesFixedProperties.WkidRawLength | src/main/js/bundles/url-coordinates/URLCoordinatesHandler.js:148-165 | `04326` passes, `4326abc` is too long and `12` too short, since the raw token is measured |
| UrlCoordinatesFixedProperties.WkidLengthExamples | src/main/js/bundles/url-coordinates/URLCoordinatesHandler.js:158-164 | `123` is too short and `123456` too long |
| UrlCoordinatesFixedProperties.WkidSurrogatePairs | src/main/js/bundles/url-coordinates/URLCoordinatesHandler.js:157-164 | a character outside the Basic Multilingual Plane counts two: `43` followed by an emoji passes, `4326` followed by one is too long |
| UrlCoordinatesFixedProperties.ValidationIgnoresExtraTokens | src/main/js/bundles/url-coordinates/URLCoordinatesHandler.js:90-99 | tokens after index 2 never change the validation result |
| UrlCoordinatesFixedProperties.PairHasNoWkidCheck | src/main/js/bundles/url-coordinates/URLCoordinatesHandler.js:90-99 | a bare pair passes iff both coordinates do, and never raises a WKID error |
| UrlCoordinatesFixedProperties.ValidationErrorKinds | src/main/js/bundles/url-coordinates/URLCoordinatesHandler.js:90-165 | validation raises only NaN, longitude, latitude and WKID errors |
| UrlCoordinatesFixedProperties.StructuralErrors | src/main/js/bundles/url-coordinates/URLCoordinatesHandler.js:43-49 | `emptyCoordinates` iff the split is the single empty piece; `malformedCoordinates` iff it is one non-empty piece |
| UrlCoordinatesFixedProperties.SinglePiece | src/main/js/bundles/url-coordinates/URLCoordinatesHandler.js:36-49 | a non-empty parameter is reported empty iff cleaning removed everything, and malformed iff the (cleaned) string is non-empty and has no comma |
| UrlCoordinatesFixedProperties.AlwaysValidated | src/main/js/bundles/url-coordinates/URLCoordinatesHandler.js:50-53 | two or more pieces give a centre iff every examined token is accepted, and otherwise throw the first failure |
| UrlCoordinatesFixedProperties.CenterFields | src/main/js/bundles/url-coordinates/URLCoordinatesHandler.js:202-222 | the centre holds tokens 0 and 1 unchanged, has a WKID iff there is a token 2, and that WKID passed the length rule |
| UrlCoordinatesFixedProperties.LatitudeOutOfRangeAccepted | src/main/js/bundles/url-coordinates/URLCoordinatesHandler.js:123-134 | a latitude of 100 is accepted, since token 0 is held to the longitude range |
| BundleComparison.LeadingZerosSplitVersions | src/main/js/bundles/url-coordinates/URLCoordinatesHandler.js:158 | `0043` is too short for `urlcoordinates` and long enough for `url-coordinates` |
| BundleComparison.BoundsSplitVersions | src/main/js/bundles/url-coordinates/URLCoordinatesHandler.js:123-128 | `95.0,10.0,4326` fails on token 0 in `urlcoordinates` and gives a centre in `url-coordinates` |
| BundleComparison.BarePairWkid | src/main/js/bundles/url-coordinates/URLCoordinatesHandler.js:205-211 | a bare pair's centre carries the default WKID in `urlcoordinates` and none in `url-coordinates` |

## Left out

- `_getView` (both bundles): promise and property-watch plumbing around the map widget,
  with nothing to decide.
- `_applyInputsToMap` (both bundles): it sets the view's centre and calls the highlighter,
  and is asynchronous. In `urlcoordinates` a point whose WKID equals the view's is set
  directly, and any other point is first sent to the external coordinate transformer. The
  model ends at the point handed to this method.
- The esri `Point` class is foreign code. The model records the constructor's arguments as
  given, so the coordinates stay strings. Whether `Point` honours a top-level `wkid` (as
  `url-coordinates` passes it) is not captured.
- `parseFloat` is a parameter rather than a definition. Coordinates are reals, so IEEE
  rounding, infinities and NaN propagation are not modelled.
- Localised message texts, the suffixes `" [-90, 90]."` and `" [-180, 180]."` of the log
  lines, and the locale bundles: an error is its message key.
- `highlightCenter`, `highlighterSymbol` and `highlighterTimeout` only affect
  `_applyInputsToMap`.
- UrlCoordinates.WkidError: the parsed WKID is an exact integer rendered in plain decimal.
  JavaScript numbers lose precision beyond 2^53 and render magnitudes of 10^21 and more in
  exponent notation. The two disagree only on a value with one significant digit,
  d × 10^k for 21 <= k <= 99, which renders in five characters: `1` followed by 21 zeros,
  or `1000000000000000000001`, which rounds to 10^21, both give `1e+21` and pass the length
  rule in the source, while the model rejects them as too long. Every other value of
  10^21 or more renders in six characters or more (`1234567890123456789012` gives
  `1.2345678901234568e+21`) and is too long in both.
- JsNumber.IntToString: plain decimal for every integer, for the same reason.
- Truthiness of `params.showCoord` is modelled for a string or an absent value only.
- JsString.Utf16Length: a Dafny character is a Unicode scalar value, so a lone surrogate,
  which a JavaScript string can hold and which counts one code unit, is not representable.
