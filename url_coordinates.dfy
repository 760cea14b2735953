/**
 * The `showCoord` decoder of the `url-coordinates` bundle: optional cleaning of decorative
 * characters (the degree sign included), splitting on `,`, validation that always runs with
 * fixed longitude and latitude bounds and a WKID measured on its raw text, and the
 * construction of the centre point. Nothing is logged in this version.
 */
module UrlCoordinatesFixed {
  import opened Wrappers
  import opened JsString
  import opened JsNumber
  import opened Outcomes

  /** The bundle properties the decoder reads. */
  datatype Config = Config(verboseInput: bool)

  /** The centre point: token 0 as latitude, token 1 as longitude, and token 2 as WKID
      when there is one, all as the strings handed to the point constructor. */
  datatype Point = Point(latitude: string, longitude: string, wkid: Option<string>)

  // ---------------------------------------------------------------- cleaning

  /** The decorative tokens `_cleanInput` removes, in the order it removes them. */
  const Decorations: seq<string> :=
    ["(", ")", "\U{00B0}", " ", "x:", "x=", "y:", "y=", "WKID=", "WKID:"]

  /** `_cleanInput`: one `replaceAll(…, "")` per decorative token. The result holds no
      parenthesis, degree sign or space, and is never longer than the input. */
  function Clean(s: string): (r: string)
    ensures '(' !in r && ')' !in r && '\U{00B0}' !in r && ' ' !in r
    ensures |r| <= |s|
  {
    RemoveEachRemovesChar(s, Decorations, 0, '(');
    RemoveEachRemovesChar(s, Decorations, 1, ')');
    RemoveEachRemovesChar(s, Decorations, 2, '\U{00B0}');
    RemoveEachRemovesChar(s, Decorations, 3, ' ');
    RemoveEach(s, Decorations)
  }

  /** `_cleanInput` step by step: `cleanedInput` is reassigned once per decorative token. */
  method CleanInput(input: string) returns (cleanedInput: string)
    ensures cleanedInput == Clean(input)
    ensures '(' !in cleanedInput && ')' !in cleanedInput && '\U{00B0}' !in cleanedInput && ' ' !in cleanedInput
    ensures |cleanedInput| <= |input|
  {
    cleanedInput := RemoveAll(input, "(");
    cleanedInput := RemoveAll(cleanedInput, ")");
    cleanedInput := RemoveAll(cleanedInput, "\U{00B0}");
    cleanedInput := RemoveAll(cleanedInput, " ");
    cleanedInput := RemoveAll(cleanedInput, "x:");
    cleanedInput := RemoveAll(cleanedInput, "x=");
    cleanedInput := RemoveAll(cleanedInput, "y:");
    cleanedInput := RemoveAll(cleanedInput, "y=");
    cleanedInput := RemoveAll(cleanedInput, "WKID=");
    cleanedInput := RemoveAll(cleanedInput, "WKID:");
  }

  /** The pieces `split(",")` produces, from the cleaned input when `verboseInput` is set. */
  function Pieces(raw: string, verboseInput: bool): seq<string>
  {
    Split(if verboseInput then Clean(raw) else raw, ',')
  }

  // ---------------------------------------------------------------- value checks

  /** The fixed range of token `index`: token 0 is checked as a longitude, token 1 as a latitude. */
  function Bound(index: nat): real
  {
    if index == 0 then 180.0 else 90.0
  }

  /** A coordinate token that `_validateCoordinateValue` lets through. */
  predicate AcceptsCoordinate(value: string, index: nat, pf: ParseFloat)
  {
    pf(value).Some? && -Bound(index) <= pf(value).value <= Bound(index)
  }

  /** `_validateCoordinateValue`: NaN first, then the range of its index. */
  function CoordinateError(value: string, index: nat, pf: ParseFloat): (r: Option<ErrKind>)
    requires index <= 1
    ensures r == None <==> AcceptsCoordinate(value, index, pf)
    ensures pf(value) == None ==> r == Some(CoordinateNaN)
    ensures pf(value) != None && r != None ==>
              r == Some(if index == 0 then CoordinateExceedsLongitudeLimit else CoordinateExceedsLatitudeLimit)
  {
    match pf(value)
    case None => Some(CoordinateNaN)
    case Some(coordFloat) =>
      if index == 0 then
        if !(coordFloat >= -180.0 && coordFloat <= 180.0) then Some(CoordinateExceedsLongitudeLimit) else None
      else
        if !(coordFloat >= -90.0 && coordFloat <= 90.0) then Some(CoordinateExceedsLatitudeLimit) else None
  }

  /** A WKID token that `_validateWkidValue` lets through: it parses, and its raw text has
      four or five UTF-16 code units, whatever follows the digits `parseInt` read. */
  predicate AcceptsWkid(wkidValue: string)
  {
    ParseInt(wkidValue).Some? && 4 <= Utf16Length(wkidValue) <= 5
  }

  /** `_validateWkidValue`: NaN first, then the `length` of the raw token. */
  function WkidError(wkidValue: string): (r: Option<ErrKind>)
    ensures ParseInt(wkidValue) == None <==> r == Some(WkidNaN)
    ensures r == None <==> AcceptsWkid(wkidValue)
    ensures r == Some(WkidExceedsLowerLimit) <==> ParseInt(wkidValue).Some? && Utf16Length(wkidValue) < 4
    ensures r == Some(WkidExceedsUpperLimit) <==> ParseInt(wkidValue).Some? && Utf16Length(wkidValue) > 5
  {
    var length := Utf16Length(wkidValue);
    if ParseInt(wkidValue).None? then Some(WkidNaN)
    else if !(length >= 4 && length <= 5) then
      if length < 4 then Some(WkidExceedsLowerLimit) else Some(WkidExceedsUpperLimit)
    else None
  }

  /** Every token `_validateInputs` looks at is accepted: the two coordinates, and the WKID
      when there is a token 2. */
  predicate Accepts(t: seq<string>, pf: ParseFloat)
    requires |t| >= 2
  {
    AcceptsCoordinate(t[0], 0, pf) && AcceptsCoordinate(t[1], 1, pf)
    && (|t| >= 3 ==> AcceptsWkid(t[2]))
  }

  /** What `_validateInputs` throws: the first failure among token 0, token 1 and, if present,
      the WKID token. */
  function ValidationError(t: seq<string>, pf: ParseFloat): (r: Option<ErrKind>)
    requires |t| >= 2
    ensures r == None <==> Accepts(t, pf)
  {
    var e0 := CoordinateError(t[0], 0, pf);
    var e1 := CoordinateError(t[1], 1, pf);
    if e0.Some? then e0 else if e1.Some? then e1
    else if |t| >= 3 then WkidError(t[2]) else None
  }

  /** `_validateInputs`: a `forEach` over every token, aborted by the first error thrown. */
  method ValidateInputs(splitCoords: seq<string>, pf: ParseFloat) returns (err: Option<ErrKind>)
    requires |splitCoords| >= 2
    ensures err == ValidationError(splitCoords, pf)
  {
    var index := 0;
    while index < |splitCoords|
      invariant 0 <= index <= |splitCoords|
      invariant index > 0 ==> CoordinateError(splitCoords[0], 0, pf).None?
      invariant index > 1 ==> CoordinateError(splitCoords[1], 1, pf).None?
      invariant index > 2 ==> WkidError(splitCoords[2]).None?
    {
      var value := splitCoords[index];
      if index <= 1 {
        err := CoordinateError(value, index, pf);
        if err.Some? { return; }
      }
      if index == 2 {
        err := WkidError(value);
        if err.Some? { return; }
      }
      index := index + 1;
    }
    err := None;
  }

  // ---------------------------------------------------------------- the centre point

  /** `_getCenterFromURL`: a WKID only when there is a token 2. */
  function CenterFromTokens(t: seq<string>): (p: Point)
    requires |t| >= 2
    ensures p.latitude == t[0] && p.longitude == t[1]
    ensures p.wkid.None? <==> |t| == 2
    ensures p.wkid.Some? ==> p.wkid.value == t[2]
  {
    if |t| <= 2 then Point(t[0], t[1], None) else Point(t[0], t[1], Some(t[2]))
  }

  // ---------------------------------------------------------------- the decoder

  /** `decodeURLParameter` on `params.showCoord` (`None` when the parameter is absent). */
  function Decode(showCoord: Option<string>, cfg: Config, pf: ParseFloat): (r: Outcome<Point>)
    ensures r.NoOp? <==> showCoord.None? || showCoord.value == []
    ensures !r.NoOp? ==> r.log == []
  {
    if showCoord.None? || showCoord.value == [] then NoOp
    else DecodePieces(Pieces(showCoord.value, cfg.verboseInput), pf)
  }

  /** `decodeURLParameter` from the split onwards. */
  function DecodePieces(pieces: seq<string>, pf: ParseFloat): (r: Outcome<Point>)
    requires |pieces| >= 1
    ensures !r.NoOp? && r.log == []
    ensures r.Center? ==> |pieces| >= 2 && Accepts(pieces, pf)
  {
    if |pieces| == 1 then
      Fail(if pieces[0] == [] then EmptyCoordinates else MalformedCoordinates, [])
    else
      var err := ValidationError(pieces, pf);
      if err.Some? then Fail(err.value, []) else Center(CenterFromTokens(pieces), [])
  }

  /** `decodeURLParameter` as the source runs it. */
  method DecodeURLParameter(showCoord: Option<string>, cfg: Config, pf: ParseFloat)
    returns (outcome: Outcome<Point>)
    ensures outcome == Decode(showCoord, cfg, pf)
  {
    if showCoord.None? || showCoord.value == [] {
      return NoOp;
    }
    var splitCoords: seq<string>;
    if cfg.verboseInput {
      var cleanedCoords := CleanInput(showCoord.value);
      splitCoords := Split(cleanedCoords, ',');
    } else {
      splitCoords := Split(showCoord.value, ',');
    }
    if |splitCoords| == 1 {
      if splitCoords[0] == [] {
        return Fail(EmptyCoordinates, []);
      } else {
        return Fail(MalformedCoordinates, []);
      }
    }
    var err := ValidateInputs(splitCoords, pf);
    if err.Some? {
      return Fail(err.value, []);
    }
    return Center(CenterFromTokens(splitCoords), []);
  }
}
