/**
 * The `showCoord` decoder of the `urlcoordinates` bundle: optional cleaning of decorative
 * characters, splitting on `,`, a default WKID for a bare coordinate pair, optional value
 * validation with WKID-keyed bounds, optional logging of every thrown error, and the
 * construction of the centre point.
 */
module UrlCoordinates {
  import opened Wrappers
  import opened JsString
  import opened JsNumber
  import opened Outcomes

  /** The bundle properties the decoder reads. */
  datatype Config = Config(
    verboseInput: bool,
    validateInput: bool,
    enableLoggerFeedback: bool,
    defaultWkid: int)

  /** An element of `splitCoords`: a piece of the split parameter, or the number
      `props.defaultWKID` stored at index 2 when the parameter had two pieces. */
  datatype Token = Text(s: string) | Number(n: int)

  /** The string JavaScript reads when `parseInt` or `parseFloat` receives the token. */
  function TokenText(t: Token): string
  {
    match t
    case Text(s) => s
    case Number(n) => IntToString(n)
  }

  /** The centre point: geographic for every WKID but 25833, projected for 25833.
      Its fields hold the tokens as they were passed to the point constructor. */
  datatype Point =
    | Geographic(latitude: string, longitude: string, wkid: Token)
    | Projected(x: string, y: string, wkid: Token)

  /** `parseInt(splitCoords[2])`. */
  function WkidOf(t: Token): Option<int>
  {
    ParseInt(TokenText(t))
  }

  // ---------------------------------------------------------------- cleaning

  /** The decorative tokens `_cleanInput` removes, in the order it removes them. */
  const Decorations: seq<string> := ["(", ")", " ", "x:", "x=", "y:", "y=", "WKID=", "WKID:"]

  /** `_cleanInput`: one `replaceAll(…, "")` per decorative token. The result holds no
      parenthesis and no space, and is never longer than the input. */
  function Clean(s: string): (r: string)
    ensures '(' !in r && ')' !in r && ' ' !in r
    ensures |r| <= |s|
  {
    RemoveEachRemovesChar(s, Decorations, 0, '(');
    RemoveEachRemovesChar(s, Decorations, 1, ')');
    RemoveEachRemovesChar(s, Decorations, 2, ' ');
    RemoveEach(s, Decorations)
  }

  /** `_cleanInput` step by step: `cleanedInput` is reassigned once per decorative token. */
  method CleanInput(input: string) returns (cleanedInput: string)
    ensures cleanedInput == Clean(input)
    ensures '(' !in cleanedInput && ')' !in cleanedInput && ' ' !in cleanedInput
    ensures |cleanedInput| <= |input|
  {
    cleanedInput := RemoveAll(input, "(");
    cleanedInput := RemoveAll(cleanedInput, ")");
    cleanedInput := RemoveAll(cleanedInput, " ");
    cleanedInput := RemoveAll(cleanedInput, "x:");
    cleanedInput := RemoveAll(cleanedInput, "x=");
    cleanedInput := RemoveAll(cleanedInput, "y:");
    cleanedInput := RemoveAll(cleanedInput, "y=");
    cleanedInput := RemoveAll(cleanedInput, "WKID=");
    cleanedInput := RemoveAll(cleanedInput, "WKID:");
  }

  /** The pieces `split(",")` produces, from the cleaned input when `verboseInput` is set. */
  function Pieces(raw: string, verboseInput: bool): seq<string>
  {
    Split(if verboseInput then Clean(raw) else raw, ',')
  }

  // ---------------------------------------------------------------- value checks

  /** The bounds table: the range token `index` must lie in, given `parseInt` of the WKID token. */
  function AxisLimits(wkid: Option<int>, index: nat): (r: (Limit, Limit))
    ensures r.0.Finite? <==> wkid == Some(4326) || wkid == Some(25833)
    ensures r.0.Finite? ==> r.1.Finite? && r.0.v < r.1.v
    ensures !r.0.Finite? ==> r == (NegativeInfinity, PositiveInfinity)
  {
    if wkid == Some(4326) then
      if index == 0 then (Finite(-90.0), Finite(90.0)) else (Finite(-180.0), Finite(180.0))
    else if wkid == Some(25833) then
      if index == 0 then (Finite(-2465144.80), Finite(4102893.55))
      else (Finite(776625.76), Finite(9408555.22))
    else (NegativeInfinity, PositiveInfinity)
  }

  /** A coordinate token that `_validateCoordinateValue` lets through. */
  predicate AcceptsCoordinate(value: string, index: nat, wkid: Option<int>, pf: ParseFloat)
  {
    pf(value).Some? && InRange(pf(value).value, AxisLimits(wkid, index).0, AxisLimits(wkid, index).1)
  }

  /** `_validateCoordinateValue` as a value: NaN first, then the bound of its axis. */
  function CoordinateError(value: string, index: nat, wkid: Token, pf: ParseFloat): (r: Option<ErrKind>)
    requires index <= 1
    ensures r == None <==> AcceptsCoordinate(value, index, WkidOf(wkid), pf)
    ensures pf(value) == None ==> r == Some(CoordinateNaN)
    ensures pf(value) != None && r != None ==>
              r == Some(if index == 0 then CoordinateExceedsXLimit else CoordinateExceedsYLimit)
  {
    match pf(value)
    case None => Some(CoordinateNaN)
    case Some(x) =>
      var (lo, hi) := AxisLimits(WkidOf(wkid), index);
      if InRange(x, lo, hi) then None
      else if index == 0 then Some(CoordinateExceedsXLimit)
      else Some(CoordinateExceedsYLimit)
  }

  /** `_validateCoordinateValue`: the four limits start infinite and are overwritten by the
      WKID's entry; a failure is logged first when logger feedback is enabled. */
  method ValidateCoordinateValue(coordinateValue: string, index: nat, wkid: Token,
                                 enableLoggerFeedback: bool, pf: ParseFloat)
    returns (err: Option<ErrKind>, logged: seq<LogEntry>)
    requires index <= 1
    ensures err == CoordinateError(coordinateValue, index, wkid, pf)
    ensures logged == if enableLoggerFeedback && err.Some? then [LoggedError(err.value)] else []
  {
    logged := [];
    var coordFloat := pf(coordinateValue);
    var parsedWkid := WkidOf(wkid);
    if coordFloat.None? {
      if enableLoggerFeedback { logged := [LoggedError(CoordinateNaN)]; }
      return Some(CoordinateNaN), logged;
    }
    var xLowerLimit := NegativeInfinity;
    var xUpperLimit := PositiveInfinity;
    var yLowerLimit := NegativeInfinity;
    var yUpperLimit := PositiveInfinity;
    if parsedWkid == Some(4326) {
      xLowerLimit := Finite(-90.0);
      xUpperLimit := Finite(90.0);
      yLowerLimit := Finite(-180.0);
      yUpperLimit := Finite(180.0);
    }
    if parsedWkid == Some(25833) {
      xLowerLimit := Finite(-2465144.80);
      xUpperLimit := Finite(4102893.55);
      yLowerLimit := Finite(776625.76);
      yUpperLimit := Finite(9408555.22);
    }
    err := None;
    if index == 0 {
      if !InRange(coordFloat.value, xLowerLimit, xUpperLimit) {
        err := Some(CoordinateExceedsXLimit);
      }
    } else {
      if !InRange(coordFloat.value, yLowerLimit, yUpperLimit) {
        err := Some(CoordinateExceedsYLimit);
      }
    }
    if err.Some? && enableLoggerFeedback { logged := [LoggedError(err.value)]; }
  }

  /** A parsed WKID whose decimal rendering has four or five characters, a minus sign included. */
  predicate AcceptsWkid(n: int)
  {
    1000 <= n <= 99999 || -9999 <= n <= -100
  }

  /** `_validateWkidValue`: NaN first, then the length of the rendering of the parsed integer. */
  function WkidError(wkidValue: Token): (r: Option<ErrKind>)
    ensures WkidOf(wkidValue) == None <==> r == Some(WkidNaN)
    ensures r == None <==> WkidOf(wkidValue).Some? && AcceptsWkid(WkidOf(wkidValue).value)
    ensures r == Some(WkidExceedsLowerLimit) <==>
              WkidOf(wkidValue).Some? && -100 < WkidOf(wkidValue).value < 1000
    ensures r == Some(WkidExceedsUpperLimit) <==>
              WkidOf(wkidValue).Some? && (WkidOf(wkidValue).value <= -10000 || WkidOf(wkidValue).value >= 100000)
  {
    match WkidOf(wkidValue)
    case None => Some(WkidNaN)
    case Some(parsedWkid) =>
      var length := |IntToString(parsedWkid)|;
      RenderedLength(parsedWkid);
      if !(4 <= length <= 5) then
        if length < 4 then Some(WkidExceedsLowerLimit) else Some(WkidExceedsUpperLimit)
      else None
  }

  /** Every token of `splitCoords` is accepted, in the sense of the three checks. */
  predicate Accepts(t: seq<Token>, pf: ParseFloat)
    requires |t| >= 3
  {
    var wkid := WkidOf(t[2]);
    AcceptsCoordinate(TokenText(t[0]), 0, wkid, pf)
    && AcceptsCoordinate(TokenText(t[1]), 1, wkid, pf)
    && wkid.Some? && AcceptsWkid(wkid.value)
  }

  /** What `_validateInputs` throws: the first failure among token 0, token 1 and the WKID. */
  function ValidationError(t: seq<Token>, pf: ParseFloat): (r: Option<ErrKind>)
    requires |t| >= 3
    ensures r == None <==> Accepts(t, pf)
  {
    var e0 := CoordinateError(TokenText(t[0]), 0, t[2], pf);
    var e1 := CoordinateError(TokenText(t[1]), 1, t[2], pf);
    if e0.Some? then e0 else if e1.Some? then e1 else WkidError(t[2])
  }

  /** `_validateInputs`: a `forEach` over every token, aborted by the first error thrown. */
  method ValidateInputs(splitCoords: seq<Token>, enableLoggerFeedback: bool, pf: ParseFloat)
    returns (err: Option<ErrKind>, logged: seq<LogEntry>)
    requires |splitCoords| >= 3
    ensures err == ValidationError(splitCoords, pf)
    ensures logged == if enableLoggerFeedback && err.Some? then [LoggedError(err.value)] else []
  {
    var index := 0;
    while index < |splitCoords|
      invariant 0 <= index <= |splitCoords|
      invariant index > 0 ==> CoordinateError(TokenText(splitCoords[0]), 0, splitCoords[2], pf).None?
      invariant index > 1 ==> CoordinateError(TokenText(splitCoords[1]), 1, splitCoords[2], pf).None?
      invariant index > 2 ==> WkidError(splitCoords[2]).None?
    {
      var value := splitCoords[index];
      if index <= 1 {
        err, logged := ValidateCoordinateValue(TokenText(value), index, splitCoords[2], enableLoggerFeedback, pf);
        if err.Some? { return; }
      }
      if index == 2 {
        err := WkidError(value);
        if err.Some? {
          logged := if enableLoggerFeedback then [LoggedError(err.value)] else [];
          return;
        }
      }
      index := index + 1;
    }
    err, logged := None, [];
  }

  // ---------------------------------------------------------------- the centre point

  /** `_getCenterFromURL`. */
  function CenterFromTokens(t: seq<Token>): (p: Point)
    requires |t| >= 3
    ensures p.wkid == t[2]
    ensures p.Projected? <==> WkidOf(t[2]) == Some(25833)
    ensures p.Geographic? ==> p.latitude == TokenText(t[0]) && p.longitude == TokenText(t[1])
    ensures p.Projected? ==> p.x == TokenText(t[0]) && p.y == TokenText(t[1])
  {
    if WkidOf(t[2]) == Some(25833) then Projected(TokenText(t[0]), TokenText(t[1]), t[2])
    else Geographic(TokenText(t[0]), TokenText(t[1]), t[2])
  }

  // ---------------------------------------------------------------- the decoder

  function Texts(pieces: seq<string>): (t: seq<Token>)
    ensures |t| == |pieces| && forall i :: 0 <= i < |t| ==> t[i] == Text(pieces[i])
  {
    seq(|pieces|, i requires 0 <= i < |pieces| => Text(pieces[i]))
  }

  /** `splitCoords` once index 2 has been filled with the default WKID for a bare pair. */
  function Completed(pieces: seq<string>, cfg: Config): (t: seq<Token>)
    ensures |t| == if |pieces| == 2 then 3 else |pieces|
    ensures forall i :: 0 <= i < |pieces| ==> t[i] == Text(pieces[i])
    ensures |pieces| == 2 ==> t[2] == Number(cfg.defaultWkid)
  {
    Texts(pieces) + if |pieces| == 2 then [Number(cfg.defaultWkid)] else []
  }

  /** What is reported to the logger right before `kind` is thrown. */
  function Raised(kind: ErrKind, cfg: Config): seq<LogEntry>
  {
    if cfg.enableLoggerFeedback then [LoggedError(kind)] else []
  }

  /** `decodeURLParameter` on `params.showCoord` (`None` when the parameter is absent). */
  function Decode(showCoord: Option<string>, cfg: Config, pf: ParseFloat): (r: Outcome<Point>)
    ensures r.NoOp? <==> showCoord.None? || showCoord.value == []
  {
    if showCoord.None? || showCoord.value == [] then NoOp
    else DecodePieces(Pieces(showCoord.value, cfg.verboseInput), cfg, pf)
  }

  /** `decodeURLParameter` from the split onwards. */
  function DecodePieces(pieces: seq<string>, cfg: Config, pf: ParseFloat): (r: Outcome<Point>)
    requires |pieces| >= 1
    ensures !r.NoOp?
    ensures |pieces| == 2 <==> |r.log| >= 1 && r.log[0] == MissingWkidWarning
    ensures r.Fail? && cfg.enableLoggerFeedback ==> |r.log| >= 1 && r.log[|r.log| - 1] == LoggedError(r.kind)
    ensures !cfg.enableLoggerFeedback ==> r.log == if |pieces| == 2 then [MissingWkidWarning] else []
  {
    if |pieces| == 1 then
      var kind := if pieces[0] == [] then EmptyCoordinates else MalformedCoordinates;
      Fail(kind, Raised(kind, cfg))
    else
      var warnings := if |pieces| == 2 then [MissingWkidWarning] else [];
      var t := Completed(pieces, cfg);
      var err := if cfg.validateInput then ValidationError(t, pf) else None;
      if err.Some? then Fail(err.value, warnings + Raised(err.value, cfg))
      else Center(CenterFromTokens(t), warnings)
  }

  /** `decodeURLParameter` as the source runs it: the default WKID is appended to a
      two-element `splitCoords`, and the validation loop runs only when `validateInput` is set. */
  method DecodeURLParameter(showCoord: Option<string>, cfg: Config, pf: ParseFloat)
    returns (outcome: Outcome<Point>)
    ensures outcome == Decode(showCoord, cfg, pf)
  {
    if showCoord.None? || showCoord.value == [] {
      return NoOp;
    }
    var pieces: seq<string>;
    if cfg.verboseInput {
      var cleanedCoords := CleanInput(showCoord.value);
      pieces := Split(cleanedCoords, ',');
    } else {
      pieces := Split(showCoord.value, ',');
    }
    outcome := HandleSplitCoords(pieces, cfg, pf);
  }

  /** The part of `decodeURLParameter` after the split. */
  method HandleSplitCoords(pieces: seq<string>, cfg: Config, pf: ParseFloat)
    returns (outcome: Outcome<Point>)
    requires |pieces| >= 1
    ensures outcome == DecodePieces(pieces, cfg, pf)
  {
    var splitCoords := Texts(pieces);
    var log: seq<LogEntry> := [];
    if |splitCoords| == 1 {
      var kind := if pieces[0] == [] then EmptyCoordinates else MalformedCoordinates;
      if cfg.enableLoggerFeedback { log := log + [LoggedError(kind)]; }
      return Fail(kind, log);
    }
    if |splitCoords| == 2 {
      log := log + [MissingWkidWarning];
      splitCoords := splitCoords + [Number(cfg.defaultWkid)];
    }
    assert splitCoords == Completed(pieces, cfg);
    assert log == if |pieces| == 2 then [MissingWkidWarning] else [];
    if cfg.validateInput {
      var err, logged := ValidateInputs(splitCoords, cfg.enableLoggerFeedback, pf);
      if err.Some? {
        return Fail(err.value, log + logged);
      }
    }
    return Center(CenterFromTokens(splitCoords), log);
  }

}
