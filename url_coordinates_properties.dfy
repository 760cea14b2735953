/**
 * Properties of the `url-coordinates` decoder: validation always runs and decides the outcome,
 * a bare pair keeps no WKID, the WKID is measured on its raw text, and worked examples.
 *
 * Lemmas about fixed strings often take the string as a parameter pinned by a `requires`
 * (`requires s == "(x: "`). The verifier then reasons about an unknown string equal to the
 * literal, instead of evaluating every `replaceAll` on the literal up front, which keeps
 * these proofs small.
 */
module UrlCoordinatesFixedProperties {
  import opened Wrappers
  import opened JsString
  import opened JsNumber
  import opened Outcomes
  import opened UrlCoordinatesFixed
  import opened VerboseNotation
  import UrlCoordinatesProperties
  import V1 = UrlCoordinates

  // ---------------------------------------------------------------- cleaning and splitting

  lemma DegreeSignDropped()
    ensures RemoveAll("7.5\U{00B0}", "\U{00B0}") == "7.5"
  {
    var s := "7.5\U{00B0}";
    assert s[..1] != "\U{00B0}" && s[1..] == ".5\U{00B0}";
    assert s[1..][..1] != "\U{00B0}" && s[1..][1..] == "5\U{00B0}";
    assert s[2..][..1] != "\U{00B0}" && s[2..][1..] == "\U{00B0}";
    assert s[3..][..1] == "\U{00B0}" && s[3..][1..] == [];
  }

  lemma NoBracket()
    ensures RemoveEach("7.5\U{00B0}", ["(", ")"]) == "7.5\U{00B0}"
  {
    RemoveEachAbsent("7.5\U{00B0}", ["(", ")"], "()");
  }

  lemma DegreeStepDropsSign()
    ensures RemoveEach("7.5\U{00B0}", ["\U{00B0}"]) == "7.5"
  {
    DegreeSignDropped();
  }

  lemma NoSpaceOrLabel()
    ensures RemoveEach("7.5", [" ", "x:", "x=", "y:", "y=", "WKID=", "WKID:"]) == "7.5"
  {
    RemoveEachAbsent("7.5", [" ", "x:", "x=", "y:", "y=", "WKID=", "WKID:"], " xxyyWW");
  }

  /** This version removes the degree sign. */
  lemma DegreeSignRemoved()
    ensures Clean("7.5\U{00B0}") == "7.5"
  {
    var after := [" ", "x:", "x=", "y:", "y=", "WKID=", "WKID:"];
    DecorationsShape();
    RemoveEachAppend("7.5\U{00B0}", ["(", ")"], ["\U{00B0}"] + after);
    NoBracket();
    RemoveEachAppend("7.5\U{00B0}", ["\U{00B0}"], after);
    DegreeStepDropsSign();
    NoSpaceOrLabel();
  }


  /** The first bundle's decorative tokens are this bundle's without the degree sign. */
  lemma DecorationsShape()
    ensures V1.Decorations == ["(", ")"] + [" ", "x:", "x=", "y:", "y=", "WKID=", "WKID:"]
    ensures Decorations == ["(", ")"] + (["\U{00B0}"] + [" ", "x:", "x=", "y:", "y=", "WKID=", "WKID:"])
  {
  }

  /** The two cleaning chains differ only in the degree sign: on a parameter without one they
      agree, so both bundles then split it into the same pieces, verbose or not. */
  lemma CleanersAgreeWithoutDegreeSign(raw: string)
    requires '\U{00B0}' !in raw
    ensures Clean(raw) == V1.Clean(raw)
    ensures forall verboseInput :: Pieces(raw, verboseInput) == V1.Pieces(raw, verboseInput)
  {
    DecorationsShape();
    RemoveEachSkipsAbsentChar(raw, ["(", ")"], '\U{00B0}', [" ", "x:", "x=", "y:", "y=", "WKID=", "WKID:"]);
  }

  /** `_cleanInput` is its ten `replaceAll` calls in order, each on the previous result. */
  lemma CleanChain(s: string, s1: string, s2: string, s3: string, s4: string, s5: string,
                   s6: string, s7: string, s8: string, s9: string, r: string)
    requires RemoveAll(s, "(") == s1 && RemoveAll(s1, ")") == s2 && RemoveAll(s2, "\U{00B0}") == s3
    requires RemoveAll(s3, " ") == s4 && RemoveAll(s4, "x:") == s5 && RemoveAll(s5, "x=") == s6
    requires RemoveAll(s6, "y:") == s7 && RemoveAll(s7, "y=") == s8 && RemoveAll(s8, "WKID=") == s9
    requires RemoveAll(s9, "WKID:") == r
    ensures Clean(s) == r
  {
  }

  /** Digits, the decimal point, the minus sign and the comma occur in no decorative token,
      so cleaning works on either side of a run of them separately. */
  lemma CleanAround(a: string, m: string, b: string)
    requires m != [] && forall c :: c in m ==> '0' <= c <= '9' || c == '.' || c == '-' || c == ','
    ensures Clean(a + m + b) == Clean(a) + m + Clean(b)
  {
    RemoveEachAround(a, m, b, Decorations);
  }

  lemma OpeningXCleaned(s: string)
    requires s == "(x: "
    ensures Clean(s) == []
  {
    CleanersAgreeWithoutDegreeSign(s);
    UrlCoordinatesProperties.OpeningXCleaned(s);
  }

  lemma ClosingSteps()
    ensures RemoveAll("\U{00B0}) ", ")") == "\U{00B0} " && RemoveAll("\U{00B0} ", "\U{00B0}") == " "
    ensures RemoveAll(" ", " ") == []
  {
    assert "\U{00B0}) " == "\U{00B0}" + (")" + " ");
    RemoveAllConcat("\U{00B0}", ")" + " ", ")");
    RemoveAllAbsent("\U{00B0}", ")", ')');
    RemoveAllAtMatch(")", " ");
    RemoveAllAbsent(" ", ")", ')');
    assert "\U{00B0} " == "\U{00B0}" + " ";
    RemoveAllAtMatch("\U{00B0}", " ");
    RemoveAllAbsent(" ", "\U{00B0}", '\U{00B0}');
    RemoveAllAtMatch(" ", []);
  }

  lemma ClosingCleaned(s: string)
    requires s == "\U{00B0}) "
    ensures Clean(s) == []
  {
    ClosingSteps();
    RemoveAllAbsent(s, "(", '(');
    CleanChain(s, s, "\U{00B0} ", " ", [], [], [], [], [], [], []);
  }

  lemma OpeningYCleaned(s: string, t: string, tag: string)
    requires s == " (y: " && t == " y: " && tag == "y:"
    ensures Clean(s) == []
  {
    CleanersAgreeWithoutDegreeSign(s);
    UrlCoordinatesProperties.OpeningYCleaned(s, t, tag);
  }

  lemma WkidLabelCleaned(s: string, tag: string)
    requires s == " WKID: " && tag == "WKID:"
    ensures Clean(s) == []
  {
    CleanersAgreeWithoutDegreeSign(s);
    UrlCoordinatesProperties.WkidLabelCleaned(s, tag);
  }

  lemma NothingCleaned()
    ensures Clean([]) == []
  {
    CleanersAgreeWithoutDegreeSign([]);
    UrlCoordinatesProperties.NothingCleaned();
  }

  /** The verbose notation `(x: A°) , (y: B°) , WKID: W`.
      The closing `+ []` is the empty text after the WKID: it makes the notation line up
      term by term with `DecoratedSplits`, whose last segment is the cleaning of `[]`. */
  function Decorated(a: string, b: string, w: string): string
  {
    "(x: " + a + ("\U{00B0}) " + "," + (" (y: " + b + ("\U{00B0}) " + "," + (" WKID: " + w + []))))
  }

  /** Cleaning the verbose notation works on the decorations between its numbers separately. */
  lemma DecoratedSplits(a: string, b: string, w: string, s1: string, s2: string, s3: string, s4: string)
    requires Numeral(a) && Numeral(b) && Numeral(w)
    ensures Clean(s1 + a + (s2 + "," + (s3 + b + (s2 + "," + (s4 + w + []))))) ==
      Clean(s1) + a + (Clean(s2) + "," + (Clean(s3) + b + (Clean(s2) + "," + (Clean(s4) + w + Clean([])))))
  {
    var x4 := s4 + w + [];
    var x3 := s2 + "," + x4;
    var x2 := s3 + b + x3;
    var x1 := s2 + "," + x2;
    CleanAround(s1, a, x1);
    CleanAround(s2, ",", x2);
    CleanAround(s3, b, x3);
    CleanAround(s2, ",", x4);
    CleanAround(s4, w, []);
  }

  /** Every decoration of the verbose notation is removed, the degree signs included. */
  lemma DecoratedCleaned(a: string, b: string, w: string, s1: string, s2: string, s3: string, s4: string)
    requires Numeral(a) && Numeral(b) && Numeral(w)
    requires s1 == "(x: " && s2 == "\U{00B0}) " && s3 == " (y: " && s4 == " WKID: "
    ensures Clean(Decorated(a, b, w)) == Plain(a, b, w)
  {
    DecoratedSplits(a, b, w, s1, s2, s3, s4);
    OpeningXCleaned(s1);
    ClosingCleaned(s2);
    OpeningYCleaned(s3, " y: ", "y:");
    WkidLabelCleaned(s4, "WKID:");
    NothingCleaned();
    EmptyDecorations(Clean(s1), Clean(s2), Clean(s3), Clean(s4), Clean([]), a, b, w);
  }

  /** Read with `verboseInput`, the verbose notation decodes exactly like the plain
      `A,B,W` read without it: same cleaned text, same pieces, same validation, same centre. */
  lemma DecoratedDecodesAsPlain(a: string, b: string, w: string, pf: ParseFloat)
    requires Numeral(a) && Numeral(b) && Numeral(w)
    ensures Clean(Decorated(a, b, w)) == Plain(a, b, w)
    ensures Pieces(Decorated(a, b, w), true) == [a, b, w]
    ensures Decode(Some(Decorated(a, b, w)), Config(true), pf) == Decode(Some(Plain(a, b, w)), Config(false), pf)
  {
    DecoratedCleaned(a, b, w, "(x: ", "\U{00B0}) ", " (y: ", " WKID: ");
    NumeralsCommaFree(a, b, w);
    PlainSplits(a, b, w);
    CleanedDecodesAsPlain(Decorated(a, b, w), Plain(a, b, w), [a, b, w], pf);
  }

  /** A non-empty parameter that cleans to a non-empty plain one decodes, with `verboseInput`,
      exactly as the plain one does without it. */
  lemma CleanedDecodesAsPlain(raw: string, plain: string, pieces: seq<string>, pf: ParseFloat)
    requires raw != [] && plain != []
    requires Clean(raw) == plain && Split(plain, ',') == pieces
    ensures Pieces(raw, true) == pieces
    ensures Decode(Some(raw), Config(true), pf) == Decode(Some(plain), Config(false), pf)
  {
  }

  lemma ExampleNumerals(a: string, b: string, w: string)
    requires a == "52.0" && b == "7.5" && w == "4326"
    ensures Numeral(a) && Numeral(b) && Numeral(w)
  {
  }

  lemma ExampleSpelled(a: string, b: string, w: string)
    requires a == "52.0" && b == "7.5" && w == "4326"
    ensures Decorated(a, b, w) == "(x: 52.0\U{00B0}) , (y: 7.5\U{00B0}) , WKID: 4326"
  {
  }

  lemma ExamplePlainSpelled(a: string, b: string, w: string)
    requires a == "52.0" && b == "7.5" && w == "4326"
    ensures Plain(a, b, w) == "52.0,7.5,4326"
  {
  }

  /** The worked example `(x: 52.0°) , (y: 7.5°) , WKID: 4326`. */
  lemma VerboseExample(pf: ParseFloat)
    ensures Clean("(x: 52.0\U{00B0}) , (y: 7.5\U{00B0}) , WKID: 4326") == "52.0,7.5,4326"
    ensures Decode(Some("(x: 52.0\U{00B0}) , (y: 7.5\U{00B0}) , WKID: 4326"), Config(true), pf)
              == Decode(Some("52.0,7.5,4326"), Config(false), pf)
  {
    ExampleNumerals("52.0", "7.5", "4326");
    ExampleSpelled("52.0", "7.5", "4326");
    ExamplePlainSpelled("52.0", "7.5", "4326");
    DecoratedDecodesAsPlain("52.0", "7.5", "4326", pf);
  }

  lemma SignedNumerals(a: string, b: string, w: string)
    requires a == "-52.0" && b == "-7.5" && w == "4326"
    ensures Numeral(a) && Numeral(b) && Numeral(w)
  {
  }

  lemma SignedSpelled(a: string, b: string, w: string)
    requires a == "-52.0" && b == "-7.5" && w == "4326"
    ensures Decorated(a, b, w) == "(x: -52.0\U{00B0}) , (y: -7.5\U{00B0}) , WKID: 4326"
  {
  }

  lemma SignedPlainSpelled(a: string, b: string, w: string)
    requires a == "-52.0" && b == "-7.5" && w == "4326"
    ensures Plain(a, b, w) == "-52.0,-7.5,4326"
  {
  }

  /** Negative coordinates: the minus sign is no decoration and stays in the pieces. */
  lemma SignedExample(pf: ParseFloat)
    ensures Clean("(x: -52.0\U{00B0}) , (y: -7.5\U{00B0}) , WKID: 4326") == "-52.0,-7.5,4326"
    ensures Decode(Some("(x: -52.0\U{00B0}) , (y: -7.5\U{00B0}) , WKID: 4326"), Config(true), pf)
              == Decode(Some("-52.0,-7.5,4326"), Config(false), pf)
  {
    SignedNumerals("-52.0", "-7.5", "4326");
    SignedSpelled("-52.0", "-7.5", "4326");
    SignedPlainSpelled("-52.0", "-7.5", "4326");
    DecoratedDecodesAsPlain("-52.0", "-7.5", "4326", pf);
  }

  // ---------------------------------------------------------------- validation

  lemma ValueOf12()
    ensures DigitsValue("12", 10) == 12
  {
    assert "12"[..1] == "1" && "1"[..0] == "";
  }

  lemma ValueOf4326()
    ensures DigitsValue("4326", 10) == 4326
  {
    assert "4326"[..3] == "432" && "432"[..2] == "43" && "43"[..1] == "4" && "4"[..0] == "";
  }

  lemma ParsesTo12()
    ensures ParseInt("12") == Some(12)
  {
    assert "12" + [] == "12";
    ParseIntDecimal("12", []);
    ValueOf12();
  }

  lemma ParsesWithTrailingLetters()
    ensures ParseInt("4326abc") == Some(4326)
  {
    assert "4326" + "abc" == "4326abc";
    ParseIntDecimal("4326", "abc");
    ValueOf4326();
  }

  /** What is measured is the raw token: leading zeros and trailing letters count. */
  lemma WkidRawLength()
    ensures WkidError("04326") == None
    ensures WkidError("4326abc") == Some(WkidExceedsUpperLimit)
    ensures WkidError("12") == Some(WkidExceedsLowerLimit)
  {
    UrlCoordinatesProperties.ParsesTo4326();
    ParsesWithTrailingLetters();
    ParsesTo12();
  }

  /** Three characters are too few and six too many. */
  lemma WkidLengthExamples()
    ensures WkidError("123") == Some(WkidExceedsLowerLimit)
    ensures WkidError("123456") == Some(WkidExceedsUpperLimit)
  {
    UrlCoordinatesProperties.ParsesTo123();
    UrlCoordinatesProperties.ParsesTo123456();
  }

  lemma ValueOf43()
    ensures DigitsValue("43", 10) == 43
  {
    assert "43"[..1] == "4" && "4"[..0] == "";
  }

  lemma SurrogatePairLengths()
    ensures Utf16Length("43\U{1F600}") == 4 && Utf16Length("4326\U{1F600}") == 6
  {
    assert Utf16Length("\U{1F600}") == 2;
    assert "43" + "\U{1F600}" == "43\U{1F600}";
    Utf16LengthAppend("43", "\U{1F600}");
    assert "4326" + "\U{1F600}" == "4326\U{1F600}";
    Utf16LengthAppend("4326", "\U{1F600}");
  }

  lemma NotADigit()
    ensures DigitValue('\U{1F600}', 10).None?
  {
  }

  lemma ParsesTo43BeforeSurrogatePair()
    ensures ParseInt("43\U{1F600}") == Some(43)
  {
    assert "43" + "\U{1F600}" == "43\U{1F600}";
    NotADigit();
    ParseIntDecimal("43", "\U{1F600}");
    ValueOf43();
  }

  lemma ParsesTo4326BeforeSurrogatePair()
    ensures ParseInt("4326\U{1F600}") == Some(4326)
  {
    assert "4326" + "\U{1F600}" == "4326\U{1F600}";
    NotADigit();
    ParseIntDecimal("4326", "\U{1F600}");
    ValueOf4326();
  }

  /** A character beyond U+FFFF counts as two code units: `43` followed by one such character
      is long enough, and `4326` followed by one is too long. */
  lemma WkidSurrogatePairs()
    ensures WkidError("43\U{1F600}") == None
    ensures WkidError("4326\U{1F600}") == Some(WkidExceedsUpperLimit)
  {
    SurrogatePairLengths();
    ParsesTo43BeforeSurrogatePair();
    ParsesTo4326BeforeSurrogatePair();
  }

  /** Tokens behind index 2 are never examined. */
  lemma ValidationIgnoresExtraTokens(t: seq<string>, extra: seq<string>, pf: ParseFloat)
    requires |t| >= 3
    ensures ValidationError(t + extra, pf) == ValidationError(t, pf)
  {
    assert (t + extra)[0] == t[0] && (t + extra)[1] == t[1] && (t + extra)[2] == t[2];
  }

  /** A bare pair is checked on its two coordinates only: no WKID error can arise. */
  lemma PairHasNoWkidCheck(t: seq<string>, pf: ParseFloat)
    requires |t| == 2
    ensures ValidationError(t, pf) == None <==> AcceptsCoordinate(t[0], 0, pf) && AcceptsCoordinate(t[1], 1, pf)
    ensures ValidationError(t, pf) != Some(WkidNaN)
    ensures ValidationError(t, pf) != Some(WkidExceedsLowerLimit)
    ensures ValidationError(t, pf) != Some(WkidExceedsUpperLimit)
  {
  }

  // ---------------------------------------------------------------- the decoder

  /** Validation only ever throws one of the value errors, and never the X/Y limits of the
      other bundle. */
  lemma ValidationErrorKinds(t: seq<string>, pf: ParseFloat)
    requires |t| >= 2
    ensures var e := ValidationError(t, pf);
      e.Some? ==> e.value in {CoordinateNaN, CoordinateExceedsLongitudeLimit, CoordinateExceedsLatitudeLimit,
                              WkidNaN, WkidExceedsLowerLimit, WkidExceedsUpperLimit}
  {
    var e0 := CoordinateError(t[0], 0, pf);
    var e1 := CoordinateError(t[1], 1, pf);
    assert e0.Some? ==> e0.value == CoordinateNaN || e0.value == CoordinateExceedsLongitudeLimit;
    assert e1.Some? ==> e1.value == CoordinateNaN || e1.value == CoordinateExceedsLatitudeLimit;
    if |t| >= 3 {
      var w := WkidError(t[2]);
      assert w.Some? ==> w.value == WkidNaN || w.value == WkidExceedsLowerLimit || w.value == WkidExceedsUpperLimit;
    }
  }

  /** After the split: the structural errors are thrown exactly for a single piece. */
  lemma StructuralErrors(pieces: seq<string>, pf: ParseFloat)
    requires |pieces| >= 1
    ensures var o := DecodePieces(pieces, pf);
      (o.Fail? && o.kind == EmptyCoordinates <==> pieces == [[]])
      && (o.Fail? && o.kind == MalformedCoordinates <==> |pieces| == 1 && pieces[0] != [])
  {
    if |pieces| >= 2 {
      ValidationErrorKinds(pieces, pf);
    }
  }

  /** A single piece throws `emptyCoordinates` exactly when cleaning left nothing, and
      `malformedCoordinates` when the (cleaned) parameter is non-empty and has no comma. */
  lemma SinglePiece(raw: string, cfg: Config, pf: ParseFloat)
    requires raw != []
    ensures (Decode(Some(raw), cfg, pf).Fail? && Decode(Some(raw), cfg, pf).kind == EmptyCoordinates)
              <==> (cfg.verboseInput && Clean(raw) == [])
    ensures (Decode(Some(raw), cfg, pf).Fail? && Decode(Some(raw), cfg, pf).kind == MalformedCoordinates)
              <==> (var s := if cfg.verboseInput then Clean(raw) else raw; s != [] && ',' !in s)
  {
    var s := if cfg.verboseInput then Clean(raw) else raw;
    var pieces := Split(s, ',');
    assert Pieces(raw, cfg.verboseInput) == pieces;
    assert Decode(Some(raw), cfg, pf) == DecodePieces(pieces, pf);
    StructuralErrors(pieces, pf);
    EmptyPieceOnlyFromEmpty(s, ',');
    if ',' !in s {
      SplitWhole(s, ',');
    }
  }

  /** Two or more pieces are always validated: they give a centre exactly when every examined
      token is accepted, and otherwise throw the first failure. */
  lemma AlwaysValidated(raw: string, cfg: Config, pf: ParseFloat)
    requires raw != [] && |Pieces(raw, cfg.verboseInput)| >= 2
    ensures var o := Decode(Some(raw), cfg, pf);
      var t := Pieces(raw, cfg.verboseInput);
      (o.Center? <==> Accepts(t, pf))
      && (o.Fail? ==> Some(o.kind) == ValidationError(t, pf))
  {
  }

  /** The centre holds token 0 as latitude and token 1 as longitude, unchanged; it carries
      token 2 as WKID exactly when there is one, and never a default. Its latitude has passed
      the longitude range and its longitude the latitude range. */
  lemma CenterFields(raw: string, cfg: Config, pf: ParseFloat)
    requires raw != [] && Decode(Some(raw), cfg, pf).Center?
    ensures var p := Decode(Some(raw), cfg, pf).point;
      var t := Pieces(raw, cfg.verboseInput);
      |t| >= 2 && p.latitude == t[0] && p.longitude == t[1]
      && (p.wkid.None? <==> |t| == 2)
      && (p.wkid.Some? ==> p.wkid.value == t[2] && AcceptsWkid(p.wkid.value))
      && AcceptsCoordinate(p.latitude, 0, pf) && AcceptsCoordinate(p.longitude, 1, pf)
  {
  }

  /** A latitude of 100 is accepted: token 0 is held to the longitude range only. */
  lemma LatitudeOutOfRangeAccepted(pf: ParseFloat)
    requires pf("100") == Some(100.0) && pf("10") == Some(10.0)
    ensures DecodePieces(["100", "10"], pf) == Center(Point("100", "10", None), [])
  {
  }
}
