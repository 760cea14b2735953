/**
 * Properties of the `urlcoordinates` decoder: what each outcome says about the parameter,
 * how the default WKID, the validation switch and logger feedback act, and worked examples.
 *
 * Lemmas about fixed strings often take the string as a parameter pinned by a `requires`
 * (`requires s == "(x: "`). The verifier then reasons about an unknown string equal to the
 * literal, instead of evaluating every `replaceAll` on the literal up front, which keeps
 * these proofs small.
 */
module UrlCoordinatesProperties {
  import opened Wrappers
  import opened JsString
  import opened JsNumber
  import opened Outcomes
  import opened UrlCoordinates
  import opened VerboseNotation

  // ---------------------------------------------------------------- cleaning and splitting

  lemma RemoveLabelAtStart()
    ensures RemoveAll("x::1,2", "x:") == ":1,2"
  {
    assert "x::1,2"[..2] == "x:" && "x::1,2"[2..] == ":1,2";
    RemoveAllAbsent(":1,2", "x:", 'x');
  }

  lemma RemoveLabelInside()
    ensures RemoveAll("xx::1,2", "x:") == "x:1,2"
  {
    assert "xx::1,2"[..2] != "x:" && "xx::1,2"[1..] == "x::1,2";
    RemoveLabelAtStart();
    assert ['x'] + ":1,2" == "x:1,2";
  }

  lemma DecorationsSplit()
    ensures Decorations == ["(", ")", " "] + (["x:"] + ["x=", "y:", "y=", "WKID=", "WKID:"])
  {
  }

  lemma NoBracketOrSpace()
    ensures RemoveEach("xx::1,2", ["(", ")", " "]) == "xx::1,2"
  {
    RemoveEachAbsent("xx::1,2", ["(", ")", " "], "() ");
  }

  lemma NoFurtherLabel()
    ensures RemoveEach("x:1,2", ["x=", "y:", "y=", "WKID=", "WKID:"]) == "x:1,2"
  {
    RemoveEachAbsent("x:1,2", ["x=", "y:", "y=", "WKID=", "WKID:"], "=yyWW");
  }

  lemma OneLabelRemoved()
    ensures RemoveEach("xx::1,2", ["x:"]) == "x:1,2"
  {
    RemoveLabelInside();
  }

  /** `replaceAll` does not rescan what it has produced, so a label can be re-formed. */
  lemma LabelCanSurvive()
    ensures Clean("xx::1,2") == "x:1,2"
  {
    var before := ["(", ")", " "];
    var after := ["x=", "y:", "y=", "WKID=", "WKID:"];
    DecorationsSplit();
    RemoveEachAppend("xx::1,2", before, ["x:"] + after);
    NoBracketOrSpace();
    RemoveEachAppend("xx::1,2", ["x:"], after);
    OneLabelRemoved();
    NoFurtherLabel();
  }

  /** This version keeps the degree sign. */
  lemma DegreeSignKept()
    ensures Clean("7.5\U{00B0}") == "7.5\U{00B0}"
  {
    RemoveEachAbsent("7.5\U{00B0}", Decorations, "() xxyyWW");
  }

  /** Without `verboseInput` the pieces are exactly the parameter split on `,`: joined, they give it back. */
  lemma PiecesWithoutVerbose(raw: string, cfg: Config)
    requires !cfg.verboseInput
    ensures Join(Pieces(raw, cfg.verboseInput), ',') == raw
    ensures forall p :: p in Pieces(raw, cfg.verboseInput) ==> ',' !in p
  {
    JoinSplit(raw, ',');
  }

  /** `_cleanInput` is its nine `replaceAll` calls in order, each on the previous result. */
  lemma CleanChain(s: string, s1: string, s2: string, s3: string, s4: string, s5: string,
                   s6: string, s7: string, s8: string, r: string)
    requires RemoveAll(s, "(") == s1 && RemoveAll(s1, ")") == s2 && RemoveAll(s2, " ") == s3
    requires RemoveAll(s3, "x:") == s4 && RemoveAll(s4, "x=") == s5 && RemoveAll(s5, "y:") == s6
    requires RemoveAll(s6, "y=") == s7 && RemoveAll(s7, "WKID=") == s8 && RemoveAll(s8, "WKID:") == r
    ensures Clean(s) == r
  {
  }

  /** Digits, the decimal point, the minus sign, the comma and the degree sign occur in no
      decorative token of this version, so cleaning works on either side of a run of them
      separately. */
  lemma CleanAround(a: string, m: string, b: string)
    requires m != []
    requires forall c :: c in m ==> '0' <= c <= '9' || c == '.' || c == '-' || c == ',' || c == '\U{00B0}'
    ensures Clean(a + m + b) == Clean(a) + m + Clean(b)
  {
    RemoveEachAround(a, m, b, Decorations);
  }

  lemma OpeningXCleaned(s: string)
    requires s == "(x: "
    ensures Clean(s) == []
  {
    OpeningXSteps();
    RemoveAllAbsent("x: ", ")", ')');
    CleanChain(s, "x: ", "x: ", "x:", [], [], [], [], [], []);
  }

  lemma ClosingCleaned(s: string)
    requires s == ") "
    ensures Clean(s) == []
  {
    RemoveAllAbsent(s, "(", '(');
    assert s == ")" + " ";
    RemoveAllAtMatch(")", " ");
    RemoveAllAbsent(" ", ")", ')');
    RemoveAllAtMatch(" ", []);
    CleanChain(s, s, " ", [], [], [], [], [], [], []);
  }

  lemma OpeningYCleaned(s: string, t: string, tag: string)
    requires s == " (y: " && t == " y: " && tag == "y:"
    ensures Clean(s) == []
  {
    OpeningYSteps();
    RemoveAllAbsent(t, ")", ')');
    RemoveAllAbsent(tag, "x:", 'x');
    RemoveAllAbsent(tag, "x=", 'x');
    CleanChain(s, t, t, tag, tag, tag, [], [], [], []);
  }

  lemma WkidLabelCleaned(s: string, tag: string)
    requires s == " WKID: " && tag == "WKID:"
    ensures Clean(s) == []
  {
    WkidLabelSteps(s, tag);
    WkidLabelKept(tag);
    RemoveAllAbsent(s, "(", '(');
    RemoveAllAbsent(s, ")", ')');
    CleanChain(s, s, s, tag, tag, tag, tag, tag, tag, []);
  }

  lemma NothingCleaned()
    ensures Clean([]) == []
  {
    CleanChain([], [], [], [], [], [], [], [], [], []);
  }

  /** The verbose notation `(x: A°) , (y: B°) , WKID: W`, cut where this version's cleaning
      leaves text: each number together with the degree sign after it.
      The closing `+ []` is the empty text after the WKID: it makes the notation line up
      term by term with `DecoratedSplits`, whose last segment is the cleaning of `[]`. */
  function Decorated(a: string, b: string, w: string): string
  {
    "(x: " + (a + "\U{00B0}") + (") " + "," + (" (y: " + (b + "\U{00B0}") + (") " + "," + (" WKID: " + w + []))))
  }

  /** A run of text this version's cleaning keeps. */
  predicate Kept(m: string)
  {
    m != [] && forall c :: c in m ==> '0' <= c <= '9' || c == '.' || c == '-' || c == ',' || c == '\U{00B0}'
  }

  lemma NumeralWithDegreeKept(a: string)
    requires Numeral(a)
    ensures Kept(a + "\U{00B0}") && ',' !in a + "\U{00B0}"
  {
    assert forall c :: c in a + "\U{00B0}" ==> c in a || c == '\U{00B0}';
  }

  /** Cleaning the verbose notation works on the decorations between its kept runs separately. */
  lemma DecoratedSplits(m1: string, m2: string, w: string, s1: string, s2: string, s3: string, s4: string)
    requires Kept(m1) && Kept(m2) && Kept(w)
    ensures Clean(s1 + m1 + (s2 + "," + (s3 + m2 + (s2 + "," + (s4 + w + []))))) ==
      Clean(s1) + m1 + (Clean(s2) + "," + (Clean(s3) + m2 + (Clean(s2) + "," + (Clean(s4) + w + Clean([])))))
  {
    var x4 := s4 + w + [];
    var x3 := s2 + "," + x4;
    var x2 := s3 + m2 + x3;
    var x1 := s2 + "," + x2;
    CleanAround(s1, m1, x1);
    CleanAround(s2, ",", x2);
    CleanAround(s3, m2, x3);
    CleanAround(s2, ",", x4);
    CleanAround(s4, w, []);
  }

  /** Every decoration of the verbose notation is removed except the degree signs. */
  lemma DecoratedCleaned(a: string, b: string, w: string, s1: string, s2: string, s3: string, s4: string)
    requires Numeral(a) && Numeral(b) && Numeral(w)
    requires s1 == "(x: " && s2 == ") " && s3 == " (y: " && s4 == " WKID: "
    ensures Clean(Decorated(a, b, w)) == Plain(a + "\U{00B0}", b + "\U{00B0}", w)
  {
    NumeralWithDegreeKept(a);
    NumeralWithDegreeKept(b);
    DecoratedSplits(a + "\U{00B0}", b + "\U{00B0}", w, s1, s2, s3, s4);
    OpeningXCleaned(s1);
    ClosingCleaned(s2);
    OpeningYCleaned(s3, " y: ", "y:");
    WkidLabelCleaned(s4, "WKID:");
    NothingCleaned();
    EmptyDecorations(Clean(s1), Clean(s2), Clean(s3), Clean(s4), Clean([]), a + "\U{00B0}", b + "\U{00B0}", w);
  }

  /** Read with `verboseInput`, the verbose notation splits into the two coordinates with
      their degree signs and the WKID. */
  lemma DecoratedPieces(a: string, b: string, w: string)
    requires Numeral(a) && Numeral(b) && Numeral(w)
    ensures Clean(Decorated(a, b, w)) == Plain(a + "\U{00B0}", b + "\U{00B0}", w)
    ensures Pieces(Decorated(a, b, w), true) == [a + "\U{00B0}", b + "\U{00B0}", w]
  {
    DecoratedCleaned(a, b, w, "(x: ", ") ", " (y: ", " WKID: ");
    NumeralWithDegreeKept(a);
    NumeralWithDegreeKept(b);
    NumeralsCommaFree(a, b, w);
    PlainSplits(a + "\U{00B0}", b + "\U{00B0}", w);
    CleanedPieces(Decorated(a, b, w), Plain(a + "\U{00B0}", b + "\U{00B0}", w), [a + "\U{00B0}", b + "\U{00B0}", w]);
  }

  /** With `verboseInput`, the pieces are those of the cleaned parameter. */
  lemma CleanedPieces(raw: string, cleaned: string, pieces: seq<string>)
    requires Clean(raw) == cleaned && Split(cleaned, ',') == pieces
    ensures Pieces(raw, true) == pieces
  {
  }

  /** Two outcomes of the same kind, with the same error and the same log: they can differ
      only in the centre point. */
  predicate SameButPoint(v: Outcome<Point>, u: Outcome<Point>)
  {
    v.NoOp? == u.NoOp? && v.Fail? == u.Fail? && v.Center? == u.Center?
    && (v.Fail? ==> v.kind == u.kind) && (!v.NoOp? ==> v.log == u.log)
  }

  /** Three pieces whose coordinates `parseFloat` reads alike and which share the WKID
      decode alike under settings that differ only in `verboseInput`, up to the texts of
      the centre point. */
  lemma PiecesDecodeAlike(p: seq<string>, q: seq<string>, cfg: Config, pf: ParseFloat)
    requires |p| == 3 && |q| == 3 && p[2] == q[2]
    requires pf(p[0]) == pf(q[0]) && pf(p[1]) == pf(q[1])
    ensures SameButPoint(DecodePieces(p, cfg, pf), DecodePieces(q, cfg.(verboseInput := false), pf))
    ensures DecodePieces(p, cfg, pf).Center? ==>
              DecodePieces(p, cfg, pf).point == CenterFromTokens([Text(p[0]), Text(p[1]), Text(p[2])])
  {
    var t := Completed(p, cfg);
    var u := Completed(q, cfg.(verboseInput := false));
    assert t == [Text(p[0]), Text(p[1]), Text(p[2])];
    assert ValidationError(t, pf) == ValidationError(u, pf);
  }

  lemma DecoratedDecodes(a: string, b: string, w: string, cfg: Config, pf: ParseFloat)
    requires Numeral(a) && Numeral(b) && Numeral(w)
    requires cfg.verboseInput
    ensures Decode(Some(Decorated(a, b, w)), cfg, pf) == DecodePieces([a + "\U{00B0}", b + "\U{00B0}", w], cfg, pf)
  {
    DecoratedPieces(a, b, w);
  }

  lemma PlainDecodes(a: string, b: string, w: string, cfg: Config, pf: ParseFloat)
    requires Numeral(a) && Numeral(b) && Numeral(w)
    requires !cfg.verboseInput
    ensures Decode(Some(Plain(a, b, w)), cfg, pf) == DecodePieces([a, b, w], cfg, pf)
  {
    assert ',' !in a && ',' !in b && ',' !in w;
    PlainSplits(a, b, w);
  }

  /** When `parseFloat` ignores a trailing degree sign, the verbose notation read with
      `verboseInput` passes or fails validation exactly like the plain `A,B,W` read without
      it, with the same log; only the centre point keeps the degree signs in its texts. */
  lemma DecoratedDecodesLikePlain(a: string, b: string, w: string, cfg: Config, pf: ParseFloat)
    requires Numeral(a) && Numeral(b) && Numeral(w)
    requires cfg.verboseInput
    requires pf(a + "\U{00B0}") == pf(a) && pf(b + "\U{00B0}") == pf(b)
    ensures SameButPoint(Decode(Some(Decorated(a, b, w)), cfg, pf), Decode(Some(Plain(a, b, w)), cfg.(verboseInput := false), pf))
    ensures Decode(Some(Decorated(a, b, w)), cfg, pf).Center? ==>
              Decode(Some(Decorated(a, b, w)), cfg, pf).point ==
                CenterFromTokens([Text(a + "\U{00B0}"), Text(b + "\U{00B0}"), Text(w)])
  {
    DecoratedDecodes(a, b, w, cfg, pf);
    PlainDecodes(a, b, w, cfg.(verboseInput := false), pf);
    PiecesDecodeAlike([a + "\U{00B0}", b + "\U{00B0}", w], [a, b, w], cfg, pf);
  }

  // ---------------------------------------------------------------- validation

  lemma ValueOf0043()
    ensures DigitsValue("0043", 10) == 43
  {
    assert "0043"[..3] == "004" && "004"[..2] == "00" && "00"[..1] == "0" && "0"[..0] == "";
  }

  lemma ValueOf04326()
    ensures DigitsValue("04326", 10) == 4326
  {
    assert "04326"[..4] == "0432" && "0432"[..3] == "043" && "043"[..2] == "04";
    assert "04"[..1] == "0" && "0"[..0] == "";
  }

  lemma ParsesTo43()
    ensures ParseInt("0043") == Some(43)
  {
    assert "0043" + [] == "0043";
    ParseIntDecimal("0043", []);
    ValueOf0043();
  }

  lemma ParsesTo4326()
    ensures ParseInt("04326") == Some(4326)
  {
    assert "04326" + [] == "04326";
    ParseIntDecimal("04326", []);
    ValueOf04326();
  }

  /** Leading zeros do not count: what is measured is the parsed number. */
  lemma WkidLeadingZeros()
    ensures WkidError(Text("0043")) == Some(WkidExceedsLowerLimit)
    ensures WkidError(Text("04326")) == None
  {
    ParsesTo43();
    ParsesTo4326();
  }

  lemma ValueOf123()
    ensures DigitsValue("123", 10) == 123
  {
    assert "123"[..2] == "12" && "12"[..1] == "1" && "1"[..0] == "";
  }

  lemma ValueOf123456()
    ensures DigitsValue("123456", 10) == 123456
  {
    assert "123456"[..5] == "12345" && "12345"[..4] == "1234" && "1234"[..3] == "123";
    ValueOf123();
  }

  lemma ValueOf25833()
    ensures DigitsValue("25833", 10) == 25833
  {
    assert "25833"[..4] == "2583" && "2583"[..3] == "258" && "258"[..2] == "25";
    assert "25"[..1] == "2" && "2"[..0] == "";
  }

  lemma ParsesTo123()
    ensures ParseInt("123") == Some(123)
  {
    assert "123" + [] == "123";
    ParseIntDecimal("123", []);
    ValueOf123();
  }

  lemma ParsesTo123456()
    ensures ParseInt("123456") == Some(123456)
  {
    assert "123456" + [] == "123456";
    ParseIntDecimal("123456", []);
    ValueOf123456();
  }

  lemma ParsesTo25833()
    ensures ParseInt("25833") == Some(25833)
  {
    assert "25833" + [] == "25833";
    ParseIntDecimal("25833", []);
    ValueOf25833();
  }

  /** Three digits are too few and six too many. */
  lemma WkidLengthExamples()
    ensures WkidError(Text("123")) == Some(WkidExceedsLowerLimit)
    ensures WkidError(Text("123456")) == Some(WkidExceedsUpperLimit)
  {
    ParsesTo123();
    ParsesTo123456();
  }

  /** Tokens behind index 2 are never examined. */
  lemma ValidationIgnoresExtraTokens(t: seq<Token>, extra: seq<Token>, pf: ParseFloat)
    requires |t| >= 3
    ensures ValidationError(t + extra, pf) == ValidationError(t, pf)
  {
    assert (t + extra)[..3] == t[..3];
    assert (t + extra)[0] == t[0] && (t + extra)[1] == t[1] && (t + extra)[2] == t[2];
  }

  // ---------------------------------------------------------------- the decoder

  /** Validation only ever throws one of the value errors. */
  lemma ValidationErrorKinds(t: seq<Token>, pf: ParseFloat)
    requires |t| >= 3
    ensures var e := ValidationError(t, pf);
      e.Some? ==> e.value != EmptyCoordinates && e.value != MalformedCoordinates
  {
    var e0 := CoordinateError(TokenText(t[0]), 0, t[2], pf);
    var e1 := CoordinateError(TokenText(t[1]), 1, t[2], pf);
    assert e0.Some? ==> e0.value == CoordinateNaN || e0.value == CoordinateExceedsXLimit;
    assert e1.Some? ==> e1.value == CoordinateNaN || e1.value == CoordinateExceedsYLimit;
    var w := WkidError(t[2]);
    assert w.Some? ==> w.value == WkidNaN || w.value == WkidExceedsLowerLimit || w.value == WkidExceedsUpperLimit;
  }


  /** After the split: the structural errors are thrown exactly for a single piece. */
  lemma StructuralErrors(pieces: seq<string>, cfg: Config, pf: ParseFloat)
    requires |pieces| >= 1
    ensures var o := DecodePieces(pieces, cfg, pf);
      (o.Fail? && o.kind == EmptyCoordinates <==> pieces == [[]])
      && (o.Fail? && o.kind == MalformedCoordinates <==> |pieces| == 1 && pieces[0] != [])
  {
    if |pieces| >= 2 {
      ValidationErrorKinds(Completed(pieces, cfg), pf);
    }
  }

  /** A single piece throws `emptyCoordinates` exactly when cleaning left nothing, which needs
      `verboseInput`: a non-empty parameter never splits into [""] by itself. Any other single
      piece, a string without a comma, throws `malformedCoordinates`. */
  lemma SinglePiece(raw: string, cfg: Config, pf: ParseFloat)
    requires raw != []
    ensures (Decode(Some(raw), cfg, pf).Fail? && Decode(Some(raw), cfg, pf).kind == EmptyCoordinates)
              <==> (cfg.verboseInput && Clean(raw) == [])
    ensures (Decode(Some(raw), cfg, pf).Fail? && Decode(Some(raw), cfg, pf).kind == MalformedCoordinates)
              <==> (var s := if cfg.verboseInput then Clean(raw) else raw; s != [] && ',' !in s)
  {
    var s := if cfg.verboseInput then Clean(raw) else raw;
    var pieces := Split(s, ',');
    assert Pieces(raw, cfg.verboseInput) == pieces;
    assert Decode(Some(raw), cfg, pf) == DecodePieces(pieces, cfg, pf);
    StructuralErrors(pieces, cfg, pf);
    EmptyPieceOnlyFromEmpty(s, ',');
    if ',' !in s {
      SplitWhole(s, ',');
    }
  }

  /** A bare pair is completed with the default WKID: a warning is reported, the two pieces stay
      as they are, the bounds looked up are those of `defaultWKID`, and the point carries it. */
  lemma BarePairGetsDefaultWkid(pieces: seq<string>, cfg: Config, pf: ParseFloat)
    requires |pieces| == 2
    ensures var o := DecodePieces(pieces, cfg, pf);
      !o.NoOp? && |o.log| >= 1 && o.log[0] == MissingWkidWarning
    ensures var t := Completed(pieces, cfg);
      |t| == 3 && t[0] == Text(pieces[0]) && t[1] == Text(pieces[1])
      && WkidOf(t[2]) == Some(cfg.defaultWkid)
    ensures DecodePieces(pieces, cfg, pf).Center? ==>
      DecodePieces(pieces, cfg, pf).point.wkid == Number(cfg.defaultWkid)
  {
    var t := Completed(pieces, cfg);
    assert t == [Text(pieces[0]), Text(pieces[1]), Number(cfg.defaultWkid)];
    ParseIntOfIntToString(cfg.defaultWkid);
  }


  /** Three or more pieces are taken as they are, and no warning is reported. */
  lemma ThreePiecesKept(raw: string, cfg: Config, pf: ParseFloat)
    requires raw != [] && |Pieces(raw, cfg.verboseInput)| >= 3
    ensures Completed(Pieces(raw, cfg.verboseInput), cfg) == Texts(Pieces(raw, cfg.verboseInput))
    ensures MissingWkidWarning !in Decode(Some(raw), cfg, pf).log
  {
  }

  /** With `validateInput` off, every input of two or more pieces reaches the point builder. */
  lemma NoValidationAlwaysCenters(raw: string, cfg: Config, pf: ParseFloat)
    requires raw != [] && |Pieces(raw, cfg.verboseInput)| >= 2 && !cfg.validateInput
    ensures Decode(Some(raw), cfg, pf) ==
      Center(CenterFromTokens(Completed(Pieces(raw, cfg.verboseInput), cfg)),
             if |Pieces(raw, cfg.verboseInput)| == 2 then [MissingWkidWarning] else [])
  {
  }

  /** Two or more pieces give a centre exactly when validation is off or every check passes. */
  lemma CenterIffAccepted(raw: string, cfg: Config, pf: ParseFloat)
    requires raw != [] && |Pieces(raw, cfg.verboseInput)| >= 2
    ensures Decode(Some(raw), cfg, pf).Center? <==>
              !cfg.validateInput || Accepts(Completed(Pieces(raw, cfg.verboseInput), cfg), pf)
  {
  }

  /** A validated centre satisfies the bounds of its WKID and a WKID of 4 to 5 characters;
      it is projected exactly when the WKID parses to 25833, and carries token 2 as its WKID. */
  lemma ValidatedCenter(pieces: seq<string>, cfg: Config, pf: ParseFloat)
    requires |pieces| >= 1 && cfg.validateInput && DecodePieces(pieces, cfg, pf).Center?
    ensures var p := DecodePieces(pieces, cfg, pf).point;
      var t := Completed(pieces, cfg);
      var w := WkidOf(p.wkid);
      |t| >= 3 && p.wkid == t[2]
      && (p.Projected? <==> w == Some(25833))
      && w.Some? && AcceptsWkid(w.value)
      && (p.Projected? ==> AcceptsCoordinate(p.x, 0, w, pf) && AcceptsCoordinate(p.y, 1, w, pf))
      && (p.Geographic? ==> AcceptsCoordinate(p.latitude, 0, w, pf) && AcceptsCoordinate(p.longitude, 1, w, pf))
  {
    var t := Completed(pieces, cfg);
    assert |pieces| >= 2;
    assert ValidationError(t, pf) == None;
    assert Accepts(t, pf);
    assert DecodePieces(pieces, cfg, pf).point == CenterFromTokens(t);
  }


  /** With validation on, three pieces whose tokens all pass give the point of `_getCenterFromURL`
      and report nothing. */
  lemma AcceptedTriple(pieces: seq<string>, cfg: Config, pf: ParseFloat)
    requires cfg.validateInput && |pieces| == 3
    requires ValidationError(Texts(pieces), pf) == None
    ensures DecodePieces(pieces, cfg, pf) == Center(CenterFromTokens(Texts(pieces)), [])
  {
    assert Completed(pieces, cfg) == Texts(pieces);
  }

  lemma ProjectedWkidPasses()
    ensures WkidOf(Text("25833")) == Some(25833) && WkidError(Text("25833")) == None
  {
    ParsesTo25833();
  }

  lemma ProjectedXPasses(pf: ParseFloat)
    requires pf("500000") == Some(500000.0)
    ensures AcceptsCoordinate("500000", 0, Some(25833), pf)
  {
    assert AxisLimits(Some(25833), 0) == (Finite(-2465144.80), Finite(4102893.55));
    assert InRange(500000.0, Finite(-2465144.80), Finite(4102893.55));
  }

  lemma ProjectedYPasses(pf: ParseFloat)
    requires pf("6000000") == Some(6000000.0)
    ensures AcceptsCoordinate("6000000", 1, Some(25833), pf)
  {
    assert AxisLimits(Some(25833), 1) == (Finite(776625.76), Finite(9408555.22));
    assert InRange(6000000.0, Finite(776625.76), Finite(9408555.22));
  }

  lemma ProjectedTokensPass(pf: ParseFloat)
    requires pf("500000") == Some(500000.0) && pf("6000000") == Some(6000000.0)
    ensures ValidationError([Text("500000"), Text("6000000"), Text("25833")], pf) == None
  {
    ProjectedWkidPasses();
    ProjectedXPasses(pf);
    ProjectedYPasses(pf);
  }

  /** Metre values under WKID 25833 pass its bounds and give a projected point. */
  lemma ProjectedExample(cfg: Config, pf: ParseFloat)
    requires cfg.validateInput
    requires pf("500000") == Some(500000.0) && pf("6000000") == Some(6000000.0)
    ensures DecodePieces(["500000", "6000000", "25833"], cfg, pf)
              == Center(Projected("500000", "6000000", Text("25833")), [])
  {
    var pieces := ["500000", "6000000", "25833"];
    assert Texts(pieces) == [Text("500000"), Text("6000000"), Text("25833")];
    ProjectedTokensPass(pf);
    ParsesTo25833();
    AcceptedTriple(pieces, cfg, pf);
  }

  /** Two configurations that differ only in `enableLoggerFeedback`, off in the first. */
  predicate OnlyLoggingDiffers(quiet: Config, loud: Config)
  {
    quiet.verboseInput == loud.verboseInput && quiet.validateInput == loud.validateInput
    && quiet.defaultWkid == loud.defaultWkid
    && !quiet.enableLoggerFeedback && loud.enableLoggerFeedback
  }

  /** After the split, logger feedback only adds the logged error before a throw. */
  lemma LoggingOnlyAddsEntryToPieces(pieces: seq<string>, quiet: Config, loud: Config, pf: ParseFloat)
    requires |pieces| >= 1 && OnlyLoggingDiffers(quiet, loud)
    ensures var q := DecodePieces(pieces, quiet, pf);
      var l := DecodePieces(pieces, loud, pf);
      (q.Center? ==> l == q)
      && (q.Fail? ==> l == Fail(q.kind, q.log + [LoggedError(q.kind)]))
      && !q.NoOp?
  {
    if |pieces| >= 2 {
      assert Completed(pieces, loud) == Completed(pieces, quiet);
      var warnings := if |pieces| == 2 then [MissingWkidWarning] else [];
      assert warnings + [] == warnings;
    }
  }

  /** Logger feedback never changes what happens: it only adds the logged error before a throw. */
  lemma LoggingOnlyAddsEntry(showCoord: Option<string>, quiet: Config, loud: Config, pf: ParseFloat)
    requires OnlyLoggingDiffers(quiet, loud)
    ensures var q := Decode(showCoord, quiet, pf);
      var l := Decode(showCoord, loud, pf);
      (q.NoOp? <==> l.NoOp?)
      && (q.Center? ==> l == q)
      && (q.Fail? ==> l == Fail(q.kind, q.log + [LoggedError(q.kind)]))
  {
    if showCoord.Some? && showCoord.value != [] {
      LoggingOnlyAddsEntryToPieces(Pieces(showCoord.value, quiet.verboseInput), quiet, loud, pf);
    }
  }
}
