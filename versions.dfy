/**
 * Where the two bundles part ways on the same pieces: the WKID length rule, the bounds, and
 * the WKID a bare pair ends up with.
 */
module BundleComparison {
  import opened Wrappers
  import opened JsString
  import opened JsNumber
  import opened Outcomes
  import V1 = UrlCoordinates
  import V2 = UrlCoordinatesFixed
  import V1Properties = UrlCoordinatesProperties
  import V2Properties = UrlCoordinatesFixedProperties

  /** `0043` is too short for `urlcoordinates`, which measures the parsed 43, and long enough
      for `url-coordinates`, which measures the raw text. */
  lemma LeadingZerosSplitVersions()
    ensures V1.WkidError(V1.Text("0043")) == Some(WkidExceedsLowerLimit)
    ensures V2.WkidError("0043") == None
  {
    V1Properties.ParsesTo43();
    V1Properties.WkidLeadingZeros();
  }

  lemma PlainParsesTo4326()
    ensures ParseInt("4326") == Some(4326)
  {
    assert "4326" + [] == "4326";
    ParseIntDecimal("4326", []);
    V2Properties.ValueOf4326();
  }

  lemma ThreePiecesAsTokens(cfg: V1.Config)
    ensures V1.Completed(["95.0", "10.0", "4326"], cfg) == [V1.Text("95.0"), V1.Text("10.0"), V1.Text("4326")]
  {
  }

  lemma FirstBundleRejectsToken0(pf: ParseFloat)
    requires pf("95.0") == Some(95.0)
    ensures V1.ValidationError([V1.Text("95.0"), V1.Text("10.0"), V1.Text("4326")], pf) == Some(CoordinateExceedsXLimit)
  {
    PlainParsesTo4326();
    assert V1.CoordinateError("95.0", 0, V1.Text("4326"), pf) == Some(CoordinateExceedsXLimit);
  }

  lemma FirstBundleThrows(pieces: seq<string>, cfg: V1.Config, pf: ParseFloat, kind: ErrKind)
    requires cfg.validateInput && |pieces| == 3
    requires V1.ValidationError(V1.Completed(pieces, cfg), pf) == Some(kind)
    ensures V1.DecodePieces(pieces, cfg, pf) == Fail(kind, V1.Raised(kind, cfg))
  {
  }

  lemma FirstBundleRejects(cfg: V1.Config, pf: ParseFloat)
    requires cfg.validateInput
    requires pf("95.0") == Some(95.0)
    ensures V1.DecodePieces(["95.0", "10.0", "4326"], cfg, pf) == Fail(CoordinateExceedsXLimit, V1.Raised(CoordinateExceedsXLimit, cfg))
  {
    ThreePiecesAsTokens(cfg);
    FirstBundleRejectsToken0(pf);
    FirstBundleThrows(["95.0", "10.0", "4326"], cfg, pf, CoordinateExceedsXLimit);
  }

  lemma SecondBundleAccepts(pf: ParseFloat)
    requires pf("95.0") == Some(95.0) && pf("10.0") == Some(10.0)
    ensures V2.DecodePieces(["95.0", "10.0", "4326"], pf) == Center(V2.Point("95.0", "10.0", Some("4326")), [])
  {
    PlainParsesTo4326();
    assert V2.ValidationError(["95.0", "10.0", "4326"], pf) == None;
  }

  /** Token 0 of 95.0 with WKID 4326 breaks the first bundle's [-90, 90] bound for token 0 and
      passes the second bundle's [-180, 180]. */
  lemma BoundsSplitVersions(cfg: V1.Config, pf: ParseFloat)
    requires cfg.validateInput
    requires pf("95.0") == Some(95.0) && pf("10.0") == Some(10.0)
    ensures V1.DecodePieces(["95.0", "10.0", "4326"], cfg, pf).Fail?
    ensures V1.DecodePieces(["95.0", "10.0", "4326"], cfg, pf).kind == CoordinateExceedsXLimit
    ensures V2.DecodePieces(["95.0", "10.0", "4326"], pf).Center?
  {
    FirstBundleRejects(cfg, pf);
    SecondBundleAccepts(pf);
  }

  /** A bare pair that gives a centre carries the default WKID in the first bundle and none in
      the second. */
  lemma BarePairWkid(pieces: seq<string>, cfg: V1.Config, pf: ParseFloat)
    requires |pieces| == 2
    ensures V1.DecodePieces(pieces, cfg, pf).Center? ==>
              V1.DecodePieces(pieces, cfg, pf).point.wkid == V1.Number(cfg.defaultWkid)
    ensures V2.DecodePieces(pieces, pf).Center? ==> V2.DecodePieces(pieces, pf).point.wkid == None
  {
  }
}
