/** The pore-geometry registry of nanopores/geometries/allpores.py: name dispatch,
    the merged parameters a pore object keeps, the PughPore size derivation and
    builder dispatch, and the three layer polygons of the Wei pore. The geometry
    builders themselves (`pughpore`, `MultiPore`, `Pore`, `Polygon.split`) are not
    part of this model; what is handed to them is recorded instead. */
module Pores {
  import opened PyValues
  import opened Plane

  // ---------------------------------------------------------------------------
  // The registry (allpores.py:24-34, 200-204)
  // ---------------------------------------------------------------------------

  datatype PoreKind = WeiKind | PughKind | AlphaHemKind

  /** A cosine as `np.cos` returns it for a finite angle in degrees: never exactly 0,
      since no double is an odd multiple of pi/2. */
  type NonZeroCos = x: real | x != 0.0 witness 1.0

  /** `geometries[geoname]`; the default `geoname=None` is not a key either. */
  function LookupGeometry(geoname: Option<string>): (r: Result<PoreKind>)
    ensures r.Ok? <==> geoname.Some? && geoname.value in {"wei", "pugh", "alphahem"}
    ensures r.Err? ==> r.error.KeyError?
    ensures r == Ok(WeiKind) <==> geoname == Some("wei")
    ensures r == Ok(PughKind) <==> geoname == Some("pugh")
    ensures r == Ok(AlphaHemKind) <==> geoname == Some("alphahem")
  {
    match geoname
    case None => Err(KeyError("None"))
    case Some(name) =>
      if name == "wei" then Ok(WeiKind)
      else if name == "pugh" then Ok(PughKind)
      else if name == "alphahem" then Ok(AlphaHemKind)
      else Err(KeyError(name))
  }

  /** `params["geoname"] = geoname`. */
  function NameValue(geoname: Option<string>): Value {
    if geoname.Some? then Text(geoname.value) else Nothing
  }

  // ---------------------------------------------------------------------------
  // Default parameters (allpores.py:53-60, 92-101, 113-133)
  // ---------------------------------------------------------------------------

  function AlphaHemDefault(): Dict {
    map[
      "dim" := Int(2), "Htop" := Real(7.0), "Hbot" := Real(15.0), "R" := Real(10.0),
      "cs" := List([Int(-3), Int(-6)]), "zmem" := Real(-7.625),
      "proteincs" := List([Real(-2.3), Real(-4.6), Real(-7.2)]), "subs" := Nothing
    ]
  }

  function WeiDefault(): Dict {
    map[
      "R" := Real(120.0), "R0" := Real(100.0), "H" := Real(240.0),
      "x0" := List([Int(0), Int(0), Int(46)]), "rMolecule" := Real(6.0), "dim" := Int(3),
      "no_membrane" := Flag(true), "dp" := Int(45), "angle" := Int(40),
      "lcCenter" := Real(0.3), "lcMolecule" := Real(0.1), "h" := Real(10.0),
      "subs" := Nothing, "reconstruct" := Flag(false), "poreregion" := Flag(true),
      "receptor" := Nothing, "rReceptor" := Real(1.25), "reverse" := Flag(true)
    ]
  }

  /** The PughPore defaults: the `pughpore` module's parameters (an input here)
      overridden by the name, the pore and DNA diameters and the dimension. */
  function PughDefault(pughParams: Dict): (d: Dict)
    ensures d.Keys == pughParams.Keys + {"geoname", "diamPore", "diamDNA", "dim"}
    ensures d["geoname"] == Text("pugh") && d["diamPore"] == Real(6.0)
    ensures d["diamDNA"] == Real(2.5) && d["dim"] == Int(3)
    ensures forall k :: k in pughParams && k !in {"geoname", "diamPore", "diamDNA", "dim"} ==>
      k in d && d[k] == pughParams[k]
  {
    pughParams + map["geoname" := Text("pugh"), "diamPore" := Real(6.0),
                     "diamDNA" := Real(2.5), "dim" := Int(3)]
  }

  function Default(kind: PoreKind, pughParams: Dict): Dict {
    match kind
    case WeiKind => WeiDefault()
    case PughKind => PughDefault(pughParams)
    case AlphaHemKind => AlphaHemDefault()
  }

  /** `Params(self.default, **params)`: the defaults overridden by the caller's values. */
  function Merged(default: Dict, params: Dict): (m: Dict)
    ensures m.Keys == default.Keys + params.Keys
    ensures forall k :: k in params ==> m[k] == params[k]
    ensures forall k :: k in default && k !in params ==> m[k] == default[k]
  {
    default + params
  }

  /** A keyword argument with its default, as `def f(h=1., ...)` binds it. */
  function KeywordOr(call: Dict, key: string, default: Value): (v: Value)
    ensures key in call ==> v == call[key]
    ensures key !in call ==> v == default
  {
    if key in call then call[key] else default
  }

  /** What `**params` holds once `h` and `reconstruct` are bound by keyword. */
  function RestOf(call: Dict): (rest: Dict)
    ensures rest.Keys == call.Keys - {"h", "reconstruct"}
    ensures forall k :: k in rest ==> rest[k] == call[k]
  {
    map k | k in call && k !in {"h", "reconstruct"} :: call[k]
  }

  /** What `get_geo` stores in `self.params`. The caller's `h` and `reconstruct`
      are bound by keyword, so they never reach the merged parameters: the Wei
      pore keeps its default `h == 10` and `reconstruct == False` there. */
  lemma WeiKeepsDefaultMeshSize(call: Dict)
    ensures Merged(WeiDefault(), RestOf(call))["h"] == Real(10.0)
    ensures Merged(WeiDefault(), RestOf(call))["reconstruct"] == Flag(false)
  {
    assert "h" !in RestOf(call) && "reconstruct" !in RestOf(call);
  }

  // ---------------------------------------------------------------------------
  // Reading a parameter as a number
  // ---------------------------------------------------------------------------

  /** `params.key` used in arithmetic: a missing key is an AttributeError, a value
      that is not a number a TypeError. */
  function NumParam(params: Dict, key: string): (r: Result<real>)
    ensures r.Ok? <==> key in params && NumberOf(params[key]).Some?
    ensures r.Ok? ==> r.value == NumberOf(params[key]).value
    ensures key !in params ==> r == Err(AttributeError(key))
    ensures key in params && NumberOf(params[key]).None? ==> r.Err? && r.error.TypeError?
  {
    if key !in params then Err(AttributeError(key))
    else match NumberOf(params[key])
      case None => Err(TypeError("unsupported operand type"))
      case Some(x) => Ok(x)
  }

  // ---------------------------------------------------------------------------
  // PughPore.build (allpores.py:62-88)
  // ---------------------------------------------------------------------------

  /** The five layer diameters derived from the pore and DNA diameters. */
  datatype PughSizes = PughSizes(l0: real, l1: real, l2: real, l3: real, l4: real)

  function PughSizesOf(diamPore: real, diamDNA: real): (s: PughSizes)
    ensures s.l3 == diamPore && s.l4 == s.l1
    ensures s.l0 - s.l1 == 2.0 * diamDNA && s.l1 - s.l2 == 2.0 * diamDNA
    ensures s.l2 - s.l3 == 2.0 * diamDNA
  {
    PughSizes(diamPore + 6.0 * diamDNA, diamPore + 4.0 * diamDNA, diamPore + 2.0 * diamDNA,
              diamPore, diamPore + 4.0 * diamDNA)
  }

  /** The layers narrow towards the pore: with a DNA diameter of at least 0,
      `l0 >= l1 >= l2 >= l3`, each step twice the DNA diameter, and the pore
      diameter is the innermost one. */
  lemma PughSizesOrdered(diamPore: real, diamDNA: real)
    requires diamDNA >= 0.0
    ensures var s := PughSizesOf(diamPore, diamDNA);
      s.l0 >= s.l1 >= s.l2 >= s.l3 == diamPore && s.l0 - s.l3 == 6.0 * diamDNA
  {
    var s := PughSizesOf(diamPore, diamDNA);
    assert s.l0 - s.l3 == (s.l0 - s.l1) + (s.l1 - s.l2) + (s.l2 - s.l3);
  }

  /** `params.update(l0=..., l4=...)` when `diamPore` is set; the parameters are
      left alone when it is None. Both diameters are read before the arithmetic, in
      which `6.*diamDNA` comes before the addition to `diamPore`. */
  function PughParams(params: Dict): (r: Result<Dict>)
    ensures "diamPore" !in params ==> r == Err(AttributeError("diamPore"))
    ensures "diamPore" in params && params["diamPore"] == Nothing ==> r == Ok(params)
    ensures "diamPore" in params && params["diamPore"] != Nothing && "diamDNA" !in params ==>
      r == Err(AttributeError("diamDNA"))
    ensures "diamPore" in params && params["diamPore"] != Nothing && "diamDNA" in params ==>
      (r.Ok? <==> NumberOf(params["diamPore"]).Some? && NumberOf(params["diamDNA"]).Some?)
      && (r.Err? ==> r.error.TypeError?)
  {
    if "diamPore" !in params then Err(AttributeError("diamPore"))
    else if params["diamPore"] == Nothing then Ok(params)
    else if "diamDNA" !in params then Err(AttributeError("diamDNA"))
    else
      match NumParam(params, "diamDNA")
      case Err(e) => Err(e)
      case Ok(dd) =>
        match NumParam(params, "diamPore")
        case Err(e) => Err(e)
        case Ok(dp) =>
          var s := PughSizesOf(dp, dd);
          Ok(params + map["l0" := Real(s.l0), "l1" := Real(s.l1), "l2" := Real(s.l2),
                          "l3" := Real(s.l3), "l4" := Real(s.l4)])
  }

  /** Deriving the layer diameters a second time changes nothing: the updated
      parameters give back themselves, so building again gives the same geometry. */
  lemma PughRebuild(params: Dict, h: Value)
    requires PughParams(params).Ok?
    ensures PughParams(PughParams(params).value) == PughParams(params)
    ensures PughBuild(PughParams(params).value, h) == PughBuild(params, h)
  {
    var p := PughParams(params).value;
    if params["diamPore"] != Nothing {
      var s := PughSizesOf(NumberOf(params["diamPore"]).value, NumberOf(params["diamDNA"]).value);
      var m := map["l0" := Real(s.l0), "l1" := Real(s.l1), "l2" := Real(s.l2),
                   "l3" := Real(s.l3), "l4" := Real(s.l4)];
      assert p == params + m;
      assert p["diamPore"] == params["diamPore"] && p["diamDNA"] == params["diamDNA"];
      assert p + m == p;
    }
  }

  /** A numeric `diamPore` overrides exactly the five layer diameters. */
  lemma PughParamsOverride(params: Dict)
    requires "diamPore" in params && params["diamPore"] != Nothing
    requires NumberOf(params["diamPore"]).Some?
    requires "diamDNA" in params && NumberOf(params["diamDNA"]).Some?
    ensures var r := PughParams(params);
      var s := PughSizesOf(NumberOf(params["diamPore"]).value, NumberOf(params["diamDNA"]).value);
      && r.Ok?
      && r.value.Keys == params.Keys + {"l0", "l1", "l2", "l3", "l4"}
      && r.value["l0"] == Real(s.l0) && r.value["l1"] == Real(s.l1)
      && r.value["l2"] == Real(s.l2) && r.value["l3"] == Real(s.l3)
      && r.value["l4"] == Real(s.l4)
      && forall k :: k in params && k !in {"l0", "l1", "l2", "l3", "l4"} ==> r.value[k] == params[k]
  {
  }

  /** The `pughpore` builder `build` calls: 3-D, cylindrical or 1-D. */
  datatype PughBuilder = Pugh3D | PughCylindrical | Pugh1D

  /** The molecule surface attached for snapping mesh vertices. */
  datatype Snap = SphereSnap(radius: Value, center: Value) | CircleSnap(radius: Value, center: Value)

  /** What `build` hands to the `pughpore` builder, and the snap it attaches. */
  datatype PughGeo = PughGeo(builder: PughBuilder, h: Value, params: Dict, snap: Option<Snap>)

  /** The builder for `params.dim`; any other dimension leaves `geo` unbound. */
  function PughBuilderFor(params: Dict): (r: Result<PughBuilder>)
    ensures "dim" !in params ==> r == Err(AttributeError("dim"))
    ensures "dim" in params ==>
      (r == Ok(Pugh3D) <==> NumEquals(params["dim"], 3.0))
      && (r == Ok(PughCylindrical) <==> NumEquals(params["dim"], 2.0))
      && (r == Ok(Pugh1D) <==> NumEquals(params["dim"], 1.0))
      && (r.Err? <==> !NumEquals(params["dim"], 3.0) && !NumEquals(params["dim"], 2.0)
                      && !NumEquals(params["dim"], 1.0))
    ensures r.Err? && "dim" in params ==> r == Err(UnboundLocalError("geo"))
  {
    if "dim" !in params then Err(AttributeError("dim"))
    else if NumEquals(params["dim"], 3.0) then Ok(Pugh3D)
    else if NumEquals(params["dim"], 2.0) then Ok(PughCylindrical)
    else if NumEquals(params["dim"], 1.0) then Ok(Pugh1D)
    else Err(UnboundLocalError("geo"))
  }

  /** `PughPore.build` on the merged parameters. The geometry's own parameters,
      which the `pughpore` builders return, are taken to be the ones passed in. */
  function PughBuild(params: Dict, h: Value): (r: Result<PughGeo>)
    ensures PughParams(params).Err? ==> r == Err(PughParams(params).error)
    ensures r.Ok? ==> PughParams(params).Ok? && r.value.params == PughParams(params).value && r.value.h == h
    ensures PughParams(params).Ok? ==>
      var p := PughParams(params).value;
      r.Ok? <==>
        && PughBuilderFor(p).Ok?
        && (PughBuilderFor(p).value != Pugh1D ==> "x0" in p && (p["x0"] != Nothing ==> "rMolecule" in p))
  {
    if PughParams(params).Err? then Err(PughParams(params).error)
    else
      var p := PughParams(params).value;
      if PughBuilderFor(p).Err? then Err(PughBuilderFor(p).error)
      else
        var b := PughBuilderFor(p).value;
        if b == Pugh1D then Ok(PughGeo(Pugh1D, h, p, None))
        else if "x0" !in p then Err(KeyError("x0"))
        else if p["x0"] == Nothing then Ok(PughGeo(b, h, p, None))
        else if "rMolecule" !in p then Err(KeyError("rMolecule"))
        else if b == Pugh3D then Ok(PughGeo(b, h, p, Some(SphereSnap(p["rMolecule"], p["x0"]))))
        else Ok(PughGeo(b, h, p, Some(CircleSnap(p["rMolecule"], p["x0"]))))
  }

  /** The dimension picks the builder, and a molecule snap is attached exactly when
      `x0` is set and the geometry is 3-D (a sphere) or cylindrical (a circle). */
  lemma PughBuildDispatch(params: Dict, h: Value)
    requires PughParams(params).Ok?
    ensures var p := PughParams(params).value;
      var r := PughBuild(params, h);
      && (PughBuilderFor(p).Err? ==> r == Err(PughBuilderFor(p).error))
      && (r.Ok? ==> r.value.builder == PughBuilderFor(p).value && r.value.params == p && r.value.h == h)
      && (r.Ok? ==>
            (r.value.snap.Some? <==> r.value.builder != Pugh1D && p["x0"] != Nothing)
            && (r.value.snap.Some? ==> r.value.snap.value.center == p["x0"]
                                       && r.value.snap.value.radius == p["rMolecule"]
                                       && (r.value.snap.value.SphereSnap? <==> r.value.builder == Pugh3D)))
      && (PughBuilderFor(p) == Ok(Pugh1D) ==> r.Ok?)
      && (PughBuilderFor(p).Ok? && PughBuilderFor(p) != Ok(Pugh1D) && "x0" in p && "rMolecule" in p ==> r.Ok?)
  {
  }

  // ---------------------------------------------------------------------------
  // WeiPore.polygons (allpores.py:135-171)
  // ---------------------------------------------------------------------------

  /** SiN, Au and SAM thicknesses and the Au radial thickness [nm]. */
  const LSin: real := 50.0
  const LAu: real := 40.0
  const RLAu: real := 10.0
  const LSam: real := 3.0

  /** `l0 = lau + lsin + lsam`: the membrane thickness. */
  const L0: real := LAu + LSin + LSam

  /** The three layer polygons (in the (r, z) plane) and the radius at which each is
      split into a charged and an uncharged part. */
  datatype Layers = Layers(sam: seq<Point>, au: seq<Point>, sin: seq<Point>, rsplit: real)

  /** `s[::-1]`. */
  function Reversed<T>(s: seq<T>): (r: seq<T>)
    ensures |r| == |s| && forall i :: 0 <= i < |s| ==> r[i] == s[|s| - 1 - i]
  {
    seq(|s|, i requires 0 <= i < |s| => s[|s| - 1 - i])
  }

  /** The pore radius at the narrow end, `dp/2 - lsam`. */
  function InnerRadius(dp: real): real {
    dp / 2.0 - LSam
  }

  /** The pore radius at the wide end, `r0 + l0*tan`. */
  function OuterRadius(dp: real, tan: real): real {
    InnerRadius(dp) + L0 * tan
  }

  /** `split*R + (1 - split)*r1` with `split = 0.7`. */
  function SplitRadius(R: real, r1: real): (s: real)
    ensures r1 <= R ==> r1 <= s <= R
    ensures R <= r1 ==> R <= s <= r1
  {
    0.7 * R + (1.0 - 0.7) * r1
  }

  /** The layers with the narrow opening at the bottom (`reverse` false). With
      `l = l0/2`: SAM, then Au, then SiN, each starting on the edge it shares with
      the layer before. */
  function UprightLayers(dp: real, R: real, tan: real, cos: real): (ls: Layers)
    requires cos != 0.0
    ensures |ls.sam| == 6 && |ls.au| == 6 && |ls.sin| == 4
    ensures ls.rsplit == SplitRadius(R, OuterRadius(dp, tan))
  {
    var l := L0 / 2.0;
    var r0 := InnerRadius(dp);
    var r1 := OuterRadius(dp, tan);
    var rsam := r0 + LSam / cos;
    var rsin := r0 + LSam / cos + RLAu;
    var sam := [Point(r0, -l), Point(r1, l), Point(R, l), Point(R, l - LSam),
                Point(rsam - tan * (LSam - L0), l - LSam), Point(rsam, -l)];
    var au := [sam[5], sam[4], sam[3], Point(R, -l + LSin),
               Point(rsin + tan * LSin, -l + LSin), Point(rsin, -l)];
    var sin := [au[5], au[4], au[3], Point(R, -l)];
    Layers(sam, au, sin, SplitRadius(R, r1))
  }

  /** The layers flipped so that the narrow opening is at the top (`reverse` true),
      written as the source writes them: `l` negated, the SAM corners mirrored by
      hand, each list reversed, the shared corners read from the back. */
  function FlippedLayers(dp: real, R: real, tan: real, cos: real): (ls: Layers)
    requires cos != 0.0
    ensures |ls.sam| == 6 && |ls.au| == 6 && |ls.sin| == 4
    ensures ls.rsplit == SplitRadius(R, OuterRadius(dp, tan))
  {
    var l := -(L0 / 2.0);
    var r0 := InnerRadius(dp);
    var r1 := OuterRadius(dp, tan);
    var rsam := r0 + LSam / cos;
    var rsin := r0 + LSam / cos + RLAu;
    var sam := Reversed([Point(r0, -l), Point(r1, l), Point(R, l), Point(R, l + LSam),
                         Point(rsam - tan * (LSam - L0), l + LSam), Point(rsam, -l)]);
    var au := Reversed([sam[0], sam[1], sam[2], Point(R, -l - LSin),
                        Point(rsin + tan * LSin, -l - LSin), Point(rsin, -l)]);
    var sin := Reversed([au[0], au[1], au[2], Point(R, -l)]);
    Layers(sam, au, sin, SplitRadius(R, r1))
  }

  /** `WeiPore.polygons` for the given pore diameter, outer radius and orientation.
      `tan` and `cos` are those of half the aperture angle (inputs here). Without
      `reverse` the layers are upright; with it they are the same pore mirrored in
      `z = 0`, every corner list reversed. */
  function WeiPolygons(dp: real, R: real, tan: real, cos: NonZeroCos, reverse: bool): (ls: Layers)
    ensures !reverse ==> ls == UprightLayers(dp, R, tan, cos)
    ensures reverse ==>
      var up := UprightLayers(dp, R, tan, cos);
      && ls.sam == MirrorReversed(up.sam) && ls.au == MirrorReversed(up.au)
      && ls.sin == MirrorReversed(up.sin) && ls.rsplit == up.rsplit
  {
    if reverse then
      FlippedIsMirrored(dp, R, tan, cos);
      FlippedLayers(dp, R, tan, cos)
    else UprightLayers(dp, R, tan, cos)
  }

  /** The upright layers have 6, 6 and 4 corners; Au starts with the last three SAM
      corners in reverse order and SiN with the last three Au corners in reverse
      order, so neighbouring layers share an edge; the pore runs from radius
      `dp/2 - 3` at `z = -l0/2` to `r0 + l0*tan` at `z = l0/2`; and the split radius
      lies between that outer pore radius and `R`. */
  lemma UprightLayersShape(dp: real, R: real, tan: real, cos: real)
    requires cos != 0.0
    ensures var ls := UprightLayers(dp, R, tan, cos);
      && |ls.sam| == 6 && |ls.au| == 6 && |ls.sin| == 4
      && ls.au[0] == ls.sam[5] && ls.au[1] == ls.sam[4] && ls.au[2] == ls.sam[3]
      && ls.sin[0] == ls.au[5] && ls.sin[1] == ls.au[4] && ls.sin[2] == ls.au[3]
      && ls.sam[0] == Point(dp / 2.0 - 3.0, -46.5)
      && ls.sam[1] == Point(dp / 2.0 - 3.0 + 93.0 * tan, 46.5)
      && (OuterRadius(dp, tan) <= R ==> OuterRadius(dp, tan) <= ls.rsplit <= R)
      && (R <= OuterRadius(dp, tan) ==> R <= ls.rsplit <= OuterRadius(dp, tan))
  {
  }

  /** Flipping the pore is mirroring: each flipped layer is the upright one with
      `z -> -z` and its corners in reverse order, and the split radius is the same. */
  lemma FlippedIsMirrored(dp: real, R: real, tan: real, cos: real)
    requires cos != 0.0
    ensures var up := UprightLayers(dp, R, tan, cos);
      var fl := FlippedLayers(dp, R, tan, cos);
      && fl.sam == MirrorReversed(up.sam)
      && fl.au == MirrorReversed(up.au)
      && fl.sin == MirrorReversed(up.sin)
      && fl.rsplit == up.rsplit
  {
    var up := UprightLayers(dp, R, tan, cos);
    var fl := FlippedLayers(dp, R, tan, cos);
    assert fl.sam == MirrorReversed(up.sam);
    assert fl.au == MirrorReversed(up.au);
    assert fl.sin == MirrorReversed(up.sin);
  }

  /** In the flipped pore the shared edges are read from the other end: Au ends with
      the first three SAM corners and SiN with the first three Au corners. */
  lemma FlippedLayersShare(dp: real, R: real, tan: real, cos: real)
    requires cos != 0.0
    ensures var fl := FlippedLayers(dp, R, tan, cos);
      && |fl.sam| == 6 && |fl.au| == 6 && |fl.sin| == 4
      && fl.au[5] == fl.sam[0] && fl.au[4] == fl.sam[1] && fl.au[3] == fl.sam[2]
      && fl.sin[3] == fl.au[0] && fl.sin[2] == fl.au[1] && fl.sin[1] == fl.au[2]
  {
  }

  // ---------------------------------------------------------------------------
  // WeiPore.pore (allpores.py:173-193)
  // ---------------------------------------------------------------------------

  /** The receptor ball handed to `add_balls`. */
  datatype ReceptorBall = ReceptorBall(center: Value, radius: Value, lc: real)

  /** What `WeiPore.pore` hands to `MultiPore`: its parameters, the layers (each one
      split at `rsplit` into a charged and an uncharged part by `Polygon.split`,
      which is not part of this model), the synonyms naming each material's two
      parts, and the receptor ball if any. */
  datatype WeiPoreSetup = WeiPoreSetup(
    params: Dict,
    layers: Layers,
    synonyms: map<string, set<string>>,
    receptor: Option<ReceptorBall>)

  /** The three materials of the Wei pore. */
  const Materials: seq<string> := ["sam", "au", "sin"]

  /** `pore.synonymes`: each material names its charged and uncharged parts. */
  function Synonyms(): (s: map<string, set<string>>)
    ensures s.Keys == {"sam", "au", "sin"}
    ensures forall m :: m in s ==> s[m] == {"charged" + m, "uncharged" + m}
  {
    map m | m in {"sam", "au", "sin"} :: {"charged" + m, "uncharged" + m}
  }

  /** `params.reverse` read as a truth value. */
  function FlagParam(params: Dict, key: string): (r: Result<bool>)
    ensures r.Ok? <==> key in params
    ensures r.Ok? ==> r.value == Truthy(params[key])
  {
    if key in params then Ok(Truthy(params[key])) else Err(AttributeError(key))
  }

  /** `WeiPore.pore` on the merged parameters. `tanOfDeg` and `cosOfDeg` give the
      tangent and cosine of an angle in degrees. */
  function WeiPore(params: Dict, tanOfDeg: real -> real, cosOfDeg: real -> NonZeroCos): (r: Result<WeiPoreSetup>)
    ensures "angle" !in params ==> r == Err(AttributeError("angle"))
    ensures r.Ok? ==>
      && r.value.params == params && r.value.synonyms == Synonyms()
      && "receptor" in params && (r.value.receptor.Some? <==> params["receptor"] != Nothing)
  {
    match NumParam(params, "angle")
    case Err(e) => Err(e)
    case Ok(angle) =>
      match NumParam(params, "dp")
      case Err(e) => Err(e)
      case Ok(dp) =>
        match NumParam(params, "R")
        case Err(e) => Err(e)
        case Ok(R) =>
          match FlagParam(params, "reverse")
          case Err(e) => Err(e)
          case Ok(reverse) =>
            var layers := WeiPolygons(dp, R, tanOfDeg(angle / 2.0), cosOfDeg(angle / 2.0), reverse);
            if "receptor" !in params then Err(AttributeError("receptor"))
            else if params["receptor"] == Nothing then
              Ok(WeiPoreSetup(params, layers, Synonyms(), None))
            else if "rReceptor" !in params then Err(AttributeError("rReceptor"))
            else
              Ok(WeiPoreSetup(params, layers, Synonyms(),
                              Some(ReceptorBall(params["receptor"], params["rReceptor"], 0.1))))
  }

  /** With the Wei defaults in place the pore always builds: a receptor ball (of the
      given radius and mesh size 0.1) is added exactly when `receptor` is not None,
      every material has its two parts, and the layers are those of `polygons`. */
  lemma WeiPoreReceptor(params: Dict, tanOfDeg: real -> real, cosOfDeg: real -> NonZeroCos)
    requires forall k :: k in WeiDefault() ==> k in params
    requires NumberOf(params["angle"]).Some? && NumberOf(params["dp"]).Some?
    requires NumberOf(params["R"]).Some?
    ensures var r := WeiPore(params, tanOfDeg, cosOfDeg);
      var angle := NumberOf(params["angle"]).value;
      && r.Ok?
      && (r.value.receptor.Some? <==> params["receptor"] != Nothing)
      && (r.value.receptor.Some? ==>
            r.value.receptor.value == ReceptorBall(params["receptor"], params["rReceptor"], 0.1))
      && r.value.synonyms == Synonyms()
      && r.value.params == params
      && r.value.layers == WeiPolygons(NumberOf(params["dp"]).value, NumberOf(params["R"]).value,
                                           tanOfDeg(angle / 2.0), cosOfDeg(angle / 2.0),
                                           Truthy(params["reverse"]))
  {
    assert "angle" in WeiDefault() && "dp" in WeiDefault() && "R" in WeiDefault();
    assert "reverse" in WeiDefault() && "receptor" in WeiDefault() && "rReceptor" in WeiDefault();
  }

  // ---------------------------------------------------------------------------
  // The pore objects (allpores.py:36-49, 103-109, 195-198)
  // ---------------------------------------------------------------------------

  /** What `build` returns: the Pugh builder call, or the `pore.build(h, subs,
      reconstruct)` call on a cylindrical pore, which is not part of this model. */
  datatype Geo =
    | PughGeometry(pugh: PughGeo)
    | WeiGeometry(wei: WeiPoreSetup, h: Value, subs: Value, reconstruct: Value)
    | AlphaHemGeometry(params: Dict, h: Value, subs: Value, reconstruct: Value)

  /** What `get_pore` returns: the pore before its polygons and boundaries are built. */
  datatype PoreSetup =
    | WeiPoreOf(wei: WeiPoreSetup)
    | AlphaHemPoreOf(params: Dict)

  /** `self.build()` on a pore object whose fields hold `params`, `h` and `reconstruct`. */
  function Build(kind: PoreKind, params: Dict, h: Value, reconstruct: Value,
                 tanOfDeg: real -> real, cosOfDeg: real -> NonZeroCos): (r: Result<Geo>)
    ensures kind == PughKind ==>
      (r.Ok? <==> PughBuild(params, h).Ok?) && (r.Ok? ==> r.value == PughGeometry(PughBuild(params, h).value))
    ensures kind == AlphaHemKind ==>
      ("subs" in params <==> r.Ok?) && (r.Ok? ==> r.value == AlphaHemGeometry(params, h, params["subs"], reconstruct))
    ensures kind == WeiKind ==>
      (r.Ok? <==> WeiPore(params, tanOfDeg, cosOfDeg).Ok? && "subs" in params)
      && (r.Ok? ==> r.value == WeiGeometry(WeiPore(params, tanOfDeg, cosOfDeg).value, h, params["subs"], reconstruct))
      && (WeiPore(params, tanOfDeg, cosOfDeg).Err? ==> r == Err(WeiPore(params, tanOfDeg, cosOfDeg).error))
  {
    match kind
    case PughKind =>
      (match PughBuild(params, h)
       case Err(e) => Err(e)
       case Ok(g) => Ok(PughGeometry(g)))
    case AlphaHemKind =>
      if "subs" in params then Ok(AlphaHemGeometry(params, h, params["subs"], reconstruct))
      else Err(AttributeError("subs"))
    case WeiKind =>
      match WeiPore(params, tanOfDeg, cosOfDeg)
      case Err(e) => Err(e)
      case Ok(w) =>
        if "subs" in params then Ok(WeiGeometry(w, h, params["subs"], reconstruct))
        else Err(AttributeError("subs"))
  }

  /** `self.pore()`; PughPore has no `pore` method. */
  function PoreOf(kind: PoreKind, params: Dict, tanOfDeg: real -> real, cosOfDeg: real -> NonZeroCos): (r: Result<PoreSetup>)
    ensures kind == PughKind ==> r == Err(AttributeError("pore"))
    ensures kind == AlphaHemKind ==> r == Ok(AlphaHemPoreOf(params))
    ensures kind == WeiKind ==>
      (r.Ok? <==> WeiPore(params, tanOfDeg, cosOfDeg).Ok?)
      && (r.Ok? ==> r == Ok(WeiPoreOf(WeiPore(params, tanOfDeg, cosOfDeg).value)))
  {
    match kind
    case PughKind => Err(AttributeError("pore"))
    case AlphaHemKind => Ok(AlphaHemPoreOf(params))
    case WeiKind =>
      match WeiPore(params, tanOfDeg, cosOfDeg)
      case Err(e) => Err(e)
      case Ok(w) => Ok(WeiPoreOf(w))
  }

  /** An instance of one of the registered pore classes. */
  class BasePore {
    const kind: PoreKind
    /** The `pughpore` module's parameters, from which the PughPore defaults derive. */
    const pughParams: Dict
    var params: Dict
    var h: Value
    var reconstruct: Value

    /** A fresh instance, before `get_geo` or `get_pore` sets its fields. */
    constructor (kind: PoreKind, pughParams: Dict)
      ensures this.kind == kind && this.pughParams == pughParams
      ensures params == map[] && h == Nothing && reconstruct == Nothing
    {
      this.kind := kind;
      this.pughParams := pughParams;
      params := map[];
      h := Nothing;
      reconstruct := Nothing;
    }

    /** `get_geo(h=1., reconstruct=False, **params)`: stores the merged parameters,
        `h` and `reconstruct`, then builds. `PughPore.build` updates the instance's
        own parameter dict (`params = self.params` is an alias), so a Pugh pore keeps
        the derived layer diameters once they are computed, even if the build fails
        later on. */
    method GetGeo(call: Dict, tanOfDeg: real -> real, cosOfDeg: real -> NonZeroCos) returns (r: Result<Geo>)
      modifies this
      ensures var merged := Merged(Default(kind, pughParams), RestOf(call));
        params == (if kind == PughKind && PughParams(merged).Ok? then PughParams(merged).value else merged)
      ensures h == KeywordOr(call, "h", Real(1.0))
      ensures reconstruct == KeywordOr(call, "reconstruct", Flag(false))
      ensures r == Build(kind, Merged(Default(kind, pughParams), RestOf(call)), h, reconstruct, tanOfDeg, cosOfDeg)
    {
      params := Merged(Default(kind, pughParams), RestOf(call));
      h := KeywordOr(call, "h", Real(1.0));
      reconstruct := KeywordOr(call, "reconstruct", Flag(false));
      r := Build(kind, params, h, reconstruct, tanOfDeg, cosOfDeg);
      if kind == PughKind {
        var updated := PughParams(params);
        if updated.Ok? {
          params := updated.value;
        }
      }
    }

    /** `get_pore(**params)`: stores the merged parameters and sets up the pore;
        `h` and `reconstruct` stay as they were. */
    method GetPore(call: Dict, tanOfDeg: real -> real, cosOfDeg: real -> NonZeroCos) returns (r: Result<PoreSetup>)
      modifies this
      ensures params == Merged(Default(kind, pughParams), call)
      ensures h == old(h) && reconstruct == old(reconstruct)
      ensures r == PoreOf(kind, params, tanOfDeg, cosOfDeg)
    {
      params := Merged(Default(kind, pughParams), call);
      r := PoreOf(kind, params, tanOfDeg, cosOfDeg);
    }
  }

  /** The call's keywords with `geoname` recorded. */
  function WithName(geoname: Option<string>, params: Dict): (d: Dict)
    ensures d.Keys == params.Keys + {"geoname"}
    ensures d["geoname"] == NameValue(geoname)
    ensures forall k :: k in params && k != "geoname" ==> d[k] == params[k]
  {
    params["geoname" := NameValue(geoname)]
  }

  /** `get_geo(geoname, **params)`: an unknown name is a KeyError; otherwise a new
      instance of the named class builds with `geoname` among its parameters. */
  method GetGeoByName(geoname: Option<string>, params: Dict, pughParams: Dict,
                      tanOfDeg: real -> real, cosOfDeg: real -> NonZeroCos) returns (r: Result<Geo>)
    ensures LookupGeometry(geoname).Err? ==> r == Err(LookupGeometry(geoname).error)
    ensures LookupGeometry(geoname).Ok? ==>
      var kind := LookupGeometry(geoname).value;
      var call := WithName(geoname, params);
      r == Build(kind, Merged(Default(kind, pughParams), RestOf(call)),
                 KeywordOr(call, "h", Real(1.0)), KeywordOr(call, "reconstruct", Flag(false)),
                 tanOfDeg, cosOfDeg)
  {
    var kind := LookupGeometry(geoname);
    if kind.Err? {
      return Err(kind.error);
    }
    var pore := new BasePore(kind.value, pughParams);
    r := pore.GetGeo(WithName(geoname, params), tanOfDeg, cosOfDeg);
  }

  /** `get_pore(geoname, **params)`. */
  method GetPoreByName(geoname: Option<string>, params: Dict, pughParams: Dict,
                       tanOfDeg: real -> real, cosOfDeg: real -> NonZeroCos) returns (r: Result<PoreSetup>)
    ensures LookupGeometry(geoname).Err? ==> r == Err(LookupGeometry(geoname).error)
    ensures LookupGeometry(geoname).Ok? ==>
      var kind := LookupGeometry(geoname).value;
      r == PoreOf(kind, Merged(Default(kind, pughParams), WithName(geoname, params)), tanOfDeg, cosOfDeg)
  {
    var kind := LookupGeometry(geoname);
    if kind.Err? {
      return Err(kind.error);
    }
    var pore := new BasePore(kind.value, pughParams);
    r := pore.GetPore(WithName(geoname, params), tanOfDeg, cosOfDeg);
  }

  /** The merged parameters record the name the geometry was looked up by, since
      `geoname` is an ordinary keyword overriding the defaults. */
  lemma GeoNameRecorded(geoname: Option<string>, params: Dict, pughParams: Dict)
    requires LookupGeometry(geoname).Ok?
    ensures var kind := LookupGeometry(geoname).value;
      var m := Merged(Default(kind, pughParams), RestOf(WithName(geoname, params)));
      m["geoname"] == Text(geoname.value)
      && forall k :: k in params && k !in {"geoname", "h", "reconstruct"} ==> m[k] == params[k]
  {
  }
}
