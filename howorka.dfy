/** The parameter builders, the plotting polygon and the force tables of
    nanopores/models/Howorka.py, the model of the Howorka DNA-origami pore. The
    length unit `nm` of the two geometries, the elementary charge `qq` and the pore
    dimensions `r0`, `r1`, `l0`, `l1` live in modules that are not part of this
    model, so they are parameters here; so are the finite-element force
    evaluations, which become functions from a molecule position to the tuple of
    forces they return. */
module Howorka {
  import opened PyValues
  import opened Plane

  // ---------------------------------------------------------------------------
  // Geometry and physics parameters (Howorka.py:37-68)
  // ---------------------------------------------------------------------------

  /** `geo_params(z0, rMolecule, Rx, Ry)`: the molecule sits on the axis at height
      `z0`, and there is no molecule at all when `z0` is None. */
  function GeoParams(z0: Option<real>, rMolecule: real, Rx: real, Ry: real, nm: real): (d: Dict)
    ensures d.Keys == {"x0", "rMolecule", "moleculeblayer", "membraneblayer", "Rx", "Ry"}
    ensures d["x0"] == Nothing <==> z0.None?
    ensures z0.Some? ==> d["x0"] == List([Real(0.0), Real(0.0), Real(z0.value)])
    ensures d["rMolecule"] == Real(rMolecule * nm)
    ensures d["moleculeblayer"] == Flag(false) && d["membraneblayer"] == Flag(false)
    ensures d["Rx"] == Real(Rx) && d["Ry"] == Real(Ry)
  {
    var x0 := if z0.None? then Nothing else List([Real(0.0), Real(0.0), Real(z0.value)]);
    map["x0" := x0, "rMolecule" := Real(rMolecule * nm),
        "moleculeblayer" := Flag(false), "membraneblayer" := Flag(false),
        "Rx" := Real(Rx), "Ry" := Real(Ry)]
  }

  /** `items[::2]`: every other item, starting with the first. */
  function EveryOther(items: seq<Value>): (r: seq<Value>)
    ensures |r| == (|items| + 1) / 2
    ensures forall j :: 0 <= j < |r| ==> r[j] == items[2 * j]
  {
    if |items| <= 2 then items[..|items| / 2 + |items| % 2]
    else [items[0]] + EveryOther(items[2..])
  }

  /** The centre `x0[::2]` that `setup2D` gives the molecule circle in the (r, z)
      plane is the point (0, z0) on the axis. */
  lemma MoleculeCenter(z0: real, rMolecule: real, Rx: real, Ry: real, nm: real)
    ensures var x0 := GeoParams(Some(z0), rMolecule, Rx, Ry, nm)["x0"];
      x0.List? && EveryOther(x0.items) == [Real(0.0), Real(z0)]
  {
    var items := [Real(0.0), Real(0.0), Real(z0)];
    assert items[2..] == [Real(z0)];
    assert EveryOther(items) == [items[0]] + EveryOther([Real(z0)]);
  }

  /** `geo_params3D(x0, rMolecule, Rx, Ry, lcpore)`: the box half-widths `R`, `Rz`
      are `Rx`, `Ry`, and both refined regions get the mesh width `lcpore`. */
  function GeoParams3D(x0: Value, rMolecule: real, Rx: real, Ry: real, lcpore: real, nm3D: real): (d: Dict)
    ensures d.Keys == {"x0", "rMolecule", "lcCenter", "lcMolecule", "Rx", "Ry", "R", "Rz"}
    ensures d["x0"] == x0
    ensures d["rMolecule"] == Real(rMolecule * nm3D)
    ensures d["R"] == d["Rx"] == Real(Rx) && d["Rz"] == d["Ry"] == Real(Ry)
    ensures d["lcCenter"] == d["lcMolecule"] == Real(lcpore)
  {
    map["x0" := x0, "rMolecule" := Real(rMolecule * nm3D),
        "lcCenter" := Real(lcpore), "lcMolecule" := Real(lcpore),
        "Rx" := Real(Rx), "Ry" := Real(Ry), "R" := Real(Rx), "Rz" := Real(Ry)]
  }

  /** The 2D and the 3D builders agree on the position, the box and, when the two
      geometries use the same length unit, the molecule radius. */
  lemma GeoParamsAgree(z0: Option<real>, rMolecule: real, Rx: real, Ry: real, lcpore: real, nm: real, nm3D: real)
    ensures var d2 := GeoParams(z0, rMolecule, Rx, Ry, nm);
      var d3 := GeoParams3D(d2["x0"], rMolecule, Rx, Ry, lcpore, nm3D);
      && (forall k :: k in d2 && k in d3 && k != "rMolecule" ==> d2[k] == d3[k])
      && (nm == nm3D ==> d2["rMolecule"] == d3["rMolecule"])
  {
  }

  /** `phys_params(bV, Qmol, dnaqsdamp, rMolecule, bulkcon)`: the molecule charge is
      given in elementary charges and its radius in nanometres; the membrane is
      uncharged. (`-0.0` is the real 0.) */
  function PhysParams(bV: real, Qmol: real, dnaqsdamp: real, rMolecule: real, bulkcon: real, qq: real): (d: Dict)
    ensures d.Keys == {"Membraneqs", "Qmol", "bulkcon", "dnaqsdamp", "bV", "qTarget", "rTarget"}
    ensures d["Qmol"] == d["qTarget"] == Real(Qmol * qq)
    ensures d["rTarget"] == Real(rMolecule * 1.0e-9)
    ensures d["Membraneqs"] == Real(0.0)
    ensures d["bV"] == Real(bV) && d["bulkcon"] == Real(bulkcon) && d["dnaqsdamp"] == Real(dnaqsdamp)
  {
    map["Membraneqs" := Real(-0.0), "Qmol" := Real(Qmol * qq), "bulkcon" := Real(bulkcon),
        "dnaqsdamp" := Real(dnaqsdamp), "bV" := Real(bV), "qTarget" := Real(Qmol * qq),
        "rTarget" := Real(rMolecule * 1.0e-9)]
  }

  /** The physics sees the same molecule radius as the 2D geometry exactly when the
      geometry measures lengths in metres (or the molecule has radius 0). */
  lemma TargetRadiusMatchesGeometry(z0: Option<real>, rMolecule: real, Rx: real, Ry: real, nm: real,
                                    bV: real, Qmol: real, dnaqsdamp: real, bulkcon: real, qq: real)
    ensures GeoParams(z0, rMolecule, Rx, Ry, nm)["rMolecule"]
      == PhysParams(bV, Qmol, dnaqsdamp, rMolecule, bulkcon, qq)["rTarget"]
      <==> rMolecule == 0.0 || nm == 1.0e-9
  {
    ScaleEqual(rMolecule, nm, 1.0e-9);
  }

  lemma ScaleEqual(x: real, a: real, b: real)
    ensures x * a == x * b <==> x == 0.0 || a == b
  {
    if x != 0.0 && x * a == x * b {
      assert x * (a - b) == 0.0;
      ZeroProduct(x, a - b);
    }
  }

  lemma ZeroProduct(x: real, y: real)
    requires x != 0.0 && x * y == 0.0
    ensures y == 0.0
  {
    assert y == (x * y) / x;
  }

  // ---------------------------------------------------------------------------
  // The plotting polygon (Howorka.py:71-78)
  // ---------------------------------------------------------------------------

  /** The dimensions of the `H_geo` geometry that `polygon` reads: the pore radius
      `r0`, the barrel's outer radius `r1`, the pore length `l0` and the membrane
      thickness `l1`. */
  datatype HGeo = HGeo(r0: real, r1: real, l0: real, l1: real)

  /** The default outer radius `rMem = 20.` of the drawn membrane. */
  const DefaultRMem: real := 20.0

  /** `polygon(rMem)`: the outline of pore and membrane, from the top of the pore
      wall round the barrel and the membrane and back along the bottom. */
  function Polygon(g: HGeo, rMem: real): (p: seq<Point>)
    ensures |p| == 8
  {
    var l0, l1 := 0.5 * g.l0, 0.5 * g.l1;
    [Point(g.r0, l0), Point(g.r1, l0), Point(g.r1, l1), Point(rMem, l1),
     Point(rMem, -l1), Point(g.r1, -l1), Point(g.r1, -l0), Point(g.r0, -l0)]
  }

  /** The polygon is symmetric in z: vertex `7 - k` is vertex `k` mirrored, so the
      polygon equals its own mirror image traversed backwards. */
  lemma PolygonSymmetric(g: HGeo, rMem: real)
    ensures var p := Polygon(g, rMem);
      && (forall k :: 0 <= k < 8 ==> p[7 - k].r == p[k].r && p[7 - k].z == -p[k].z)
      && MirrorReversed(p) == p
  {
    var p := Polygon(g, rMem);
    assert forall k :: 0 <= k < 8 ==> p[7 - k] == Mirror(p[k]);
  }

  /** The radii of the polygon are exactly `r0`, `r1` and `rMem`, and its heights
      exactly `±l0/2` and `±l1/2`. */
  lemma PolygonCoordinates(g: HGeo, rMem: real)
    ensures var p := Polygon(g, rMem);
      && (set k | 0 <= k < 8 :: p[k].r) == {g.r0, g.r1, rMem}
      && (set k | 0 <= k < 8 :: p[k].z) == {g.l0 / 2.0, -g.l0 / 2.0, g.l1 / 2.0, -g.l1 / 2.0}
  {
    var p := Polygon(g, rMem);
    var rs, zs := set k | 0 <= k < 8 :: p[k].r, set k | 0 <= k < 8 :: p[k].z;
    assert p[0].r == g.r0 && p[1].r == g.r1 && p[3].r == rMem;
    assert p[0].z == g.l0 / 2.0 && p[7].z == -g.l0 / 2.0;
    assert p[2].z == g.l1 / 2.0 && p[4].z == -g.l1 / 2.0;
    assert g.r0 in rs && g.r1 in rs && rMem in rs;
    assert g.l0 / 2.0 in zs && -g.l0 / 2.0 in zs && g.l1 / 2.0 in zs && -g.l1 / 2.0 in zs;
  }

  // ---------------------------------------------------------------------------
  // Force tables (Howorka.py:114-132)
  // ---------------------------------------------------------------------------

  /** The length of the shortest row. */
  function MinLen(rows: seq<seq<real>>): (n: nat)
    requires |rows| > 0
    ensures forall i :: 0 <= i < |rows| ==> n <= |rows[i]|
    ensures exists i :: 0 <= i < |rows| && n == |rows[i]|
  {
    if |rows| == 1 then |rows[0]|
    else
      var m := MinLen(rows[..|rows| - 1]);
      if |rows[|rows| - 1]| < m then |rows[|rows| - 1]| else m
  }

  /** `zip(*rows)`: column `j` collects item `j` of every row, and there are as many
      columns as the shortest row has items (none when there are no rows). */
  function ZipStar(rows: seq<seq<real>>): (cols: seq<seq<real>>)
    ensures |rows| == 0 ==> cols == []
    ensures |rows| > 0 ==> |cols| == MinLen(rows)
  {
    if |rows| == 0 then [] else
    seq(MinLen(rows), j requires 0 <= j < MinLen(rows) =>
      seq(|rows|, i requires 0 <= i < |rows| => rows[i][j]))
  }

  /** Column `j` of `zip(*rows)` holds item `j` of each row, in row order. */
  lemma ZipStarEntries(rows: seq<seq<real>>, j: nat, i: nat)
    requires j < |ZipStar(rows)| && i < |rows|
    ensures |ZipStar(rows)[j]| == |rows| && j < |rows[i]| && ZipStar(rows)[j][i] == rows[i][j]
  {
  }

  /** Zipping a non-empty table whose rows all have the same non-zero length twice
      gives the table back. */
  lemma ZipStarTwice(rows: seq<seq<real>>, w: nat)
    requires |rows| > 0 && w > 0
    requires forall i :: 0 <= i < |rows| ==> |rows[i]| == w
    ensures ZipStar(ZipStar(rows)) == rows
  {
    var cols := ZipStar(rows);
    assert |cols| == w;
    forall j | 0 <= j < w
      ensures |cols[j]| == |rows|
    {
      ZipStarEntries(rows, j, 0);
    }
    var back := ZipStar(cols);
    assert |back| == |rows|;
    forall i | 0 <= i < |rows|
      ensures back[i] == rows[i]
    {
      forall j | 0 <= j < w
        ensures back[i][j] == rows[i][j]
      {
        ZipStarEntries(cols, i, j);
        ZipStarEntries(rows, j, i);
      }
    }
  }

  /** The three force components, one entry per queried position. */
  datatype Forces = Forces(F: seq<real>, Fel: seq<real>, Fdrag: seq<real>)

  /** `F, Fel, Fdrag = tuple(cols)`: unpacking needs exactly three columns. */
  function Unpack3(cols: seq<seq<real>>): (r: Result<Forces>)
    ensures r.Ok? <==> |cols| == 3
    ensures r.Err? ==> r.error.ValueError?
    ensures r.Ok? ==> r.value.F == cols[0] && r.value.Fel == cols[1] && r.value.Fdrag == cols[2]
  {
    if |cols| == 3 then Ok(Forces(cols[0], cols[1], cols[2]))
    else Err(ValueError("need exactly 3 values to unpack"))
  }

  /** The force tuples of the queried positions, in query order. */
  function Evaluations(z: seq<real>, forces: real -> seq<real>): (values: seq<seq<real>>)
    ensures |values| == |z|
    ensures forall i :: 0 <= i < |z| ==> values[i] == forces(z[i])
  {
    seq(|z|, i requires 0 <= i < |z| => forces(z[i]))
  }

  /** `F_implicit(z)`: the point-size model is solved once without a molecule,
      `zforces_implicit` is evaluated at each position by a comprehension, and
      `F, Fel, Fdrag = tuple(zip(*values))` unzips the results. */
  function FImplicit(z: seq<real>, forces: real -> seq<real>): Result<Forces> {
    Unpack3(ZipStar(Evaluations(z, forces)))
  }

  /** When every evaluation is a triple, the table has one entry per queried
      position in each component, in query order; with no positions the unpacking
      of an empty `zip` fails. */
  lemma FImplicitInQueryOrder(z: seq<real>, forces: real -> seq<real>)
    requires forall i :: 0 <= i < |z| ==> |forces(z[i])| == 3
    ensures FImplicit(z, forces).Ok? <==> |z| > 0
    ensures FImplicit(z, forces).Err? ==> FImplicit(z, forces).error.ValueError?
    ensures FImplicit(z, forces).Ok? ==>
      var t := FImplicit(z, forces).value;
      && |t.F| == |z| && |t.Fel| == |z| && |t.Fdrag| == |z|
      && forall i :: 0 <= i < |z| ==>
           t.F[i] == forces(z[i])[0] && t.Fel[i] == forces(z[i])[1] && t.Fdrag[i] == forces(z[i])[2]
  {
    var values := Evaluations(z, forces);
    if |z| > 0 {
      var cols := ZipStar(values);
      assert |cols| == 3 by {
        var k :| 0 <= k < |values| && MinLen(values) == |values[k]|;
      }
      forall i | 0 <= i < |z|
        ensures cols[0][i] == values[i][0] && cols[1][i] == values[i][1] && cols[2][i] == values[i][2]
      {
        ZipStarEntries(values, 0, i);
        ZipStarEntries(values, 1, i);
        ZipStarEntries(values, 2, i);
      }
      ZipStarEntries(values, 0, 0);
      ZipStarEntries(values, 1, 0);
      ZipStarEntries(values, 2, 0);
    }
  }

  /** `F_explicit(z)`: one finite-size evaluation per position, appended in order
      (`zforces` stands for setting up the geometry with the molecule at `z0` and
      solving), then unzipped into the three components exactly as `F_implicit`
      unzips its evaluations. */
  method FExplicit(z: seq<real>, zforces: real -> seq<real>) returns (r: Result<Forces>)
    ensures r == FImplicit(z, zforces)
  {
    var values: seq<seq<real>> := [];
    for k := 0 to |z|
      invariant values == Evaluations(z[..k], zforces)
    {
      values := values + [zforces(z[k])];
      assert z[..k + 1] == z[..k] + [z[k]];
    }
    assert z[..|z|] == z;
    r := Unpack3(ZipStar(values));
  }
}
