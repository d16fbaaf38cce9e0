/** Receptor configuration of scripts/wei/run_wei.py: the keyword arguments of
    the binding zone, where the receptor ball sits in the pore, the fake dwell-time
    data rebuilt from the published histogram, and which binding events are kept
    when dwell times are drawn. */
module WeiReceptor {
  import opened PyValues

  // ---------------------------------------------------------------------------
  // Constants of the script (run_wei.py:49-53)
  // ---------------------------------------------------------------------------

  /** The receptor radius [nm]. */
  const RRec: real := 0.5

  /** `params.rMolecule` as `user_params` sets it by default when the script starts;
      a value given on the command line instead is not part of this model. */
  const ScriptRMolecule: real := 1.25

  /** The default width of the bond energy barrier [nm]. */
  const DefaultDx: real := 1.0

  /** The distance of the receptor centre from the wall. It is computed once, from
      the molecule radius of the script's own parameters. */
  function DistRec(rMolecule: real): (d: real)
    ensures d + rMolecule + RRec == 4.0
  {
    4.0 - rMolecule - RRec
  }

  // ---------------------------------------------------------------------------
  // `receptor_params` (run_wei.py:55-71)
  // ---------------------------------------------------------------------------

  /** The keyword arguments of the binding zone: everything is fixed except the
      binding time `t` and rate `ka`, copied from the parameters, and `dx`, taken
      from the parameters when present. `ra` is the association-zone radius computed
      from `rMolecule`, the molecule radius of the script. A missing `tbind` raises
      KeyError before a missing `ka` does. */
  function ReceptorParams(rMolecule: real, params: Dict): (r: Result<Dict>)
    ensures "tbind" !in params ==> r == Err(KeyError("tbind"))
    ensures "tbind" in params && "ka" !in params ==> r == Err(KeyError("ka"))
    ensures r.Ok? <==> "tbind" in params && "ka" in params
    ensures r.Ok? ==>
      && r.value.Keys == {"exclusion", "walldist", "binding", "t", "ka", "ra",
                          "bind_type", "collect_stats_mode", "use_force", "dx"}
      && r.value["t"] == params["tbind"]
      && r.value["ka"] == params["ka"]
      && r.value["ra"] == Real(DistRec(rMolecule))
      && r.value["dx"] == (if "dx" in params then params["dx"] else Real(DefaultDx))
      && r.value["exclusion"] == Flag(false) && r.value["walldist"] == Real(1.0)
      && r.value["binding"] == Flag(true) && r.value["bind_type"] == Text("zone")
      && r.value["collect_stats_mode"] == Flag(true) && r.value["use_force"] == Flag(true)
  {
    var dx0 := if "dx" in params then params["dx"] else Real(DefaultDx);
    if "tbind" !in params then Err(KeyError("tbind"))
    else if "ka" !in params then Err(KeyError("ka"))
    else
      Ok(map[
        "exclusion" := Flag(false),
        "walldist" := Real(1.0),
        "binding" := Flag(true),
        "t" := params["tbind"],
        "ka" := params["ka"],
        "ra" := Real(DistRec(rMolecule)),
        "bind_type" := Text("zone"),
        "collect_stats_mode" := Flag(true),
        "use_force" := Flag(true),
        "dx" := dx0])
  }

  /** The binding zone reads nothing of the parameters but `tbind`, `ka` and `dx`:
      in particular not the molecule radius of the current parameter set. */
  lemma ReceptorParamsReadsOnly(rMolecule: real, p1: Dict, p2: Dict)
    requires forall k :: k in {"tbind", "ka", "dx"} ==> (k in p1 <==> k in p2)
    requires forall k :: k in {"tbind", "ka", "dx"} && k in p1 ==> p1[k] == p2[k]
    ensures ReceptorParams(rMolecule, p1) == ReceptorParams(rMolecule, p2)
  {
    assert "tbind" in {"tbind", "ka", "dx"} && "ka" in {"tbind", "ka", "dx"};
    assert "dx" in {"tbind", "ka", "dx"};
  }

  // ---------------------------------------------------------------------------
  // Placing the receptor (`setup_rw`, run_wei.py:103-113)
  // ---------------------------------------------------------------------------

  /** `zrec`: `zreceptor` is the receptor height relative to the usable pore length,
      0 at the bottom and 1 at the top. */
  function ReceptorHeight(zbot: real, ztop: real, zreceptor: real): real {
    zbot + RRec + (ztop - zbot - 2.0 * RRec) * zreceptor
  }

  /** The ends of the range sit one receptor radius inside the pore, so for
      `zreceptor` in [0, 1] the whole ball lies between `zbot` and `ztop`; higher
      `zreceptor` puts the receptor higher. */
  lemma ReceptorHeightRange(zbot: real, ztop: real, zr: real, zr2: real)
    requires ztop - zbot >= 2.0 * RRec
    ensures ReceptorHeight(zbot, ztop, 0.0) == zbot + RRec
    ensures ReceptorHeight(zbot, ztop, 1.0) == ztop - RRec
    ensures 0.0 <= zr <= 1.0 ==>
      zbot + RRec <= ReceptorHeight(zbot, ztop, zr) <= ztop - RRec
      && zbot <= ReceptorHeight(zbot, ztop, zr) - RRec
      && ReceptorHeight(zbot, ztop, zr) + RRec <= ztop
    ensures zr <= zr2 ==> ReceptorHeight(zbot, ztop, zr) <= ReceptorHeight(zbot, ztop, zr2)
  {
    var L := ztop - zbot - 2.0 * RRec;
    assert ReceptorHeight(zbot, ztop, zr) == zbot + RRec + L * zr;
    assert ReceptorHeight(zbot, ztop, zr2) == zbot + RRec + L * zr2;
    if 0.0 <= zr <= 1.0 {
      MulUnit(L, zr);
    }
    if zr <= zr2 {
      MulMonoReal(L, zr, zr2);
    }
  }

  lemma MulUnit(L: real, x: real)
    requires L >= 0.0 && 0.0 <= x <= 1.0
    ensures 0.0 <= L * x <= L
  {
  }

  lemma MulMonoReal(L: real, x: real, y: real)
    requires L >= 0.0 && x <= y
    ensures L * x <= L * y
  {
    assert L * y - L * x == L * (y - x);
  }

  /** A ball: centre (x, y, z) and radius. */
  datatype Ball = Ball(x: real, y: real, z: real, radius: real)

  /** A domain added to the walk: its shape and its keyword arguments. */
  datatype Domain = Domain(ball: Ball, kwargs: Dict)

  /** The part of the random walk `setup_rw` changes: its list of domains. The
      pore's bottom and top heights are set by the walk. */
  class Walk {
    const zbot: real
    const ztop: real
    var domains: seq<Domain>

    constructor (zbot: real, ztop: real, domains: seq<Domain>)
      ensures this.zbot == zbot && this.ztop == ztop && this.domains == domains
    {
      this.zbot := zbot;
      this.ztop := ztop;
      this.domains := domains;
    }

    /** `rw.add_domain(domain, **kwargs)`. */
    method AddDomain(d: Domain)
      modifies this
      ensures domains == old(domains) + [d]
    {
      domains := domains + [d];
    }
  }

  /** The receptor ball of `setup_rw`: its centre lies `distrec` inside the pore wall
      at height `zrec`, in the plane y = 0. */
  function ReceptorBall(zbot: real, ztop: real, zreceptor: real, radiusAt: real -> real,
                        rMolecule: real): (b: Ball)
    ensures b.z == ReceptorHeight(zbot, ztop, zreceptor)
    ensures b.x + DistRec(rMolecule) == radiusAt(b.z) && b.y == 0.0 && b.radius == RRec
  {
    var zrec := ReceptorHeight(zbot, ztop, zreceptor);
    Ball(radiusAt(zrec) - DistRec(rMolecule), 0.0, zrec, RRec)
  }

  /** `setup_rw` after the walk is created: places the receptor and adds it as a
      binding domain. `radiusAt` is the pore's `radius_at`. A missing or
      non-numeric `zreceptor`, or a failing `receptor_params`, leaves the walk as it was. */
  method SetupReceptor(rw: Walk, params: Dict, radiusAt: real -> real) returns (r: Result<Domain>)
    modifies rw
    ensures "zreceptor" !in params ==> r == Err(KeyError("zreceptor"))
    ensures "zreceptor" in params && NumberOf(params["zreceptor"]).None? ==>
              r == Err(TypeError("zreceptor is not a number"))
    ensures r.Err? ==> rw.domains == old(rw.domains)
    ensures "zreceptor" in params && NumberOf(params["zreceptor"]).Some? ==>
      match ReceptorParams(ScriptRMolecule, params)
      case Err(e) => r == Err(e)
      case Ok(kw) =>
        var ball := ReceptorBall(rw.zbot, rw.ztop, NumberOf(params["zreceptor"]).value,
                                 radiusAt, ScriptRMolecule);
        && r == Ok(Domain(ball, kw))
        && rw.domains == old(rw.domains) + [Domain(ball, kw)]
  {
    if "zreceptor" !in params {
      return Err(KeyError("zreceptor"));
    }
    var zr := NumberOf(params["zreceptor"]);
    if zr.None? {
      return Err(TypeError("zreceptor is not a number"));
    }
    var zrec := rw.zbot + RRec + (rw.ztop - rw.zbot - 2.0 * RRec) * zr.value;
    var xrec := radiusAt(zrec) - DistRec(ScriptRMolecule);
    var receptor := Ball(xrec, 0.0, zrec, RRec);
    var kw := ReceptorParams(ScriptRMolecule, params);
    if kw.Err? {
      return Err(kw.error);
    }
    var d := Domain(receptor, kw.value);
    rw.AddDomain(d);
    r := Ok(d);
  }

  // ---------------------------------------------------------------------------
  // Fake dwell-time data from the histogram (`tauoff_wei`, run_wei.py:155-195)
  // ---------------------------------------------------------------------------

  /** The bin edges: 0, then `0.25 + 0.55*i` for the `n` inner edges, then 20. */
  function TauoffEdges(n: nat): (e: seq<real>)
    ensures |e| == n + 2
    ensures e[0] == 0.0 && e[n + 1] == 20.0
    ensures forall i :: 1 <= i <= n ==> e[i] == 0.25 + 0.55 * (i - 1) as real
  {
    [0.0] + seq(n, i requires 0 <= i < n => 0.25 + 0.55 * i as real) + [20.0]
  }

  predicate StrictlyIncreasing(s: seq<real>) {
    forall i, j :: 0 <= i < j < |s| ==> s[i] < s[j]
  }

  /** The edges ascend exactly when the last inner edge stays below 20, that is
      for at most 36 inner edges. */
  lemma TauoffEdgesIncreasing(n: nat)
    ensures StrictlyIncreasing(TauoffEdges(n)) <==> n <= 36
  {
    var e := TauoffEdges(n);
    if n <= 36 {
      forall i, j | 0 <= i < j < |e|
        ensures e[i] < e[j]
      {
        if j <= n {
          assert e[j] == 0.25 + 0.55 * (j - 1) as real;
        }
        if 1 <= i <= n {
          assert e[i] == 0.25 + 0.55 * (i - 1) as real;
        }
      }
    } else {
      assert e[n] == 0.25 + 0.55 * (n - 1) as real;
      assert e[n] >= 20.0;
    }
  }

  /** `2**k`. */
  function Pow2(k: nat): (p: nat)
    ensures p >= 1
  {
    if k == 0 then 1 else 2 * Pow2(k - 1)
  }

  /** Integer division rounding toward zero, as `int(n / p)` does in Python. */
  function Quot(n: int, p: int): (q: int)
    requires p > 0
    ensures n >= 0 ==> 0 <= q * p <= n < (q + 1) * p
    ensures n < 0 ==> q <= 0
  {
    if n >= 0 then DivBounds(n, p); n / p else -((-n) / p)
  }

  lemma DivBounds(n: int, p: int)
    requires n >= 0 && p > 0
    ensures 0 <= (n / p) * p <= n < (n / p + 1) * p
  {
    assert n == (n / p) * p + n % p;
  }

  /** `int(counts[0]*frac)` after `k` halvings of `frac`: the product of a count and
      a power of two is exact in floating point, so this is the count divided by
      `2**k`, truncated. */
  function Share(c0: int, k: nat): int {
    Quot(c0, Pow2(k))
  }

  /** Python's `int()` on a float: truncation toward zero. */
  function Trunc(x: real): (n: int)
    ensures x >= 0.0 ==> n as real <= x < n as real + 1.0
    ensures x < 0.0 ==> n <= 0
  {
    if x >= 0.0 then x.Floor else -((-x).Floor)
  }

  /** `frac` after `k` halvings, `1/2**k`. */
  function Frac(k: nat): (f: real)
    ensures f > 0.0
  {
    if k == 0 then 1.0 else Frac(k - 1) / 2.0
  }

  /** `frac * 2**k == 1` after every pass. */
  lemma {:induction false} FracPow2(k: nat, f: real, p: nat)
    requires f == Frac(k) && p == Pow2(k)
    ensures f * p as real == 1.0
  {
    if k > 0 {
      var f0, p0 := Frac(k - 1), Pow2(k - 1);
      FracPow2(k - 1, f0, p0);
      HalfTimesDouble(f0, p0 as real);
      assert f == f0 / 2.0 && p as real == 2.0 * p0 as real;
    }
  }

  lemma HalfTimesDouble(f: real, p: real)
    ensures (f / 2.0) * (2.0 * p) == f * p
  {
  }

  /** `bins[1]*frac` after `k` halvings: `b1 / 2**k`. */
  function Scaled(b1: real, k: nat): real {
    if k == 0 then b1 else Scaled(b1, k - 1) / 2.0
  }

  /** The interval bounds the loop computes from `frac` are the scaled edge and its
      double. */
  lemma {:induction false} ScaledBounds(b1: real, k: nat, f: real)
    requires f == Frac(k)
    ensures b1 * f == Scaled(b1, k) && b1 * 2.0 * f == 2.0 * Scaled(b1, k)
  {
    if k > 0 {
      var f0 := Frac(k - 1);
      ScaledBounds(b1, k - 1, f0);
      HalfScale(b1, f0, f);
    }
  }

  lemma HalfScale(x: real, f0: real, f: real)
    requires f == f0 / 2.0
    ensures x * f == (x * f0) / 2.0 && x * 2.0 * f == 2.0 * (x * f)
  {
  }

  /** The loop's test `int(counts[0]*frac) > 1` reads the share. */
  lemma TruncShare(c0: int, k: nat, f: real)
    requires f == Frac(k)
    ensures Trunc(c0 as real * f) == Share(c0, k)
  {
    var p := Pow2(k);
    FracPow2(k, f, p);
    TruncScaled(c0, p, f);
  }

  /** Scaling a count by `f == 1/p` and truncating is truncated division by `p`. */
  lemma TruncScaled(n: int, p: int, f: real)
    requires p > 0 && f * p as real == 1.0
    ensures Trunc(n as real * f) == Quot(n, p)
  {
    if n >= 0 {
      FloorScaled(n, p, f);
    } else {
      FloorScaled(-n, p, f);
      assert -(n as real * f) == (-n) as real * f;
    }
  }

  lemma FloorScaled(n: int, p: int, f: real)
    requires n >= 0 && p > 0 && f * p as real == 1.0
    ensures (n as real * f).Floor == n / p
  {
    var q, r := n / p, n % p;
    assert n as real == q as real * p as real + r as real;
    assert f > 0.0;
    assert n as real * f == q as real * (p as real * f) + r as real * f;
    assert (p - r) as real * f > 0.0;
    assert p as real * f - r as real * f == (p - r) as real * f;
  }

  /** A group of `size` fake events drawn from the interval [lo, hi]. */
  datatype Batch = Batch(lo: real, hi: real, size: int)

  /** The groups the halving loop draws for the first bin, from its `k`-th pass on:
      while `int(counts[0]*frac) > 1`, `frac` is halved and `int(counts[0]*frac)`
      events are drawn from [bins[1]*frac, bins[1]*2*frac]. */
  function Halvings(c0: int, b1: real, k: nat): seq<Batch>
    decreases c0 - Pow2(k)
  {
    if Share(c0, k) > 1 then
      ShareAbove(c0, k);
      [Batch(Scaled(b1, k + 1), 2.0 * Scaled(b1, k + 1), Share(c0, k + 1))] + Halvings(c0, b1, k + 1)
    else []
  }

  /** A share above 1 means the count exceeds `2**k`, which bounds the loop. */
  lemma ShareAbove(c0: int, k: nat)
    requires Share(c0, k) > 1
    ensures c0 > Pow2(k) && Pow2(k + 1) > Pow2(k)
  {
    var p := Pow2(k);
    var q := c0 / p;
    assert c0 == q * p + c0 % p;
    MulAtLeast(q - 1, p);
  }

  lemma MulAtLeast(x: int, d: int)
    requires x >= 1 && d > 0
    ensures x * d >= d
  {
    assert x * d == (x - 1) * d + d;
  }

  /** The next share is half the current one, rounded down. */
  lemma ShareHalf(c0: int, k: nat)
    requires c0 >= 0
    ensures Share(c0, k + 1) == Share(c0, k) / 2
  {
    var p := Pow2(k);
    var q := c0 / p;
    var a, b := q / 2, q % 2;
    assert c0 == q * p + c0 % p;
    assert q * p == a * (2 * p) + b * p;
    assert 0 <= b * p <= p;
    DivUnique(c0, 2 * p, a, b * p + c0 % p);
  }

  lemma DivUnique(n: int, d: int, q: int, r: int)
    requires d > 0 && 0 <= r < d && n == q * d + r
    ensures n / d == q
  {
    var q2, r2 := n / d, n % d;
    assert n == q2 * d + r2;
    assert (q - q2) * d == r2 - r;
    if q - q2 >= 1 {
      MulAtLeast(q - q2, d);
    } else if q2 - q >= 1 {
      MulAtLeast(q2 - q, d);
    }
  }

  /** One pass of the halving loop, and its exit. */
  lemma HalvingsUnfold(c0: int, b1: real, k: nat)
    ensures Share(c0, k) > 1 ==>
      Halvings(c0, b1, k) ==
        [Batch(Scaled(b1, k + 1), 2.0 * Scaled(b1, k + 1), Share(c0, k + 1))] + Halvings(c0, b1, k + 1)
    ensures Share(c0, k) <= 1 ==> Halvings(c0, b1, k) == []
  {
  }

  /** The halving loop of `tauoff_wei`. */
  method FirstBinBatches(c0: int, b1: real) returns (batches: seq<Batch>)
    ensures batches == Halvings(c0, b1, 0)
  {
    var frac := 1.0;
    var k := 0;
    batches := [];
    TruncShare(c0, k, frac);
    while Trunc(c0 as real * frac) > 1
      invariant frac == Frac(k)
      invariant Trunc(c0 as real * frac) == Share(c0, k)
      invariant batches + Halvings(c0, b1, k) == Halvings(c0, b1, 0)
      decreases c0 - Pow2(k)
    {
      ShareAbove(c0, k);
      HalvingsUnfold(c0, b1, k);
      frac := frac / 2.0;
      k := k + 1;
      TruncShare(c0, k, frac);
      ScaledBounds(b1, k, frac);
      var a, b := b1 * frac, b1 * 2.0 * frac;
      var batch := Batch(a, b, Trunc(c0 as real * frac));
      assert batches + Halvings(c0, b1, k - 1) == batches + [batch] + Halvings(c0, b1, k);
      batches := batches + [batch];
    }
    HalvingsUnfold(c0, b1, k);
  }

  /** The number of events of a list of groups. */
  function TotalSize(bs: seq<Batch>): int {
    if |bs| == 0 then 0 else TotalSize(bs[..|bs| - 1]) + bs[|bs| - 1].size
  }

  lemma {:induction false} TotalSizeAppend(a: seq<Batch>, b: seq<Batch>)
    ensures TotalSize(a + b) == TotalSize(a) + TotalSize(b)
    decreases |b|
  {
    if |b| == 0 {
      assert a + b == a;
    } else {
      assert (a + b)[..|a + b| - 1] == a + b[..|b| - 1];
      TotalSizeAppend(a, b[..|b| - 1]);
    }
  }

  /** The halving groups: each holds at least one event; each interval is the lower
      half of the one before and the first one ends at `b1*frac`; and together they
      hold no more events than the current share of the first bin's count. */
  lemma {:induction false} HalvingsShape(c0: int, b1: real, k: nat)
    ensures var hs := Halvings(c0, b1, k);
      && (forall i :: 0 <= i < |hs| ==> hs[i].size >= 1)
      && (forall i :: 0 <= i < |hs| ==> hs[i].hi == 2.0 * hs[i].lo)
      && (|hs| > 0 ==> hs[0].hi == Scaled(b1, k))
      && (forall i :: 0 <= i < |hs| - 1 ==> hs[i + 1].hi == hs[i].lo)
      && TotalSize(hs) <= (if Share(c0, k) > 0 then Share(c0, k) else 0)
    decreases c0 - Pow2(k)
  {
    var hs := Halvings(c0, b1, k);
    if Share(c0, k) > 1 {
      ShareAbove(c0, k);
      HalvingsUnfold(c0, b1, k);
      HalvingsShape(c0, b1, k + 1);
      ShareHalf(c0, k);
      var rest := Halvings(c0, b1, k + 1);
      var h := Batch(Scaled(b1, k + 1), 2.0 * Scaled(b1, k + 1), Share(c0, k + 1));
      assert hs == [h] + rest;
      TotalSizeAppend([h], rest);
      assert TotalSize([h]) == h.size;
      assert forall i :: 1 <= i < |hs| ==> hs[i] == rest[i - 1];
    }
  }

  /** The groups for bins 1 .. n-1: `counts[i]` events from [bins[i], bins[i+1]]. */
  function BinBatches(counts: seq<int>, edges: seq<real>): (bs: seq<Batch>)
    requires |counts| > 0 && |edges| == |counts| + 1
    ensures |bs| == |counts| - 1
    ensures forall j :: 0 <= j < |bs| ==> bs[j] == Batch(edges[j + 1], edges[j + 2], counts[j + 1])
  {
    seq(|counts| - 1, j requires 0 <= j < |counts| - 1 => Batch(edges[j + 1], edges[j + 2], counts[j + 1]))
  }

  /** `tauoff_wei` after reading the histogram: the groups of fake events it draws,
      in order. The counts are the rounded histogram counts. With no row `counts[0]`
      raises IndexError; a negative count of a later bin makes `np.random.rand`
      raise ValueError. */
  method TauoffWei(counts: seq<int>) returns (r: Result<seq<Batch>>)
    ensures |counts| == 0 ==> r == Err(IndexError)
    ensures r.Err? && |counts| > 0 ==> r.error.ValueError?
    ensures |counts| > 0 ==>
      (r.Ok? <==> forall i :: 1 <= i < |counts| ==> counts[i] >= 0)
    ensures r.Ok? ==>
      var edges := TauoffEdges(|counts| - 1);
      r.value == Halvings(counts[0], edges[1], 0) + BinBatches(counts, edges)
  {
    if |counts| == 0 {
      return Err(IndexError);
    }
    var bins := TauoffEdges(|counts| - 1);
    var n := |counts|;
    var fake := FirstBinBatches(counts[0], bins[1]);
    for i := 1 to n
      invariant fake == Halvings(counts[0], bins[1], 0) + BinBatches(counts, bins)[..i - 1]
      invariant forall j :: 1 <= j < i ==> counts[j] >= 0
    {
      if counts[i] < 0 {
        return Err(ValueError("negative dimensions are not allowed"));
      }
      var a, b := bins[i], bins[i + 1];
      assert BinBatches(counts, bins)[..i] == BinBatches(counts, bins)[..i - 1] + [Batch(a, b, counts[i])];
      fake := fake + [Batch(a, b, counts[i])];
    }
    assert BinBatches(counts, bins)[..n - 1] == BinBatches(counts, bins);
    r := Ok(fake);
  }

  /** The fake data has no more events than the histogram counts, the first bin
      contributing at most its own count, and the groups tile (0, 20] without gaps:
      each ends where the next begins, from the smallest halving up to 20. */
  lemma TauoffShape(counts: seq<int>)
    requires |counts| > 0 && forall i :: 1 <= i < |counts| ==> counts[i] >= 0
    ensures var edges := TauoffEdges(|counts| - 1);
      var bs := BinBatches(counts, edges);
      var hs := Halvings(counts[0], edges[1], 0);
      && (forall j :: 0 <= j < |bs| - 1 ==> bs[j].hi == bs[j + 1].lo)
      && (|hs| > 0 ==> hs[0].hi == edges[1])
      && (|bs| > 0 ==> bs[0].lo == edges[1] && bs[|bs| - 1].hi == 20.0)
      && TotalSize(hs + bs) <= (if counts[0] > 0 then counts[0] else 0) + SumFrom(counts, 1)
  {
    var edges := TauoffEdges(|counts| - 1);
    var bs := BinBatches(counts, edges);
    var hs := Halvings(counts[0], edges[1], 0);
    HalvingsShape(counts[0], edges[1], 0);
    assert Pow2(0) == 1 && Scaled(edges[1], 0) == edges[1];
    TotalSizeAppend(hs, bs);
    BinTotal(counts, edges, |counts| - 1);
    assert bs[..|bs|] == bs;
  }

  /** `sum(counts[k:])`. */
  function SumFrom(counts: seq<int>, k: nat): int
    decreases |counts| - k
  {
    if k >= |counts| then 0 else counts[k] + SumFrom(counts, k + 1)
  }

  /** The groups of bins `1 .. m` hold `counts[1] + ... + counts[m]` events. */
  lemma {:induction false} BinTotal(counts: seq<int>, edges: seq<real>, m: nat)
    requires |counts| > 0 && |edges| == |counts| + 1 && m <= |counts| - 1
    ensures TotalSize(BinBatches(counts, edges)[..m]) == SumFrom(counts, 1) - SumFrom(counts, m + 1)
  {
    var bs := BinBatches(counts, edges);
    if m > 0 {
      BinTotal(counts, edges, m - 1);
      assert bs[..m][..m - 1] == bs[..m - 1];
      assert SumFrom(counts, m) == counts[m] + SumFrom(counts, m + 1);
    }
  }

  // ---------------------------------------------------------------------------
  // Binding events drawn in `draw_empirically` (run_wei.py:121-152)
  // ---------------------------------------------------------------------------

  /** `np.nonzero(x > 0)`: the positions of the positive entries, ascending. */
  function Positives(xs: seq<int>): (ix: seq<nat>)
    ensures forall j :: 0 <= j < |ix| ==> ix[j] < |xs| && xs[ix[j]] > 0
    ensures forall j, l :: 0 <= j < l < |ix| ==> ix[j] < ix[l]
    ensures forall i :: 0 <= i < |xs| && xs[i] > 0 ==> i in ix
  {
    if |xs| == 0 then []
    else
      var pre := Positives(xs[..|xs| - 1]);
      assert forall j :: 0 <= j < |pre| ==> xs[pre[j]] == xs[..|xs| - 1][pre[j]];
      pre + (if xs[|xs| - 1] > 0 then [|xs| - 1] else [])
  }

  /** Python's `s[:stop]`: a negative stop counts from the end. */
  function SliceTo<T>(s: seq<T>, stop: int): (r: seq<T>)
    ensures stop >= 0 ==> r == s[..if stop <= |s| then stop else |s|]
    ensures stop < 0 ==> r == s[..if -stop <= |s| then |s| + stop else 0]
  {
    if stop >= 0 then s[..if stop <= |s| then stop else |s|]
    else s[..if -stop <= |s| then |s| + stop else 0]
  }

  function Min(a: int, b: int): int {
    if a <= b then a else b
  }

  /** `ibind = ibind[:min(n0, nmax)]`: the first `nmax` binding events are kept, or
      all when there are fewer; a negative `nmax` drops that many from the end. */
  function KeptEvents(ibind: seq<nat>, nmax: int): seq<nat> {
    SliceTo(ibind, Min(|ibind|, nmax))
  }

  lemma KeptEventsCount(ibind: seq<nat>, nmax: int)
    ensures nmax >= 0 ==> KeptEvents(ibind, nmax) == ibind[..Min(|ibind|, nmax)]
    ensures nmax >= 0 ==> |KeptEvents(ibind, nmax)| == Min(|ibind|, nmax)
    ensures nmax < 0 ==> |KeptEvents(ibind, nmax)| == (if |ibind| + nmax >= 0 then |ibind| + nmax else 0)
    ensures forall j :: 0 <= j < |KeptEvents(ibind, nmax)| ==> KeptEvents(ibind, nmax)[j] == ibind[j]
  {
  }

  /** The Poisson draw of each walk (`np.random.poisson(avgbindings)`, an input here)
      counts only where the walk's mean number of bindings is positive. */
  function BindingCounts(avg: seq<real>, draws: seq<nat>): (b: seq<int>)
    requires |avg| == |draws|
    ensures |b| == |avg|
    ensures forall i :: 0 <= i < |b| ==> b[i] == (if avg[i] > 0.0 then draws[i] else 0)
  {
    seq(|avg|, i requires 0 <= i < |avg| => if avg[i] > 0.0 then draws[i] as int else 0)
  }

  /** As written: `bindings` is a boolean array, so storing the Poisson counts in it
      keeps only "at least one binding", and the gamma shapes `bindings[ibind]` are
      the booleans read as numbers. */
  function GammaShapesAsWritten(avg: seq<real>, draws: seq<nat>, nmax: int): (shapes: seq<real>)
    requires |avg| == |draws|
    ensures |shapes| == |KeptEvents(Positives(BindingCounts(avg, draws)), nmax)|
    ensures forall j :: 0 <= j < |shapes| ==> shapes[j] == 0.0 || shapes[j] == 1.0
  {
    var flags := seq(|avg|, i requires 0 <= i < |avg| => BindingCounts(avg, draws)[i] != 0);
    var ibind := KeptEvents(Positives(BindingCounts(avg, draws)), nmax);
    seq(|ibind|, j requires 0 <= j < |ibind| => if flags[ibind[j]] then 1.0 else 0.0)
  }

  /** As written, every kept event's dwell time is drawn with gamma shape 1, whatever
      its number of bindings. */
  lemma GammaShapesAsWrittenAreOne(avg: seq<real>, draws: seq<nat>, nmax: int)
    requires |avg| == |draws|
    ensures forall j :: 0 <= j < |GammaShapesAsWritten(avg, draws, nmax)| ==>
      GammaShapesAsWritten(avg, draws, nmax)[j] == 1.0
  {
    var ix := Positives(BindingCounts(avg, draws));
    KeptEventsCount(ix, nmax);
  }

  /** Corrected: the shape of a kept event is its number of bindings, so its bound
      time is the sum of that many exponential dwell times. */
  function GammaShapes(avg: seq<real>, draws: seq<nat>, nmax: int): (shapes: seq<int>)
    requires |avg| == |draws|
    ensures |shapes| == |KeptEvents(Positives(BindingCounts(avg, draws)), nmax)|
  {
    var b := BindingCounts(avg, draws);
    var ibind := KeptEvents(Positives(b), nmax);
    seq(|ibind|, j requires 0 <= j < |ibind| => b[ibind[j]])
  }

  /** The corrected shapes are the Poisson counts of the kept events, in event order;
      each is at least 1, and the events are the same as written. */
  lemma GammaShapesAreCounts(avg: seq<real>, draws: seq<nat>, nmax: int)
    requires |avg| == |draws|
    ensures var ibind := KeptEvents(Positives(BindingCounts(avg, draws)), nmax);
      && |GammaShapes(avg, draws, nmax)| == |ibind| == |GammaShapesAsWritten(avg, draws, nmax)|
      && forall j :: 0 <= j < |ibind| ==>
           ibind[j] < |avg| && avg[ibind[j]] > 0.0
           && GammaShapes(avg, draws, nmax)[j] == draws[ibind[j]] >= 1
  {
    var ix := Positives(BindingCounts(avg, draws));
    KeptEventsCount(ix, nmax);
  }

  /** One walk that binds `d >= 2` times: the code draws its dwell time with shape 1,
      the intended shape is `d`. */
  lemma GammaShapeCounterexample(a: real, d: nat)
    requires a > 0.0 && d >= 2
    ensures GammaShapesAsWritten([a], [d], 1) == [1.0]
    ensures GammaShapes([a], [d], 1) == [d]
  {
    OneKeptEvent(a, d);
    assert GammaShapesAsWritten([a], [d], 1) == [1.0] by {
      GammaShapesAsWrittenAreOne([a], [d], 1);
    }
    assert GammaShapes([a], [d], 1) == [d] by {
      GammaShapesAreCounts([a], [d], 1);
    }
  }

  /** With one walk that binds, that walk is the one kept event. */
  lemma OneKeptEvent(a: real, d: nat)
    requires a > 0.0 && d >= 1
    ensures KeptEvents(Positives(BindingCounts([a], [d])), 1) == [0]
  {
    var b := BindingCounts([a], [d]);
    assert b[0] == d;
    var ix := Positives(b);
    assert 0 in ix;
    KeptEventsCount(ix, 1);
  }

}
