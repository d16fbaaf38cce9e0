/** Exit-time run bookkeeping of scripts/ahem/rw.py: the stopping predicates handed
    to the random walk, the rule that tops up missing walks in the result store,
    and the empirical exit-probability curve. */
module ExitTime {
  import opened PyValues

  // ---------------------------------------------------------------------------
  // Boolean masks (numpy `a[mask]`, `mask.sum()`)
  // ---------------------------------------------------------------------------

  /** The number of set entries of a mask. */
  function CountTrue(mask: seq<bool>): (n: nat)
    ensures n <= |mask|
  {
    if |mask| == 0 then 0
    else CountTrue(mask[..|mask| - 1]) + (if mask[|mask| - 1] then 1 else 0)
  }

  /** `xs[mask]`: the entries of `xs` at the set entries of `mask`, in order. */
  function Compress<T>(xs: seq<T>, mask: seq<bool>): (r: seq<T>)
    requires |xs| == |mask|
    ensures |r| == CountTrue(mask)
  {
    if |xs| == 0 then []
    else
      Compress(xs[..|xs| - 1], mask[..|mask| - 1])
        + (if mask[|mask| - 1] then [xs[|xs| - 1]] else [])
  }

  /** Counting a longer prefix never counts fewer. */
  lemma {:induction false} CountTruePrefix(mask: seq<bool>, j: nat)
    requires j <= |mask|
    ensures CountTrue(mask[..j]) <= CountTrue(mask)
    decreases |mask|
  {
    if j < |mask| {
      var pre := mask[..|mask| - 1];
      assert mask[..j] == pre[..j];
      CountTruePrefix(pre, j);
    } else {
      assert mask[..j] == mask;
    }
  }

  /** The set entry `j` of the mask lands at position "number of set entries before `j`". */
  lemma {:induction false} CompressRank<T>(xs: seq<T>, mask: seq<bool>, j: nat)
    requires |xs| == |mask| && j < |mask| && mask[j]
    ensures CountTrue(mask[..j]) < CountTrue(mask)
    ensures Compress(xs, mask)[CountTrue(mask[..j])] == xs[j]
    decreases |mask|
  {
    var n := |mask|;
    var pre, xpre := mask[..n - 1], xs[..n - 1];
    if j == n - 1 {
      assert mask[..j] == pre;
    } else {
      assert mask[..j] == pre[..j];
      CompressRank(xpre, pre, j);
      assert xpre[j] == xs[j];
    }
  }

  /** Every set entry is counted: the set positions of a mask are ranked one to one. */
  lemma {:induction false} CountTrueAll(mask: seq<bool>)
    ensures (forall j :: 0 <= j < |mask| ==> mask[j]) ==> CountTrue(mask) == |mask|
    ensures (forall j :: 0 <= j < |mask| ==> !mask[j]) ==> CountTrue(mask) == 0
  {
    if |mask| > 0 {
      var pre := mask[..|mask| - 1];
      CountTrueAll(pre);
    }
  }

  // ---------------------------------------------------------------------------
  // Stopping predicates of `setup_rw` (rw.py:63-77)
  // ---------------------------------------------------------------------------

  /** The stopping parameters, copied from the parameter set. */
  datatype Stopping = Stopping(zstop: real, tmax: real, rmax: real)

  /** The total (free plus bound) time after which a walk fails. */
  const MaxTotalTime: real := 5000000.0

  /** `success(self, r, z)`: a walk succeeds where it is in the channel at or below
      `zstop`. Whether a position lies in the channel is decided by the pore
      (`in_channel`) and is an input here. */
  function Success(s: Stopping, inChannel: seq<bool>, z: seq<real>): (m: seq<bool>)
    requires |inChannel| == |z|
    ensures |m| == |z|
    ensures forall i :: 0 <= i < |z| ==> (m[i] <==> inChannel[i] && z[i] <= s.zstop)
  {
    seq(|z|, i requires 0 <= i < |z| => inChannel[i] && z[i] <= s.zstop)
  }

  /** Lowering the stopping height never adds successes, and a successful
      position is never above it. */
  lemma SuccessMonotone(s: Stopping, zstop2: real, inChannel: seq<bool>, z: seq<real>, i: nat)
    requires |inChannel| == |z| && i < |z| && zstop2 <= s.zstop
    ensures Success(s.(zstop := zstop2), inChannel, z)[i] ==> Success(s, inChannel, z)[i]
    ensures Success(s, inChannel, z)[i] ==> inChannel[i] && z[i] <= s.zstop
  {
  }

  /** `fail(self, r, z)`. Once the clock `t` is past `Tmax` every walk fails;
      otherwise the `i`-th alive walk fails when its free plus bound time exceeds
      5e6 ns or it is farther than `Rmax` from the origin. The walk passes the
      positions of its alive walks, so `r` and `z` have one entry per alive walk. */
  function Fail(s: Stopping, t: real, times: seq<real>, bindTimes: seq<real>, alive: seq<bool>,
                r: seq<real>, z: seq<real>): (f: seq<bool>)
    requires |times| == |alive| && |bindTimes| == |alive|
    requires |r| == CountTrue(alive) && |z| == |r|
    ensures |f| == |r|
    ensures t > s.tmax ==> forall i :: 0 <= i < |f| ==> f[i]
  {
    if t > s.tmax then seq(|r|, i => true)
    else
      var free, bound := Compress(times, alive), Compress(bindTimes, alive);
      seq(|r|, i requires 0 <= i < |r| =>
        free[i] + bound[i] > MaxTotalTime || r[i] * r[i] + z[i] * z[i] > s.rmax * s.rmax)
  }

  /** The fail entry of the alive walk with index `j` of the whole ensemble: it sits
      at position "alive walks before `j`", and before `Tmax` it holds exactly when
      that walk has run too long or is too far out. */
  lemma FailOfWalk(s: Stopping, t: real, times: seq<real>, bindTimes: seq<real>, alive: seq<bool>,
                   r: seq<real>, z: seq<real>, j: nat)
    requires |times| == |alive| && |bindTimes| == |alive|
    requires |r| == CountTrue(alive) && |z| == |r|
    requires j < |alive| && alive[j]
    ensures var i := CountTrue(alive[..j]);
      && i < |r|
      && (Fail(s, t, times, bindTimes, alive, r, z)[i] <==>
            t > s.tmax
            || times[j] + bindTimes[j] > MaxTotalTime
            || r[i] * r[i] + z[i] * z[i] > s.rmax * s.rmax)
  {
    CompressRank(times, alive, j);
    CompressRank(bindTimes, alive, j);
  }

  // ---------------------------------------------------------------------------
  // Topping up stored walks (`get_results`, rw.py:97-113)
  // ---------------------------------------------------------------------------

  /** One finished walk as it is stored: its exit time and whether it succeeded. */
  datatype Walk = Walk(time: real, success: bool)

  /** Stored results are found by name and by the parameters other than the
      ensemble size `N`, so runs of different sizes add up. */
  datatype StoreKey = StoreKey(name: string, params: Dict)

  function KeyOf(name: string, params: Dict): (k: StoreKey)
    ensures "N" !in k.params
    ensures forall p :: p in params && p != "N" ==> p in k.params && k.params[p] == params[p]
  {
    StoreKey(name, params - {"N"})
  }

  /** The number of walks still to run: the requested `N` less the stored ones
      (none when nothing is stored), or nothing to launch. */
  function Deficit(requested: int, stored: nat, calculate: bool): (missing: Option<nat>)
    ensures missing.Some? <==> requested - stored > 0 && calculate
    ensures missing.Some? ==> stored + missing.value == requested
  {
    if requested - stored > 0 && calculate then Some(requested - stored) else None
  }

  /** After topping up, the store holds at least the requested number of walks,
      and asking again launches nothing. */
  lemma DeficitTopsUp(requested: int, stored: nat, calculate: bool)
    requires calculate
    ensures var after := match Deficit(requested, stored, calculate)
                         case Some(n) => stored + n
                         case None => stored;
      && after >= requested
      && after >= stored
      && Deficit(requested, after, calculate).None?
  {
  }

  /** The results saved under each key, oldest first. */
  class ResultStore {
    var walks: map<StoreKey, seq<Walk>>

    constructor ()
      ensures walks == map[]
    {
      walks := map[];
    }

    /** `get_results(NAME, params, calculate)`. `runWalks` stands for setting up and
        running a random walk with the given parameters; its walks are appended to
        the stored ones. Without stored results and without a run, loading fails. */
    method GetResults(name: string, params: Dict, calculate: bool, runWalks: Dict -> seq<Walk>)
      returns (r: Result<seq<Walk>>)
      modifies this
      ensures "N" !in params ==> r == Err(KeyError("N")) && walks == old(walks)
      ensures "N" in params && !params["N"].Int? ==>
                r == Err(TypeError("N is not an integer")) && walks == old(walks)
      ensures "N" in params && params["N"].Int? ==>
        var key := KeyOf(name, params);
        var stored := if key in old(walks) then old(walks)[key] else [];
        match Deficit(params["N"].i, |stored|, calculate)
        case Some(n) =>
          && walks == old(walks)[key := stored + runWalks(params["N" := Int(n)])]
          && r == Ok(walks[key])
        case None =>
          && walks == old(walks)
          && r == (if key in walks then Ok(walks[key]) else Err(KeyError(name)))
    {
      if "N" !in params {
        return Err(KeyError("N"));
      }
      if !params["N"].Int? {
        return Err(TypeError("N is not an integer"));
      }
      var key := KeyOf(name, params);
      var stored: seq<Walk> := [];
      if key in walks {
        stored := walks[key];
      }
      var missing := params["N"].i - |stored|;
      if missing > 0 && calculate {
        var newParams := params["N" := Int(missing)];
        walks := walks[key := stored + runWalks(newParams)];
      }
      if key in walks {
        r := Ok(walks[key]);
      } else {
        r := Err(KeyError(name));
      }
    }
  }

  /** A run of the requested size tops the store up to at least `N` walks, and the
      run is asked for exactly the missing walks with every other parameter unchanged. */
  lemma TopUpReachesN(stored: seq<Walk>, params: Dict, runWalks: Dict -> seq<Walk>)
    requires "N" in params && params["N"].Int?
    requires Deficit(params["N"].i, |stored|, true).Some?
    requires var n := Deficit(params["N"].i, |stored|, true).value;
      |runWalks(params["N" := Int(n)])| == n
    ensures var n := Deficit(params["N"].i, |stored|, true).value;
      var newParams := params["N" := Int(n)];
      && |stored + runWalks(newParams)| == params["N"].i
      && newParams - {"N"} == params - {"N"}
  {
    var n := Deficit(params["N"].i, |stored|, true).value;
    var newParams := params["N" := Int(n)];
    assert newParams - {"N"} == params - {"N"};
  }

  // ---------------------------------------------------------------------------
  // The exit-probability curve (`plot_evolution`, rw.py:115-126)
  // ---------------------------------------------------------------------------

  /** The last time of the curve, 5e6 ns. */
  const EndTime: real := 5000000.0

  predicate Sorted(s: seq<real>) {
    forall i, j :: 0 <= i < j < |s| ==> s[i] <= s[j]
  }

  /** `x` inserted before the first larger entry. */
  function Insert(x: real, s: seq<real>): (r: seq<real>)
    ensures |r| == |s| + 1
    ensures multiset(r) == multiset(s) + multiset{x}
  {
    if |s| == 0 then [x]
    else if x <= s[0] then
      assert s == [s[0]] + s[1..];
      [x] + s
    else
      assert s == [s[0]] + s[1..];
      [s[0]] + Insert(x, s[1..])
  }

  /** Inserting into a sorted list keeps it sorted. */
  lemma {:induction false} InsertSorted(x: real, s: seq<real>)
    requires Sorted(s)
    ensures Sorted(Insert(x, s))
    decreases |s|
  {
    if |s| > 0 && x > s[0] {
      var tail := Insert(x, s[1..]);
      InsertSorted(x, s[1..]);
      forall y | y in tail
        ensures s[0] <= y
      {
        assert y in multiset(tail);
        if y != x {
          assert y in multiset(s[1..]);
        }
      }
      var r := [s[0]] + tail;
      assert Insert(x, s) == r;
      forall i, j | 0 <= i < j < |r|
        ensures r[i] <= r[j]
      {
        if i == 0 {
          assert r[j] == tail[j - 1];
          assert r[j] in tail;
        } else {
          assert r[i] == tail[i - 1] && r[j] == tail[j - 1];
        }
      }
    }
  }

  /** Python's `sorted`: the same entries, in ascending order (insertion sort). */
  function SortedCopy(s: seq<real>): (r: seq<real>)
    ensures |r| == |s|
    ensures multiset(r) == multiset(s)
  {
    if |s| == 0 then []
    else
      assert s == s[..|s| - 1] + [s[|s| - 1]];
      Insert(s[|s| - 1], SortedCopy(s[..|s| - 1]))
  }

  /** The sorted copy is sorted. */
  lemma {:induction false} SortedCopySorted(s: seq<real>)
    ensures Sorted(SortedCopy(s))
    decreases |s|
  {
    if |s| > 0 {
      SortedCopySorted(s[..|s| - 1]);
      InsertSorted(s[|s| - 1], SortedCopy(s[..|s| - 1]));
    }
  }

  /** The plotted curve: exit times and the exit probability reached there. */
  datatype Curve = Curve(t: seq<real>, p: seq<real>)

  /** The curve `plot_evolution` draws for these walks: `t` is the sorted list of
      success times followed by `endtime`; `p[i] = i/N` for the first `#successes`
      points, with its last value repeated at `endtime`. */
  predicate CurveOf(walks: seq<Walk>, c: Curve) {
    var k := CountTrue(SuccessFlags(walks));
    && k > 0
    && |c.p| == k + 1 == |c.t|
    && c.t == SortedCopy(Compress(Times(walks), SuccessFlags(walks))) + [EndTime]
    && (forall i :: 0 <= i < k ==> c.p[i] == i as real / |walks| as real)
    && c.p[k] == c.p[k - 1]
  }

  /** `plot_evolution`: builds the curve; with no success, `p[-1]` raises IndexError. */
  method EvolutionCurve(walks: seq<Walk>) returns (r: Result<Curve>)
    ensures r.Err? <==> CountTrue(SuccessFlags(walks)) == 0
    ensures r.Err? ==> r.error == IndexError
    ensures r.Ok? ==> |walks| > 0 && CurveOf(walks, r.value)
  {
    var success := SuccessFlags(walks);
    var k := CountTrue(success);
    var n := |walks| as real;
    var t := SortedCopy(Compress(Times(walks), success));
    var p := Fractions(k, |walks|);
    t := t + [EndTime];
    if |p| == 0 {
      return Err(IndexError);
    }
    p := p + [p[|p| - 1]];
    r := Ok(Curve(t, p));
  }

  /** `np.arange(k)/N`. */
  function Fractions(k: nat, n: nat): (p: seq<real>)
    requires k <= n
    ensures |p| == k && forall i :: 0 <= i < k ==> p[i] == i as real / n as real
  {
    seq(k, i requires 0 <= i < k => i as real / n as real)
  }

  /** `data.times`. */
  function Times(walks: seq<Walk>): (ts: seq<real>)
    ensures |ts| == |walks| && forall i :: 0 <= i < |walks| ==> ts[i] == walks[i].time
  {
    seq(|walks|, i requires 0 <= i < |walks| => walks[i].time)
  }

  /** `data.success`. */
  function SuccessFlags(walks: seq<Walk>): (s: seq<bool>)
    ensures |s| == |walks| && forall i :: 0 <= i < |walks| ==> s[i] == walks[i].success
  {
    seq(|walks|, i requires 0 <= i < |walks| => walks[i].success)
  }

  /** The times of the curve ascend when every exit is before `endtime`. */
  lemma CurveTimesSorted(walks: seq<Walk>, c: Curve)
    requires CurveOf(walks, c)
    requires forall w :: w in walks ==> w.time <= EndTime
    ensures Sorted(c.t)
  {
    var s := SortedCopy(Compress(Times(walks), SuccessFlags(walks)));
    SortedCopySorted(Compress(Times(walks), SuccessFlags(walks)));
    forall i | 0 <= i < |s|
      ensures s[i] <= EndTime
    {
      CompressedTimeBelow(walks, s[i]);
    }
    AppendLargest(s, EndTime);
  }

  /** The probabilities of the curve ascend and lie in [0, 1), so `p*(1-p)`, under
      the square root of `errp`, is never negative. */
  lemma CurveProbabilities(walks: seq<Walk>, c: Curve)
    requires CurveOf(walks, c)
    ensures Sorted(c.p)
    ensures forall i :: 0 <= i < |c.p| ==> 0.0 <= c.p[i] < 1.0 && c.p[i] * (1.0 - c.p[i]) >= 0.0
  {
    StepProbabilities(c.p, CountTrue(SuccessFlags(walks)), |walks|);
  }

  /** `i/n` for `i < k`, then the last value again. */
  lemma StepProbabilities(p: seq<real>, k: nat, n: nat)
    requires 0 < k <= n && |p| == k + 1
    requires forall i :: 0 <= i < k ==> p[i] == i as real / n as real
    requires p[k] == p[k - 1]
    ensures Sorted(p)
    ensures forall i :: 0 <= i < |p| ==> 0.0 <= p[i] < 1.0 && p[i] * (1.0 - p[i]) >= 0.0
  {
    forall i | 0 <= i < |p|
      ensures 0.0 <= p[i] < 1.0 && p[i] * (1.0 - p[i]) >= 0.0
    {
      var i' := if i == k then k - 1 else i;
      assert p[i] == i' as real / n as real;
      DivBelowOne(i', n);
      UnitVariance(p[i]);
    }
    forall i, j | 0 <= i < j < |p|
      ensures p[i] <= p[j]
    {
      var i' := if i == k then k - 1 else i;
      var j' := if j == k then k - 1 else j;
      assert p[i] == i' as real / n as real && p[j] == j' as real / n as real;
      DivMono(i', j', n);
    }
  }

  lemma UnitVariance(x: real)
    requires 0.0 <= x < 1.0
    ensures x * (1.0 - x) >= 0.0
  {
    var y := 1.0 - x;
    assert y > 0.0;
    if x > 0.0 {
      assert x * y > 0.0;
    }
  }

  /** Appending an upper bound keeps a list sorted. */
  lemma AppendLargest(s: seq<real>, x: real)
    requires Sorted(s) && forall i :: 0 <= i < |s| ==> s[i] <= x
    ensures Sorted(s + [x])
  {
  }

  /** A time in the sorted success list is the time of some walk. */
  lemma CompressedTimeBelow(walks: seq<Walk>, x: real)
    requires x in SortedCopy(Compress(Times(walks), SuccessFlags(walks)))
    requires forall w :: w in walks ==> w.time <= EndTime
    ensures x <= EndTime
  {
    var c := Compress(Times(walks), SuccessFlags(walks));
    assert x in multiset(SortedCopy(c));
    assert x in multiset(c);
    CompressMember(Times(walks), SuccessFlags(walks), x);
    var j :| 0 <= j < |walks| && Times(walks)[j] == x;
    assert walks[j] in walks;
  }

  /** Every entry of a compressed list is an entry of the original. */
  lemma {:induction false} CompressMember<T>(xs: seq<T>, mask: seq<bool>, x: T)
    requires |xs| == |mask| && x in Compress(xs, mask)
    ensures exists j :: 0 <= j < |xs| && xs[j] == x
    decreases |xs|
  {
    var n := |xs|;
    if x in Compress(xs[..n - 1], mask[..n - 1]) {
      CompressMember(xs[..n - 1], mask[..n - 1], x);
      var j :| 0 <= j < n - 1 && xs[..n - 1][j] == x;
      assert xs[j] == x;
    } else {
      assert xs[n - 1] == x;
    }
  }

  lemma DivBelowOne(i: nat, n: nat)
    requires i < n
    ensures 0.0 <= i as real / n as real < 1.0
  {
  }

  lemma DivMono(i: nat, j: nat, n: nat)
    requires i <= j && n > 0
    ensures i as real / n as real <= j as real / n as real
  {
  }

  // ---------------------------------------------------------------------------
  // End probability (`end_probability`, rw.py:137-139)
  // ---------------------------------------------------------------------------

  /** `data.success.mean()`: the fraction of walks that succeeded. numpy gives NaN
      for an empty run, modelled as None. */
  function EndProbability(walks: seq<Walk>): (r: Option<real>)
    ensures r.None? <==> |walks| == 0
    ensures r.Some? ==> 0.0 <= r.value <= 1.0
    ensures r.Some? ==> r.value * |walks| as real == CountTrue(SuccessFlags(walks)) as real
  {
    if |walks| == 0 then None
    else
      var k := CountTrue(SuccessFlags(walks));
      FractionBounds(k, |walks|);
      Some(k as real / |walks| as real)
  }

  lemma FractionBounds(k: nat, n: nat)
    requires k <= n && n > 0
    ensures 0.0 <= k as real / n as real <= 1.0
    ensures (k as real / n as real) * n as real == k as real
  {
  }

  /** The curve stops one step short of the end probability: its last point is
      `(#successes - 1)/N`, the end probability `#successes/N`. */
  lemma CurveEndsBelowEndProbability(walks: seq<Walk>, c: Curve)
    requires CurveOf(walks, c)
    ensures EndProbability(walks).Some?
    ensures EndProbability(walks).value == c.p[|c.p| - 1] + 1.0 / |walks| as real
  {
    var k := CountTrue(SuccessFlags(walks));
    var n := |walks| as real;
    assert c.p[|c.p| - 1] == (k - 1) as real / n;
    SumOfFractions(k, |walks|);
  }

  lemma SumOfFractions(k: nat, n: nat)
    requires k > 0 && n > 0
    ensures k as real / n as real == (k - 1) as real / n as real + 1.0 / n as real
  {
  }
}
