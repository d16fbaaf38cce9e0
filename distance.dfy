/** The exit statistics and the distance-to-pore predicate of
    np-scripts/random_walk/plot2.py: the cumulative exit counts, the point-to-segment
    distance `normal`, the distance from a point to the closed alpha-hemolysin
    outline, and the closed outline arrays that are drawn. Distances are modelled by
    their squares, so that no square root is needed: the square root is increasing,
    so every comparison and every minimum of the script is the same on squares. */
module SurfaceDistance {
  import opened PyValues
  import opened Plane

  // ---------------------------------------------------------------------------
  // The outline of the pore (plot2.py:12-107)
  // ---------------------------------------------------------------------------

  /** Corner `i` of `X_aHem` as `(x, z)` (its `y` column is 0 throughout). */
  function AHemCorner(i: nat): Point
    requires i < 96
  {
    if i == 0 then Point(2.16, 0.0)
    else if i == 1 then Point(2.77, -0.19)
    else if i == 2 then Point(3.24, -0.1)
    else if i == 3 then Point(3.59, -0.1)
    else if i == 4 then Point(3.83, -0.35)
    else if i == 5 then Point(3.84, -0.8)
    else if i == 6 then Point(3.67, -1.34)
    else if i == 7 then Point(3.73, -1.96)
    else if i == 8 then Point(3.93, -2.31)
    else if i == 9 then Point(4.23, -2.67)
    else if i == 10 then Point(4.44, -2.81)
    else if i == 11 then Point(4.33, -3.25)
    else if i == 12 then Point(4.01, -3.5)
    else if i == 13 then Point(3.99, -3.67)
    else if i == 14 then Point(4.11, -3.94)
    else if i == 15 then Point(4.39, -4.12)
    else if i == 16 then Point(4.44, -4.52)
    else if i == 17 then Point(4.73, -4.86)
    else if i == 18 then Point(4.96, -5.41)
    else if i == 19 then Point(4.89, -5.87)
    else if i == 20 then Point(4.63, -6.44)
    else if i == 21 then Point(4.43, -6.96)
    else if i == 22 then Point(4.07, -7.32)
    else if i == 23 then Point(3.71, -7.51)
    else if i == 24 then Point(3.46, -7.36)
    else if i == 25 then Point(3.41, -7.1)
    else if i == 26 then Point(3.31, -6.9)
    else if i == 27 then Point(3.04, -6.87)
    else if i == 28 then Point(2.73, -6.73)
    else if i == 29 then Point(2.41, -6.6)
    else if i == 30 then Point(2.17, -6.41)
    else if i == 31 then Point(1.97, -6.23)
    else if i == 32 then Point(1.84, -6.03)
    else if i == 33 then Point(1.76, -5.87)
    else if i == 34 then Point(1.54, -5.87)
    else if i == 35 then Point(1.4, -5.96)
    else if i == 36 then Point(1.31, -6.16)
    else if i == 37 then Point(1.39, -6.57)
    else if i == 38 then Point(1.6, -6.81)
    else if i == 39 then Point(1.71, -7.09)
    else if i == 40 then Point(1.76, -7.32)
    else if i == 41 then Point(1.67, -7.65)
    else if i == 42 then Point(1.44, -7.81)
    else if i == 43 then Point(1.49, -8.06)
    else if i == 44 then Point(1.56, -8.36)
    else if i == 45 then Point(1.44, -8.61)
    else if i == 46 then Point(1.43, -8.79)
    else if i == 47 then Point(1.44, -9.1)
    else if i == 48 then Point(1.6, -9.48)
    else if i == 49 then Point(1.74, -9.84)
    else if i == 50 then Point(1.63, -10.0)
    else if i == 51 then Point(1.47, -10.19)
    else if i == 52 then Point(1.26, -10.21)
    else if i == 53 then Point(1.07, -10.05)
    else if i == 54 then Point(1.03, -9.76)
    else if i == 55 then Point(1.09, -9.44)
    else if i == 56 then Point(1.07, -9.02)
    else if i == 57 then Point(0.86, -8.79)
    else if i == 58 then Point(0.64, -8.68)
    else if i == 59 then Point(0.63, -8.36)
    else if i == 60 then Point(0.8, -8.22)
    else if i == 61 then Point(0.81, -7.93)
    else if i == 62 then Point(0.89, -7.71)
    else if i == 63 then Point(1.04, -7.51)
    else if i == 64 then Point(1.1, -7.25)
    else if i == 65 then Point(0.91, -7.02)
    else if i == 66 then Point(0.91, -6.76)
    else if i == 67 then Point(0.91, -6.48)
    else if i == 68 then Point(0.69, -6.25)
    else if i == 69 then Point(0.69, -6.0)
    else if i == 70 then Point(0.66, -5.68)
    else if i == 71 then Point(0.59, -5.36)
    else if i == 72 then Point(0.53, -5.12)
    else if i == 73 then Point(0.54, -4.92)
    else if i == 74 then Point(0.79, -4.84)
    else if i == 75 then Point(1.03, -4.89)
    else if i == 76 then Point(1.21, -4.7)
    else if i == 77 then Point(1.36, -4.42)
    else if i == 78 then Point(1.49, -4.16)
    else if i == 79 then Point(1.66, -3.92)
    else if i == 80 then Point(1.66, -3.7)
    else if i == 81 then Point(1.8, -3.41)
    else if i == 82 then Point(2.0, -3.22)
    else if i == 83 then Point(1.91, -2.93)
    else if i == 84 then Point(1.8, -2.71)
    else if i == 85 then Point(1.56, -2.55)
    else if i == 86 then Point(1.46, -2.38)
    else if i == 87 then Point(1.3, -2.19)
    else if i == 88 then Point(1.21, -1.93)
    else if i == 89 then Point(1.09, -1.64)
    else if i == 90 then Point(0.9, -1.45)
    else if i == 91 then Point(0.8, -1.28)
    else if i == 92 then Point(0.84, -1.0)
    else if i == 93 then Point(1.0, -0.8)
    else if i == 94 then Point(1.26, -0.64)
    else Point(1.7, -0.31)
  }

  /** The 96 corners of the alpha-hemolysin outline, in order. */
  const AHemOutline: seq<Point> := seq(96, i requires 0 <= i < 96 => AHemCorner(i))

  // ---------------------------------------------------------------------------
  // Cumulative exit counts (plot2.py:109-114)
  // ---------------------------------------------------------------------------

  /** `5e1/100.`: the width of a time bin. */
  const Timestep: real := 0.5

  /** The number of time bins. */
  const TimeBins: nat := 100

  /** `np.where(time < t)[0].shape[0]`: how many exit times lie below `t`. */
  function CountBelow(times: seq<real>, t: real): (n: nat)
    ensures n <= |times|
  {
    if |times| == 0 then 0
    else CountBelow(times[..|times| - 1], t) + (if times[|times| - 1] < t then 1 else 0)
  }

  /** A later threshold counts every exit an earlier one counts. */
  lemma {:induction false} CountBelowMonotone(times: seq<real>, s: real, t: real)
    requires s <= t
    ensures CountBelow(times, s) <= CountBelow(times, t)
  {
    if |times| > 0 {
      CountBelowMonotone(times[..|times| - 1], s, t);
    }
  }

  /** Every exit lies below a threshold above all of them. */
  lemma {:induction false} CountBelowAll(times: seq<real>, t: real)
    requires forall i :: 0 <= i < |times| ==> times[i] < t
    ensures CountBelow(times, t) == |times|
  {
    if |times| > 0 {
      CountBelowAll(times[..|times| - 1], t);
    }
  }

  /** `np.sum(counter)`. */
  function Sum(xs: seq<real>): real {
    if |xs| == 0 then 0.0 else Sum(xs[..|xs| - 1]) + xs[|xs| - 1]
  }

  /** The raw count of bin `i`: the exits before the end of that bin. */
  function ExitCount(times: seq<real>, i: nat): nat {
    CountBelow(times, Timestep * (i + 1) as real)
  }

  /** The raw counts never decrease from bin to bin. */
  lemma ExitCountsMonotone(times: seq<real>, i: nat, j: nat)
    requires i <= j
    ensures ExitCount(times, i) <= ExitCount(times, j) <= |times|
  {
    CountBelowMonotone(times, Timestep * (i + 1) as real, Timestep * (j + 1) as real);
  }

  /** The `exitprop` loop: bin `i` receives the number of exits before its end. */
  method ExitCounts(times: seq<real>) returns (exitprop: array<real>)
    ensures fresh(exitprop) && exitprop.Length == TimeBins
    ensures forall i :: 0 <= i < TimeBins ==> exitprop[i] == ExitCount(times, i) as real
  {
    exitprop := new real[TimeBins];
    for index := 0 to TimeBins
      invariant forall i :: 0 <= i < index ==> exitprop[i] == ExitCount(times, i) as real
    {
      exitprop[index] := ExitCount(times, index) as real;
    }
  }

  /** `a *= s` on a numpy array. */
  method ScaleInPlace(a: array<real>, s: real)
    modifies a
    ensures forall i :: 0 <= i < a.Length ==> a[i] == old(a[i]) * s
  {
    for index := 0 to a.Length
      invariant forall i :: 0 <= i < index ==> a[i] == old(a[i]) * s
      invariant forall i :: index <= i < a.Length ==> a[i] == old(a[i])
    {
      a[index] := a[index] * s;
    }
  }

  /** The exit proportions: the counts scaled by `1./np.sum(counter)`. With a zero
      total numpy yields infinities instead of proportions; the model returns None
      then. */
  method ExitProportions(times: seq<real>, counter: seq<real>) returns (r: Option<array<real>>)
    ensures Sum(counter) == 0.0 <==> r.None?
    ensures r.Some? ==> fresh(r.value) && r.value.Length == TimeBins
    ensures r.Some? ==> forall i :: 0 <= i < TimeBins ==>
      r.value[i] == ExitCount(times, i) as real * (1.0 / Sum(counter))
  {
    var exitprop := ExitCounts(times);
    var total := Sum(counter);
    if total == 0.0 {
      return None;
    }
    ScaleInPlace(exitprop, 1.0 / total);
    r := Some(exitprop);
  }

  // ---------------------------------------------------------------------------
  // Distances (plot2.py:117-134)
  // ---------------------------------------------------------------------------

  /** `radius(x, y)**2`. */
  function RadiusSq(x: real, y: real): (d: real)
    ensures d >= 0.0
    ensures d == 0.0 <==> x == 0.0 && y == 0.0
  {
    SquareFacts(x, x * x);
    SquareFacts(y, y * y);
    x * x + y * y
  }

  /** A square `p == x * x` is non-negative, and zero exactly when `x` is. (The square
      is a parameter: stated on `x * x` itself these facts are lost to the solver's
      rewriting of squares compared with zero.) */
  lemma SquareFacts(x: real, p: real)
    requires p == x * x
    ensures p >= 0.0
    ensures x != 0.0 ==> p > 0.0
    ensures x == 0.0 ==> p == 0.0
  {
    if x > 0.0 {
      PositiveProduct(x, x, p);
    } else if x < 0.0 {
      PositiveProduct(-x, -x, p);
    }
  }

  lemma PositiveProduct(x: real, y: real, p: real)
    requires x > 0.0 && y > 0.0 && p == x * y
    ensures p > 0.0
  {
  }

  /** `det(a, b, c, d)`: the determinant of the 2x2 matrix with rows (a, b), (c, d). */
  function Det(a: real, b: real, c: real, d: real): real {
    a * d - b * c
  }

  /** The sentinel `100.` that `normal` and `distance_to_surface` return, squared. */
  const FarSq: real := 10000.0

  /** `normal(ax, ay, bx, by, px, py)**2`. The coordinates are numpy scalars, so equal
      end points make `c` the NaN of `0/0` rather than raise; every comparison with
      NaN is false, and `normal` falls through to the sentinel. */
  function NormalSq(a: Point, b: Point, p: Point): (r: real)
    ensures a == b ==> r == FarSq
    ensures r >= 0.0
  {
    var ab2 := RadiusSq(a.r - b.r, a.z - b.z);
    if ab2 == 0.0 then FarSq
    else NormalFromSquares(RadiusSq(a.r - p.r, a.z - p.z), RadiusSq(b.r - p.r, b.z - p.z), ab2)
  }

  /** The body of `normal` on the squared side lengths `AP2`, `BP2`, `AB2 > 0`. With
      `c = (AP2 - BP2 + AB2) / (2*AB)`, the test `0 < c < AB` is
      `0 < AP2 - BP2 + AB2 < 2*AB2` and `c**2` is `(AP2 - BP2 + AB2)**2 / (4*AB2)`. */
  function NormalFromSquares(ap2: real, bp2: real, ab2: real): (r: real)
    requires ab2 > 0.0
    ensures r >= 0.0
  {
    var num := ap2 - bp2 + ab2;
    if 0.0 < num && num < 2.0 * ab2 then
      var c2 := num * num / (4.0 * ab2);
      if ap2 <= c2 then 0.0 else ap2 - c2
    else FarSq
  }

  /** The dot product of (u1, u2) and (v1, v2). */
  function Dot(u1: real, u2: real, v1: real, v2: real): real {
    u1 * v1 + u2 * v2
  }

  /** The squared distance from (v1, v2) to the line through the origin and (u1, u2):
      the squared cross product over the squared length, 0 exactly on the line. */
  function LineDistanceSq(u1: real, u2: real, v1: real, v2: real): (d: real)
    requires RadiusSq(u1, u2) > 0.0
    ensures d >= 0.0
    ensures d == 0.0 <==> Det(u1, u2, v1, v2) == 0.0
  {
    var cross := Det(u1, u2, v1, v2);
    SquareFacts(cross, cross * cross);
    QuotientFacts(cross * cross, RadiusSq(u1, u2));
    cross * cross / RadiusSq(u1, u2)
  }

  lemma QuotientFacts(x: real, y: real)
    requires x >= 0.0 && y > 0.0
    ensures x / y >= 0.0
    ensures x / y == 0.0 <==> x == 0.0
  {
    assert (x / y) * y == x;
  }

  /** What `normal` computes: when the foot of the perpendicular from `p` falls
      strictly inside the segment, its squared distance to the line through `a` and
      `b`; otherwise the sentinel. */
  lemma NormalSqIsPerpendicular(a: Point, b: Point, p: Point)
    requires a != b
    ensures var ab2 := RadiusSq(a.r - b.r, a.z - b.z);
      var dot := Dot(b.r - a.r, b.z - a.z, p.r - a.r, p.z - a.z);
      && ab2 > 0.0
      && (0.0 < dot < ab2 ==> NormalSq(a, b, p) == LineDistanceSq(b.r - a.r, b.z - a.z, p.r - a.r, p.z - a.z))
      && (!(0.0 < dot < ab2) ==> NormalSq(a, b, p) == FarSq)
  {
    RadiusSqSwap(a.r, b.r, a.z, b.z);
    RadiusSqSwap(a.r, p.r, a.z, p.z);
    RadiusSqShift(b.r, p.r, a.r, b.z, p.z, a.z);
    NormalOnVectors(b.r - a.r, b.z - a.z, p.r - a.r, p.z - a.z,
      RadiusSq(a.r - p.r, a.z - p.z), RadiusSq(b.r - p.r, b.z - p.z), RadiusSq(a.r - b.r, a.z - b.z));
  }

  lemma RadiusSqSwap(x1: real, x2: real, y1: real, y2: real)
    ensures RadiusSq(x1 - x2, y1 - y2) == RadiusSq(x2 - x1, y2 - y1)
  {
    assert (x1 - x2) * (x1 - x2) == (x2 - x1) * (x2 - x1);
    assert (y1 - y2) * (y1 - y2) == (y2 - y1) * (y2 - y1);
  }

  lemma RadiusSqShift(x1: real, x2: real, x0: real, y1: real, y2: real, y0: real)
    ensures RadiusSq(x1 - x2, y1 - y2) == RadiusSq((x2 - x0) - (x1 - x0), (y2 - y0) - (y1 - y0))
  {
    var s, t := (x2 - x0) - (x1 - x0), (y2 - y0) - (y1 - y0);
    assert s == -(x1 - x2) && t == -(y1 - y2);
    assert (x1 - x2) * (x1 - x2) == s * s;
    assert (y1 - y2) * (y1 - y2) == t * t;
  }

  /** `normal` with A at the origin, B at (u1, u2) and P at (v1, v2), given the
      squared side lengths `ap2`, `bp2`, `ab2` of the triangle. */
  lemma NormalOnVectors(u1: real, u2: real, v1: real, v2: real, ap2: real, bp2: real, ab2: real)
    requires ab2 == RadiusSq(u1, u2) && ab2 > 0.0
    requires ap2 == RadiusSq(v1, v2) && bp2 == RadiusSq(v1 - u1, v2 - u2)
    ensures var dot := Dot(u1, u2, v1, v2);
      && (0.0 < dot < ab2 ==> NormalFromSquares(ap2, bp2, ab2) == LineDistanceSq(u1, u2, v1, v2))
      && (!(0.0 < dot < ab2) ==> NormalFromSquares(ap2, bp2, ab2) == FarSq)
  {
    if 0.0 < Dot(u1, u2, v1, v2) < ab2 {
      NormalInside(u1, u2, v1, v2);
    } else {
      NormalOutside(u1, u2, v1, v2);
    }
  }

  lemma NormalInside(u1: real, u2: real, v1: real, v2: real)
    requires RadiusSq(u1, u2) > 0.0 && 0.0 < Dot(u1, u2, v1, v2) < RadiusSq(u1, u2)
    ensures NormalFromSquares(RadiusSq(v1, v2), RadiusSq(v1 - u1, v2 - u2), RadiusSq(u1, u2))
      == LineDistanceSq(u1, u2, v1, v2)
  {
    VectorFacts(u1, u2, v1, v2);
    NormalFromDot(RadiusSq(v1, v2), RadiusSq(v1 - u1, v2 - u2), RadiusSq(u1, u2),
      Dot(u1, u2, v1, v2), Det(u1, u2, v1, v2) * Det(u1, u2, v1, v2));
  }

  lemma NormalOutside(u1: real, u2: real, v1: real, v2: real)
    requires RadiusSq(u1, u2) > 0.0 && !(0.0 < Dot(u1, u2, v1, v2) < RadiusSq(u1, u2))
    ensures NormalFromSquares(RadiusSq(v1, v2), RadiusSq(v1 - u1, v2 - u2), RadiusSq(u1, u2)) == FarSq
  {
    VectorFacts(u1, u2, v1, v2);
  }

  /** With B at (u1, u2) and P at (v1, v2): `AP2 - BP2 + AB2` is twice AB.AP, and
      Lagrange's identity `AB2 * AP2 - (AB.AP)^2 == (AB x AP)^2`. */
  lemma VectorFacts(u1: real, u2: real, v1: real, v2: real)
    ensures RadiusSq(v1, v2) - RadiusSq(v1 - u1, v2 - u2) + RadiusSq(u1, u2) == 2.0 * Dot(u1, u2, v1, v2)
    ensures RadiusSq(u1, u2) * RadiusSq(v1, v2) - Dot(u1, u2, v1, v2) * Dot(u1, u2, v1, v2)
      == Det(u1, u2, v1, v2) * Det(u1, u2, v1, v2)
  {
    NumeratorIsDot(u1, u2, v1, v2);
    Lagrange(u1, u2, v1, v2);
  }

  /** `normal`'s body in terms of the dot product `AB.AP` and the squared cross
      product `x2 = |AB|^2 |AP|^2 - (AB.AP)^2`. */
  lemma NormalFromDot(ap2: real, bp2: real, ab2: real, dot: real, x2: real)
    requires ab2 > 0.0 && ap2 - bp2 + ab2 == 2.0 * dot
    requires ab2 * ap2 - dot * dot == x2 && x2 >= 0.0
    ensures 0.0 < dot < ab2 ==> NormalFromSquares(ap2, bp2, ab2) == x2 / ab2
    ensures !(0.0 < dot < ab2) ==> NormalFromSquares(ap2, bp2, ab2) == FarSq
  {
    var num := ap2 - bp2 + ab2;
    if 0.0 < dot < ab2 {
      var c2 := num * num / (4.0 * ab2);
      PerpendicularPart(ap2, dot, ab2, x2, c2);
      QuotientFacts(x2, ab2);
    }
  }

  /** `AP2 - BP2 + AB2` is twice the dot product of AB and AP. */
  lemma NumeratorIsDot(u1: real, u2: real, v1: real, v2: real)
    ensures (v1 * v1 + v2 * v2) - ((v1 - u1) * (v1 - u1) + (v2 - u2) * (v2 - u2)) + (u1 * u1 + u2 * u2)
      == 2.0 * (u1 * v1 + u2 * v2)
  {
  }

  /** Lagrange's identity in the plane. */
  lemma Lagrange(u1: real, u2: real, v1: real, v2: real)
    ensures (u1 * u1 + u2 * u2) * (v1 * v1 + v2 * v2) - (u1 * v1 + u2 * v2) * (u1 * v1 + u2 * v2)
      == Det(u1, u2, v1, v2) * Det(u1, u2, v1, v2)
  {
  }

  lemma PerpendicularPart(ap2: real, dot: real, ab2: real, x2: real, c2: real)
    requires ab2 > 0.0 && ab2 * ap2 - dot * dot == x2
    requires c2 == (2.0 * dot) * (2.0 * dot) / (4.0 * ab2)
    ensures c2 == dot * dot / ab2 && ap2 - c2 == x2 / ab2
  {
    assert (2.0 * dot) * (2.0 * dot) == 4.0 * (dot * dot);
    assert ap2 == (ab2 * ap2) / ab2;
  }


  // ---------------------------------------------------------------------------
  // distance_to_surface (plot2.py:137-149)
  // ---------------------------------------------------------------------------

  /** Python's `index - 1` as an index: 0 wraps round to the last corner. */
  function Prev(i: nat, n: nat): nat
    requires i < n
  {
    if i == 0 then n - 1 else i - 1
  }

  /** `D[i]**2`: the squared distance from (rad, z) to corner `i`. */
  function VertexSq(outline: seq<Point>, i: nat, rad: real, z: real): real
    requires i < |outline|
  {
    RadiusSq(rad - outline[i].r, z - outline[i].z)
  }

  /** `E[i]**2`: segment `i` joins corner `i - 1` to corner `i`, and segment 0 the
      last corner to the first, so the outline is closed. */
  function SegmentSq(outline: seq<Point>, i: nat, rad: real, z: real): real
    requires i < |outline|
  {
    NormalSq(outline[Prev(i, |outline|)], outline[i], Point(rad, z))
  }

  /** No two neighbouring corners of the closed outline coincide, so no segment
      value is the NaN fall-through of `normal`. */
  predicate ProperOutline(outline: seq<Point>) {
    forall i :: 0 <= i < |outline| ==> outline[Prev(i, |outline|)] != outline[i]
  }

  /** `m` is at most every corner and every segment value. */
  predicate AtMostAll(m: real, outline: seq<Point>, rad: real, z: real) {
    forall i :: 0 <= i < |outline| ==> m <= VertexSq(outline, i, rad, z) && m <= SegmentSq(outline, i, rad, z)
  }

  /** `m` is one of the corner or segment values. */
  predicate OneOf(m: real, outline: seq<Point>, rad: real, z: real) {
    exists i :: 0 <= i < |outline| && (m == VertexSq(outline, i, rad, z) || m == SegmentSq(outline, i, rad, z))
  }

  /** `min` of a non-empty array, found by one pass. */
  method ArrayMin(a: array<real>) returns (m: real)
    requires a.Length > 0
    ensures forall i :: 0 <= i < a.Length ==> m <= a[i]
    ensures exists i :: 0 <= i < a.Length && m == a[i]
  {
    m := a[0];
    for i := 1 to a.Length
      invariant forall j :: 0 <= j < i ==> m <= a[j]
      invariant exists j :: 0 <= j < i && m == a[j]
    {
      if a[i] < m {
        m := a[i];
      }
    }
  }

  /** `distance_to_surface(rad, z)**2` for the given outline: the sentinel above the
      pore top or outside radius 8; otherwise the least of the corner distances and
      the segment values. An empty outline makes `min` raise ValueError. */
  method DistanceToSurfaceSq(outline: seq<Point>, rad: real, z: real) returns (r: Result<real>)
    ensures z > 3.0 || rad > 8.0 ==> r == Ok(FarSq)
    ensures z <= 3.0 && rad <= 8.0 ==> (r.Err? <==> |outline| == 0)
    ensures r.Err? ==> r.error.ValueError?
    ensures z <= 3.0 && rad <= 8.0 && r.Ok? ==>
      AtMostAll(r.value, outline, rad, z) && OneOf(r.value, outline, rad, z) && r.value >= 0.0
  {
    if z > 3.0 {
      return Ok(FarSq);
    } else if rad > 8.0 {
      return Ok(FarSq);
    }
    var size := |outline|;
    var D := new real[size](_ => 0.0);
    var E := new real[size](_ => 0.0);
    for index := 0 to size
      invariant forall i :: 0 <= i < index ==> D[i] == VertexSq(outline, i, rad, z)
      invariant forall i :: 0 <= i < index ==> E[i] == SegmentSq(outline, i, rad, z)
    {
      D[index] := RadiusSq(rad - outline[index].r, z - outline[index].z);
      E[index] := NormalSq(outline[Prev(index, size)], outline[index], Point(rad, z));
    }
    if size == 0 {
      return Err(ValueError("min() arg is an empty sequence"));
    }
    var dmin := ArrayMin(D);
    var emin := ArrayMin(E);
    var m := if dmin <= emin then dmin else emin;
    LeastOfBoth(outline, rad, z, D[..], E[..], dmin, emin, m);
    r := Ok(m);
  }

  /** The smaller of the two array minima is the least corner or segment value. */
  lemma LeastOfBoth(outline: seq<Point>, rad: real, z: real, D: seq<real>, E: seq<real>,
                    dmin: real, emin: real, m: real)
    requires |D| == |outline| && |E| == |outline|
    requires forall i :: 0 <= i < |D| ==> D[i] == VertexSq(outline, i, rad, z)
    requires forall i :: 0 <= i < |E| ==> E[i] == SegmentSq(outline, i, rad, z)
    requires (forall i :: 0 <= i < |D| ==> dmin <= D[i]) && (exists i :: 0 <= i < |D| && dmin == D[i])
    requires (forall i :: 0 <= i < |E| ==> emin <= E[i]) && (exists i :: 0 <= i < |E| && emin == E[i])
    requires m == if dmin <= emin then dmin else emin
    ensures AtMostAll(m, outline, rad, z) && OneOf(m, outline, rad, z) && m >= 0.0
  {
    var j :| 0 <= j < |D| && dmin == D[j];
    var k :| 0 <= k < |E| && emin == E[k];
    if dmin <= emin {
      assert m == VertexSq(outline, j, rad, z);
    } else {
      assert m == SegmentSq(outline, k, rad, z);
    }
  }

  /** Every segment of the alpha-hemolysin outline has two distinct ends. */
  lemma AHemOutlineProper()
    ensures |AHemOutline| == 96 && ProperOutline(AHemOutline)
  {
    forall i | 0 <= i < 96
      ensures AHemOutline[Prev(i, 96)] != AHemOutline[i]
    {
      CornersDiffer();
    }
  }

  /** No corner of the outline repeats the one before it. */
  lemma CornersDiffer()
    ensures AHemCorner(95) != AHemCorner(0)
    ensures forall i :: 0 < i < 96 ==> AHemCorner(i - 1) != AHemCorner(i)
  {
  }

  // ---------------------------------------------------------------------------
  // The drawn outline (plot2.py:162-169)
  // ---------------------------------------------------------------------------

  /** The arrays `X`, `Y` that are drawn: the corner coordinates, with the first
      corner repeated at the end so that the drawn line closes. */
  method ClosedOutline(outline: seq<Point>) returns (X: array<real>, Y: array<real>)
    ensures fresh(X) && fresh(Y)
    ensures X.Length == |outline| + 1 && Y.Length == |outline| + 1
    ensures forall i :: 0 <= i < |outline| ==> X[i] == outline[i].r && Y[i] == outline[i].z
    ensures X[|outline|] == X[0] && Y[|outline|] == Y[0]
    ensures |outline| == 0 ==> X[0] == 0.0 && Y[0] == 0.0
  {
    var size := |outline|;
    X := new real[size + 1](_ => 0.0);
    Y := new real[size + 1](_ => 0.0);
    for index := 0 to size
      invariant forall i :: 0 <= i < index ==> X[i] == outline[i].r && Y[i] == outline[i].z
      invariant forall i :: index <= i <= size ==> X[i] == 0.0 && Y[i] == 0.0
    {
      X[index] := outline[index].r;
      Y[index] := outline[index].z;
    }
    X[size] := X[0];
    Y[size] := Y[0];
  }
}
