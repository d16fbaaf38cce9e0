/** Points of the (r, z) half-plane in which the axisymmetric pores are drawn. */
module Plane {

  datatype Point = Point(r: real, z: real)

  /** The reflection z -> -z. */
  function Mirror(p: Point): (q: Point)
    ensures q.r == p.r && q.z == -p.z
  {
    Point(p.r, -p.z)
  }

  /** Every vertex mirrored in z, in reverse order (`[mirror(v) for v in poly][::-1]`). */
  function MirrorReversed(poly: seq<Point>): (m: seq<Point>)
    ensures |m| == |poly|
    ensures forall i :: 0 <= i < |poly| ==> m[i] == Mirror(poly[|poly| - 1 - i])
  {
    seq(|poly|, i requires 0 <= i < |poly| => Mirror(poly[|poly| - 1 - i]))
  }

  /** Mirroring twice gives back the polygon. */
  lemma MirrorReversedInvolution(poly: seq<Point>)
    ensures MirrorReversed(MirrorReversed(poly)) == poly
  {
  }
}
