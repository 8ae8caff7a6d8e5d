// Normal vectors for lighting: the difference and cross product of
// vectors, the flat normal of a triangle, the mean normal of a vertex, and
// comparison of coordinates within a fixed tolerance.

module Normalization {

  import opened SpaceTypes

  /** `kPrecision`: coordinates closer than this are taken as equal. */
  const Precision: real := 0.0001

  function Abs(r: real): real
  {
    if r < 0.0 then -r else r
  }

  /** `p` moved by the vector `v`. */
  function Translate(p: Point, v: Point): Point
  {
    Point(p.x + v.x, p.y + v.y, p.z + v.z)
  }

  function Dot(a: Point, b: Point): real
  {
    a.x * b.x + a.y * b.y + a.z * b.z
  }

  function Negated(v: Point): Point
  {
    Point(-v.x, -v.y, -v.z)
  }

  /** `vector`: the vector from `b` to `a`. */
  function Vector(a: Point, b: Point): (v: Point)
    ensures Translate(b, v) == a
  {
    Point(a.x - b.x, a.y - b.y, a.z - b.z)
  }

  /** The vector between two points is zero only for equal points. */
  lemma VectorZero(a: Point, b: Point)
    ensures Vector(a, b) == Origin <==> a == b
  {
  }

  /** `normal`: the cross product, perpendicular to both arguments. */
  function Normal(v1: Point, v2: Point): (n: Point)
    ensures Dot(n, v1) == 0.0 && Dot(n, v2) == 0.0
  {
    Point(v1.y * v2.z - v1.z * v2.y, v1.z * v2.x - v1.x * v2.z, v1.x * v2.y - v1.y * v2.x)
  }

  /** Swapping the arguments of `normal` negates it. */
  lemma NormalAntisymmetric(v1: Point, v2: Point)
    ensures Normal(v2, v1) == Negated(Normal(v1, v2))
  {
  }

  /** A vector has no normal with itself. */
  lemma NormalOfParallel(v: Point)
    ensures Normal(v, v) == Origin
  {
  }

  /** The normal `normalizeTriangle` gives: the cross product of the
      edges from the first vertex. */
  function FlatNormal(t: Triangle): (n: Point)
    ensures Dot(n, Vector(t.p0, t.p1)) == 0.0 && Dot(n, Vector(t.p0, t.p2)) == 0.0
  {
    Normal(Vector(t.p0, t.p1), Vector(t.p0, t.p2))
  }

  /** The flat normal is perpendicular to the third edge as well. */
  lemma FlatNormalPerpendicular(t: Triangle)
    ensures Dot(FlatNormal(t), Vector(t.p1, t.p2)) == 0.0
  {
    var n, a, b := FlatNormal(t), Vector(t.p0, t.p1), Vector(t.p0, t.p2);
    assert Vector(t.p1, t.p2) == Point(b.x - a.x, b.y - a.y, b.z - a.z);
    assert Dot(n, Vector(t.p1, t.p2)) == Dot(n, b) - Dot(n, a);
  }

  /** Starting from another vertex, in the same cyclic order, gives the
      same flat normal. */
  lemma FlatNormalRotated(t: Triangle)
    ensures FlatNormal(Triangle(t.p1, t.p2, t.p0)) == FlatNormal(t)
  {
  }

  /** Reversing the order of the vertices reverses the flat normal. */
  lemma FlatNormalReversed(t: Triangle)
    ensures FlatNormal(Triangle(t.p0, t.p2, t.p1)) == Negated(FlatNormal(t))
  {
    NormalAntisymmetric(Vector(t.p0, t.p1), Vector(t.p0, t.p2));
  }

  /** `normalizeTriangle`: the same three positions, each with the
      triangle's flat normal. */
  function NormalizeTriangle(t: Triangle): (r: TriangleN)
    ensures r.p0.p == t.p0 && r.p1.p == t.p1 && r.p2.p == t.p2
    ensures r.p0.n == r.p1.n == r.p2.n == FlatNormal(t)
  {
    var n := FlatNormal(t);
    TriangleN(PointN(t.p0, n), PointN(t.p1, n), PointN(t.p2, n))
  }

  /** The triangle `normalizeTriangle` was given back, without normals. */
  function Positions(t: TriangleN): Triangle
  {
    Triangle(t.p0.p, t.p1.p, t.p2.p)
  }

  /** Dropping the normals of a normalized triangle gives the triangle. */
  lemma NormalizeTrianglePositions(t: Triangle)
    ensures Positions(NormalizeTriangle(t)) == t
  {
  }

  // ---------------------------------------------------------------------
  // Tolerance equality

  /** `equalFloat`: closer than `kPrecision`. */
  predicate EqualFloat(a: real, b: real)
  {
    Abs(a - b) < Precision
  }

  lemma EqualFloatReflexive(a: real)
    ensures EqualFloat(a, a)
  {
  }

  lemma EqualFloatSymmetric(a: real, b: real)
    ensures EqualFloat(a, b) <==> EqualFloat(b, a)
  {
  }

  /** Tolerance equality is not transitive: 0 is close to 0.00006, which
      is close to 0.00012, which is not close to 0. */
  lemma EqualFloatNotTransitive()
    ensures EqualFloat(0.0, 0.00006) && EqualFloat(0.00006, 0.00012) && !EqualFloat(0.0, 0.00012)
  {
  }

  /** `equalPoints`: every coordinate tolerance-equal. */
  predicate EqualPoints(p: Point, q: Point)
  {
    EqualFloat(p.x, q.x) && EqualFloat(p.y, q.y) && EqualFloat(p.z, q.z)
  }

  lemma EqualPointsReflexive(p: Point)
    ensures EqualPoints(p, p)
  {
  }

  lemma EqualPointsSymmetric(p: Point, q: Point)
    ensures EqualPoints(p, q) <==> EqualPoints(q, p)
  {
  }

  /** `isVertex` on a triangle. */
  predicate IsVertex(p: Point, t: Triangle)
  {
    EqualPoints(p, t.p0) || EqualPoints(p, t.p1) || EqualPoints(p, t.p2)
  }

  /** `isVertex` on a triangle with normals: the normals play no part. */
  predicate IsVertexN(p: Point, t: TriangleN)
  {
    EqualPoints(p, t.p0.p) || EqualPoints(p, t.p1.p) || EqualPoints(p, t.p2.p)
  }

  /** Each corner of a triangle is one of its vertices, and a point far
      from all three is none. */
  lemma CornersAreVertices(t: TriangleN)
    ensures IsVertexN(t.p0.p, t) && IsVertexN(t.p1.p, t) && IsVertexN(t.p2.p, t)
    ensures IsVertexN(t.p0.p, t) == IsVertex(t.p0.p, Positions(t))
  {
  }

  /** A point is a vertex of a triangle exactly when it is one of the
      triangle's corners up to the tolerance. */
  lemma IsVertexMeansNear(p: Point, t: TriangleN)
    ensures IsVertexN(p, t) <==> exists q :: q in [t.p0.p, t.p1.p, t.p2.p] && EqualPoints(p, q)
  {
    if IsVertexN(p, t) {
      if EqualPoints(p, t.p0.p) {
        assert t.p0.p in [t.p0.p, t.p1.p, t.p2.p];
      } else if EqualPoints(p, t.p1.p) {
        assert t.p1.p in [t.p0.p, t.p1.p, t.p2.p];
      } else {
        assert t.p2.p in [t.p0.p, t.p1.p, t.p2.p];
      }
    }
  }

  // ---------------------------------------------------------------------
  // Vertex normals

  /** The sum of the first-vertex normals of `ts`. */
  function NormalSum(ts: seq<TriangleN>): Point
  {
    if ts == [] then Origin else Translate(NormalSum(ts[..|ts| - 1]), ts[|ts| - 1].p0.n)
  }

  function Scaled(v: Point, k: real): Point
  {
    Point(v.x * k, v.y * k, v.z * k)
  }

  /** The mean of the first-vertex normals of a non-empty list. */
  function MeanNormal(ts: seq<TriangleN>): Point
    requires ts != []
  {
    var s := NormalSum(ts);
    var c := |ts| as real;
    Point(s.x / c, s.y / c, s.z / c)
  }

  /** Adding up the same normal `k` times gives `k` times the normal. */
  lemma {:induction false} NormalSumOfEqual(ts: seq<TriangleN>, n: Point)
    requires forall i :: 0 <= i < |ts| ==> ts[i].p0.n == n
    ensures NormalSum(ts) == Scaled(n, |ts| as real)
  {
    if ts != [] {
      NormalSumOfEqual(ts[..|ts| - 1], n);
    }
  }

  /** When every listed triangle has the normal `n`, the mean is `n`. */
  lemma MeanOfEqualNormals(ts: seq<TriangleN>, n: Point)
    requires ts != []
    requires forall i :: 0 <= i < |ts| ==> ts[i].p0.n == n
    ensures MeanNormal(ts) == n
  {
    NormalSumOfEqual(ts, n);
    var c := |ts| as real;
    MulDivCancel(n.x, c);
    MulDivCancel(n.y, c);
    MulDivCancel(n.z, c);
  }

  lemma MulDivCancel(a: real, c: real)
    requires c != 0.0
    ensures a * c / c == a
  {
  }

  /** `normalizeVertex` for triangles with normals: the position `v` with
      the mean of the triangles' first-vertex normals.  The source divides
      by the count, so the list must not be empty. */
  method NormalizeVertex(v: Point, ts: seq<TriangleN>) returns (r: PointN)
    requires ts != []
    ensures r.p == v && r.n == MeanNormal(ts)
  {
    var n := Origin;
    var i := 0;
    while i < |ts|
      invariant 0 <= i <= |ts|
      invariant n == NormalSum(ts[..i])
    {
      assert ts[..i + 1][..i] == ts[..i];
      n := Point(n.x + ts[i].p0.n.x, n.y + ts[i].p0.n.y, n.z + ts[i].p0.n.z);
      i := i + 1;
    }
    assert ts[..i] == ts;
    var c := |ts| as real;
    r := PointN(v, Point(n.x / c, n.y / c, n.z / c));
  }
}
