// The sampling lattice and the grid of field values over it.  A grid has
// xDim * yDim * zDim points, numbered with x fastest, then y, then z; the
// lattice is centred on the origin and its longest side spans 100 units.

module Grids {

  import opened SpaceTypes

  /** The ends of the range the longest side is fitted to. */
  const RangeMin: real := -50.0
  const RangeMax: real := 50.0

  // ---------------------------------------------------------------------
  // Integer arithmetic the lattice numbering rests on

  lemma MulMonotone(a: int, b: int, c: int)
    requires a >= 0 && b <= c
    ensures a * b <= a * c
  {
    assert a * c - a * b == a * (c - b);
  }

  /** Euclidean division is determined by any quotient and remainder that
      fit. */
  lemma DivModUnique(n: int, d: int, q: int, r: int)
    requires d > 0 && 0 <= r < d && n == d * q + r
    ensures n / d == q && n % d == r
  {
    var q', r' := n / d, n % d;
    assert d * (q - q') == r' - r;
    if q - q' >= 1 {
      MulMonotone(d, 1, q - q');
      assert false;
    } else if q - q' <= -1 {
      MulMonotone(d, 1, q' - q);
      assert false;
    }
  }

  /** A quotient by `d` of a number below `d * m` is below `m`. */
  lemma DivBelow(n: int, d: int, m: int)
    requires d > 0 && 0 <= n < d * m
    ensures n / d < m
  {
    var q := n / d;
    assert n == d * q + n % d;
    if q >= m {
      MulMonotone(d, m, q);
      assert false;
    }
  }

  // ---------------------------------------------------------------------
  // Axes and steps

  /** `qMax(qMax(a, b), c)`. */
  function MaxDimension(a: nat, b: nat, c: nat): (m: nat)
    ensures a <= m && b <= m && c <= m
    ensures m == a || m == b || m == c
  {
    if (if a < b then b else a) < c then c else if a < b then b else a
  }

  /** The step that fits the longest side to the range. */
  function SideStep(a: nat, b: nat, c: nat): (s: real)
    requires MaxDimension(a, b, c) > 0
    ensures s > 0.0
    ensures s * MaxDimension(a, b, c) as real == RangeMax - RangeMin
  {
    (RangeMax - RangeMin) / MaxDimension(a, b, c) as real
  }

  /** `floorf` and `ceilf` on exact reals. */
  function Floor(r: real): real { r.Floor as real }
  function Ceil(r: real): real { -((-r).Floor as real) }

  /** The lower end of an axis: minus the half-span rounded down. */
  function AxisMin(dim: nat, step: real): (r: real)
    ensures -(0.5 * dim as real * step) <= r < -(0.5 * dim as real * step) + 1.0
  {
    -Floor(0.5 * dim as real * step)
  }

  /** The upper end of an axis: the half-span rounded up. */
  function AxisMax(dim: nat, step: real): (r: real)
    ensures 0.5 * dim as real * step <= r < 0.5 * dim as real * step + 1.0
  {
    Ceil(0.5 * dim as real * step)
  }

  /** One side of the lattice: its point count, range and step. */
  datatype Axis = Axis(dim: nat, min: real, max: real, step: real)
  {
    /** `xCoord`: the coordinate of the point at a position. */
    function Coord(i: nat): real
    {
      min + i as real * step
    }
  }

  /** An axis of `dim` points `step` apart, centred on the origin. */
  function CentredAxis(dim: nat, step: real): (a: Axis)
    ensures a.dim == dim && a.step == step
    ensures a.min == AxisMin(dim, step) && a.max == AxisMax(dim, step)
  {
    Axis(dim, AxisMin(dim, step), AxisMax(dim, step), step)
  }

  // ---------------------------------------------------------------------
  // The lattice

  datatype Lattice = Lattice(x: Axis, y: Axis, z: Axis)
  {
    /** `pointCount`. */
    function PointCount(): nat
    {
      x.dim * y.dim * z.dim
    }

    /** `cellCount`: the cubes between neighbouring points. */
    function CellCount(): nat
      requires x.dim >= 1 && y.dim >= 1 && z.dim >= 1
    {
      var a, b, c := x.dim - 1, y.dim - 1, z.dim - 1;
      MulMonotone(a, 0, b);
      MulMonotone(a * b, 0, c);
      a * b * c
    }

    predicate InRange(i: nat, j: nat, k: nat)
    {
      i < x.dim && j < y.dim && k < z.dim
    }

    /** `pointIndex`: x fastest, then y, then z. */
    function PointIndex(i: nat, j: nat, k: nat): nat
    {
      x.dim * y.dim * k + x.dim * j + i
    }

    /** The position a point index stands for. */
    function Position(n: nat): (nat, nat, nat)
      requires x.dim > 0 && y.dim > 0
    {
      var q: nat := n / x.dim;
      (n % x.dim, q % y.dim, q / y.dim)
    }

    /** The point at a position. */
    function Coordinates(i: nat, j: nat, k: nat): Point
    {
      Point(x.Coord(i), y.Coord(j), z.Coord(k))
    }

    /** The point with a given index. */
    function PointAt(n: nat): Point
      requires n < PointCount()
    {
      PointCountPositive(n);
      var (i, j, k) := Position(n);
      Coordinates(i, j, k)
    }

    lemma PointCountPositive(n: nat)
      requires n < PointCount()
      ensures x.dim > 0 && y.dim > 0 && z.dim > 0
    {
    }

    /** The value of `f` at every point, in point-index order. */
    function Sampled(f: Point -> real): (s: seq<real>)
      ensures |s| == PointCount()
      ensures forall n :: 0 <= n < |s| ==> s[n] == f(PointAt(n))
    {
      seq(PointCount(), n requires 0 <= n < PointCount() => f(PointAt(n)))
    }

    /** An in-range position has an index below the point count, and the
        index gives the position back. */
    lemma PositionOfIndex(i: nat, j: nat, k: nat)
      requires InRange(i, j, k)
      ensures PointIndex(i, j, k) < PointCount()
      ensures Position(PointIndex(i, j, k)) == (i, j, k)
      ensures PointAt(PointIndex(i, j, k)) == Coordinates(i, j, k)
    {
      var X, Y, Z := x.dim, y.dim, z.dim;
      var m := Y * k + j;
      var n := PointIndex(i, j, k);
      assert n == X * m + i by {
        assert X * Y * k == X * (Y * k);
        assert X * (Y * k) + X * j == X * (Y * k + j);
      }
      DivModUnique(n, X, m, i);
      DivModUnique(m, Y, k, j);
      MulMonotone(Y, k + 1, Z);
      assert m < Y * Z;
      MulMonotone(X, m + 1, Y * Z);
      assert X * Y * Z == X * (Y * Z);
    }

    /** The index after a row is the start of the next row. */
    lemma RowEnd(j: nat, k: nat)
      ensures PointIndex(x.dim, j, k) == PointIndex(0, j + 1, k)
    {
      assert x.dim * (j + 1) == x.dim * j + x.dim;
    }

    /** The index after a plane is the start of the next plane. */
    lemma PlaneEnd(k: nat)
      ensures PointIndex(0, y.dim, k) == PointIndex(0, 0, k + 1)
    {
      assert x.dim * y.dim * (k + 1) == x.dim * y.dim * k + x.dim * y.dim;
    }

    /** The index after the last plane is the point count. */
    lemma LatticeEnd()
      ensures PointIndex(0, 0, z.dim) == PointCount()
    {
    }

    /** Every index below the point count stands for an in-range position,
        so `PointIndex` is a bijection onto [0, PointCount()). */
    lemma IndexOfPosition(n: nat)
      requires n < PointCount()
      ensures x.dim > 0 && y.dim > 0
      ensures var (i, j, k) := Position(n); InRange(i, j, k) && PointIndex(i, j, k) == n
    {
      var X, Y, Z := x.dim, y.dim, z.dim;
      PointCountPositive(n);
      var m := n / X;
      assert n == X * m + n % X;
      assert X * Y * Z == X * (Y * Z);
      DivBelow(n, X, Y * Z);
      assert m == Y * (m / Y) + m % Y;
      DivBelow(m, Y, Z);
      assert X * Y * (m / Y) + X * (m % Y) == X * (Y * (m / Y) + m % Y);
    }
  }

  /** The lattice with all three steps fitted to the longest side. */
  function Uniform(xDim: nat, yDim: nat, zDim: nat): (l: Lattice)
    requires MaxDimension(xDim, yDim, zDim) > 0
    ensures l.x.dim == xDim && l.y.dim == yDim && l.z.dim == zDim
    ensures l.x.step == l.y.step == l.z.step == SideStep(xDim, yDim, zDim)
  {
    var s := SideStep(xDim, yDim, zDim);
    Lattice(CentredAxis(xDim, s), CentredAxis(yDim, s), CentredAxis(zDim, s))
  }

  // ---------------------------------------------------------------------
  // Point values

  function Zeros(n: nat): (s: seq<real>)
    ensures |s| == n && forall i :: 0 <= i < n ==> s[i] == 0.0
  {
    seq(n, _ => 0.0)
  }

  function Plus(a: seq<real>, b: seq<real>): (s: seq<real>)
    requires |a| == |b|
    ensures |s| == |a| && forall i :: 0 <= i < |a| ==> s[i] == a[i] + b[i]
  {
    seq(|a|, i requires 0 <= i < |a| => a[i] + b[i])
  }

  function Minus(a: seq<real>, b: seq<real>): (s: seq<real>)
    requires |a| == |b|
    ensures |s| == |a| && forall i :: 0 <= i < |a| ==> s[i] == a[i] - b[i]
  {
    seq(|a|, i requires 0 <= i < |a| => a[i] - b[i])
  }

  /** Adding a grid and then subtracting it restores the values. */
  lemma PlusThenMinus(a: seq<real>, b: seq<real>)
    requires |a| == |b|
    ensures Minus(Plus(a, b), b) == a
  {
  }

  class Grid {
    /** `fPointValues`, one value per lattice point. */
    var points: array<real>
    var lattice: Lattice

    ghost predicate Valid()
      reads this
    {
      points.Length == lattice.PointCount()
    }

    function Values(): seq<real>
      reads this, points
    {
      points[..]
    }

    /** A grid of the given dimensions, steps fitted to the longest side,
        all values zero. */
    constructor (xDim: nat, yDim: nat, zDim: nat)
      requires MaxDimension(xDim, yDim, zDim) > 0
      ensures Valid() && fresh(points)
      ensures lattice == Uniform(xDim, yDim, zDim)
      ensures Values() == Zeros(lattice.PointCount())
    {
      lattice := Uniform(xDim, yDim, zDim);
      points := new real[Uniform(xDim, yDim, zDim).PointCount()];
      new;
      ZeroizePoints();
    }

    /** `calculateSteps`: every axis gets the step of the longest side. */
    method CalculateSteps()
      requires MaxDimension(lattice.x.dim, lattice.y.dim, lattice.z.dim) > 0
      modifies this`lattice
      ensures lattice == Uniform(old(lattice.x.dim), old(lattice.y.dim), old(lattice.z.dim))
    {
      var s := SideStep(lattice.x.dim, lattice.y.dim, lattice.z.dim);
      lattice := Lattice(CentredAxis(lattice.x.dim, s), CentredAxis(lattice.y.dim, s), CentredAxis(lattice.z.dim, s));
    }

    /** `zeroizePoints`. */
    method ZeroizePoints()
      requires Valid()
      modifies points
      ensures Values() == Zeros(lattice.PointCount())
    {
      var i := 0;
      while i < points.Length
        invariant 0 <= i <= points.Length
        invariant forall n :: 0 <= n < i ==> points[n] == 0.0
      {
        points[i] := 0.0;
        i := i + 1;
      }
    }

    /** `allocatePoints`: a new zero-filled array of `pointCount` values. */
    method AllocatePoints()
      modifies this`points
      ensures Valid() && fresh(points)
      ensures Values() == Zeros(lattice.PointCount())
    {
      points := new real[lattice.PointCount()];
      ZeroizePoints();
    }

    /** `setSidesDimention`: all three sides get `dim` points, the steps
        are recomputed and the values are reset to zero. */
    method SetSidesDimention(dim: nat)
      requires dim > 0
      modifies this
      ensures Valid() && fresh(points)
      ensures lattice == Uniform(dim, dim, dim)
      ensures Values() == Zeros(lattice.PointCount())
    {
      lattice := lattice.(x := lattice.x.(dim := dim), y := lattice.y.(dim := dim), z := lattice.z.(dim := dim));
      CalculateSteps();
      AllocatePoints();
    }

    /** `setXDimention`: only the x side is resized and only its step and
        range recomputed, so the y and z steps keep their old values even
        when the longest side changes.  The values are reset to zero. */
    method SetXDimention(dim: nat)
      requires MaxDimension(dim, lattice.y.dim, lattice.z.dim) > 0
      modifies this
      ensures Valid() && fresh(points)
      ensures lattice == old(lattice).(x := CentredAxis(dim, SideStep(dim, old(lattice.y.dim), old(lattice.z.dim))))
      ensures Values() == Zeros(lattice.PointCount())
    {
      var step := SideStep(dim, lattice.y.dim, lattice.z.dim);
      lattice := lattice.(x := Axis(dim, AxisMin(dim, step), AxisMax(dim, step), step));
      AllocatePoints();
    }

    /** `setYDimention`, as `SetXDimention` for the y side. */
    method SetYDimention(dim: nat)
      requires MaxDimension(lattice.x.dim, dim, lattice.z.dim) > 0
      modifies this
      ensures Valid() && fresh(points)
      ensures lattice == old(lattice).(y := CentredAxis(dim, SideStep(old(lattice.x.dim), dim, old(lattice.z.dim))))
      ensures Values() == Zeros(lattice.PointCount())
    {
      var step := SideStep(lattice.x.dim, dim, lattice.z.dim);
      lattice := lattice.(y := Axis(dim, AxisMin(dim, step), AxisMax(dim, step), step));
      AllocatePoints();
    }

    /** `setZDimention`, as `SetXDimention` for the z side. */
    method SetZDimention(dim: nat)
      requires MaxDimension(lattice.x.dim, lattice.y.dim, dim) > 0
      modifies this
      ensures Valid() && fresh(points)
      ensures lattice == old(lattice).(z := CentredAxis(dim, SideStep(old(lattice.x.dim), old(lattice.y.dim), dim)))
      ensures Values() == Zeros(lattice.PointCount())
    {
      var step := SideStep(lattice.x.dim, lattice.y.dim, dim);
      lattice := lattice.(z := Axis(dim, AxisMin(dim, step), AxisMax(dim, step), step));
      AllocatePoints();
    }

    /** `fillWithFieldObject`: store the field's value at every lattice
        point, scanning x fastest, then y, then z. */
    method Fill(f: Point -> real)
      requires Valid()
      modifies points
      ensures Values() == lattice.Sampled(f)
    {
      var l := lattice;
      var index := 0;
      var k := 0;
      while k < l.z.dim
        invariant k <= l.z.dim && index == l.PointIndex(0, 0, k)
        invariant FilledUpTo(l, f, index)
      {
        var pz := l.z.Coord(k);
        var j := 0;
        while j < l.y.dim
          invariant j <= l.y.dim && index == l.PointIndex(0, j, k)
          invariant FilledUpTo(l, f, index)
        {
          index := FillRow(l, j, k, f, index);
          l.RowEnd(j, k);
          j := j + 1;
        }
        l.PlaneEnd(k);
        k := k + 1;
      }
      l.LatticeEnd();
    }

    /** The first `index` values are the samples of `f`. */
    ghost predicate FilledUpTo(l: Lattice, f: Point -> real, index: nat)
      reads this, points
    {
      && index <= points.Length == l.PointCount()
      && forall n :: 0 <= n < index ==> points[n] == f(l.PointAt(n))
    }

    /** The innermost loop of `Fill`: one row of x positions. */
    method FillRow(l: Lattice, j: nat, k: nat, f: Point -> real, start: nat) returns (index: nat)
      requires l == lattice && Valid() && j < l.y.dim && k < l.z.dim
      requires start == l.PointIndex(0, j, k)
      requires FilledUpTo(l, f, start)
      modifies points
      ensures index == l.PointIndex(l.x.dim, j, k)
      ensures FilledUpTo(l, f, index)
    {
      var py, pz := l.y.Coord(j), l.z.Coord(k);
      index := start;
      var i := 0;
      while i < l.x.dim
        invariant i <= l.x.dim && index == l.PointIndex(i, j, k)
        invariant FilledUpTo(l, f, index)
      {
        l.PositionOfIndex(i, j, k);
        points[index] := f(Point(l.x.Coord(i), py, pz));
        index := index + 1;
        i := i + 1;
      }
    }

    /** `addGrid`: element-wise addition when both grids have the same
        point count; otherwise nothing changes.  The operand is only read,
        and may be this grid itself. */
    method AddGrid(other: Grid)
      requires Valid() && other.Valid()
      modifies points
      ensures lattice.PointCount() == other.lattice.PointCount() ==>
        Values() == Plus(old(Values()), old(other.Values()))
      ensures lattice.PointCount() != other.lattice.PointCount() ==> Values() == old(Values())
    {
      var count := lattice.PointCount();
      if count == other.lattice.PointCount() {
        var i := 0;
        while i < count
          invariant 0 <= i <= count
          invariant forall n :: 0 <= n < i ==> points[n] == old(points[n]) + old(other.points[n])
          invariant forall n :: i <= n < count ==> points[n] == old(points[n]) && other.points[n] == old(other.points[n])
        {
          points[i] := points[i] + other.points[i];
          i := i + 1;
        }
      }
    }

    /** `subtractGrid`: as `AddGrid` with subtraction. */
    method SubtractGrid(other: Grid)
      requires Valid() && other.Valid()
      modifies points
      ensures lattice.PointCount() == other.lattice.PointCount() ==>
        Values() == Minus(old(Values()), old(other.Values()))
      ensures lattice.PointCount() != other.lattice.PointCount() ==> Values() == old(Values())
    {
      var count := lattice.PointCount();
      if count == other.lattice.PointCount() {
        var i := 0;
        while i < count
          invariant 0 <= i <= count
          invariant forall n :: 0 <= n < i ==> points[n] == old(points[n]) - old(other.points[n])
          invariant forall n :: i <= n < count ==> points[n] == old(points[n]) && other.points[n] == old(other.points[n])
        {
          points[i] := points[i] - other.points[i];
          i := i + 1;
        }
      }
    }
  }
}
