// One cube of the grid: its eight corner points and values, and the
// triangles of the iso-surface through it, by marching cubes (from the
// edge and triangle tables) or by marching tetrahedra.

module GridCells {

  import opened Wrappers
  import opened SpaceTypes
  import opened Grids
  import opened Normalization

  // ---------------------------------------------------------------------
  // Cube geometry

  /** The corners as offsets from the cell's position, in the order the
      source numbers them: the bottom square anticlockwise, then the top. */
  const CornerOffsets: seq<(nat, nat, nat)> :=
    [(0, 0, 0), (1, 0, 0), (1, 1, 0), (0, 1, 0), (0, 0, 1), (1, 0, 1), (1, 1, 1), (0, 1, 1)]

  /** The twelve cube edges as pairs of corners: the bottom square, the
      top square, then the four uprights. */
  const EdgeCorners: seq<(nat, nat)> :=
    [(0, 1), (1, 2), (2, 3), (3, 0), (4, 5), (5, 6), (6, 7), (7, 4), (0, 4), (1, 5), (2, 6), (3, 7)]

  /** Every edge joins two corners one step apart along exactly one axis. */
  lemma EdgesAreCubeEdges()
    ensures forall k :: 0 <= k < 12 ==>
      var (a, b) := EdgeCorners[k];
      a < 8 && b < 8 &&
      var (p, q) := (CornerOffsets[a], CornerOffsets[b]);
      (if p.0 == q.0 then 0 else 1) + (if p.1 == q.1 then 0 else 1) + (if p.2 == q.2 then 0 else 1) == 1
  {
  }

  // ---------------------------------------------------------------------
  // The tables

  /** Bit `k` of an edge-table entry: edge `k` is cut. */
  predicate Cut(e: bv16, k: int)
    requires 0 <= k < 12
  {
    e & (1 << k) != 0
  }

  /** The first `-1` at or after `i`, looking at every third entry as the
      triangle loop does; `e` is a `-1` unless the row ran out. */
  function RowEnd(row: seq<int>, i: nat): (e: nat)
    ensures e >= i && (e - i) % 3 == 0
    ensures e < |row| ==> row[e] == -1
    decreases |row| - i
  {
    if i >= |row| || row[i] == -1 then i else RowEnd(row, i + 3)
  }

  /** Every entry the triangle loop looks at before the end is in the row
      and is not `-1`: the end is the first `-1` of the loop. */
  lemma {:induction false} RowEndIsFirst(row: seq<int>, i: nat)
    ensures forall t :: 0 <= t && i + 3 * t < RowEnd(row, i) ==> i + 3 * t < |row| && row[i + 3 * t] != -1
    decreases |row| - i
  {
    if i < |row| && row[i] != -1 {
      RowEndIsFirst(row, i + 3);
      forall t | 0 <= t && i + 3 * t < RowEnd(row, i)
        ensures i + 3 * t < |row| && row[i + 3 * t] != -1
      {
        if t > 0 {
          assert i + 3 * t == (i + 3) + 3 * (t - 1);
        }
      }
    }
  }

  /** A triangle-table row: 16 entries, a `-1` closing the triangles, and
      before it only edges the edge-table entry `cut` marks as cut. */
  predicate RowShaped(row: seq<int>, cut: bv16)
  {
    && |row| == 16 && RowEnd(row, 0) < 16
    && forall j :: 0 <= j < RowEnd(row, 0) ==> 0 <= row[j] < 12 && Cut(cut, row[j])
  }

  /** `kEdgeTable` and `kTriTable`, whose contents are not part of this
      model; only the shape the code relies on is. */
  datatype CubeTables = CubeTables(edges: seq<bv16>, tris: seq<seq<int>>)
  {
    /** 256 entries each; a cube with all corners on one side cuts no
        edge; every row lists cut edges only. */
    predicate Shaped()
    {
      && |edges| == 256 && |tris| == 256
      && edges[0] == 0 && edges[255] == 0
      && forall ci :: 0 <= ci < 256 ==> RowShaped(tris[ci], edges[ci])
    }
  }

  // ---------------------------------------------------------------------
  // Interpolation

  /** A quotient times its divisor is the dividend. */
  lemma DivCancel(a: real, d: real)
    requires d != 0.0
    ensures a / d * d == a
  {
  }

  /** A dividend between zero and the divisor gives a quotient between
      zero and one. */
  lemma DivBetween(a: real, d: real)
    requires d != 0.0 && (0.0 <= a <= d || d <= a <= 0.0)
    ensures 0.0 <= a / d <= 1.0
  {
    if d > 0.0 {
      assert a / d <= d / d;
    } else {
      assert (-a) / (-d) <= (-d) / (-d);
      assert a / d == (-a) / (-d);
    }
  }

  /** Where along the edge from the first corner to the second the
      iso-level is met, with the source's tie-breaks: at the first corner
      when its value is the level, at the second when that one's is, at the
      first when the two values are equal. */
  function CrossFraction(iso: real, v1: real, v2: real): (mu: real)
    ensures (v1 <= iso <= v2 || v2 <= iso <= v1) ==> 0.0 <= mu <= 1.0
  {
    if EqualFloat(iso, v1) then 0.0
    else if EqualFloat(iso, v2) then 1.0
    else if EqualFloat(v1, v2) then 0.0
    else
      var mu := (iso - v1) / (v2 - v1);
      if v1 <= iso <= v2 || v2 <= iso <= v1 then
        DivBetween(iso - v1, v2 - v1);
        mu
      else
        mu
  }

  /** Except when the two values are equal and neither is the level, the
      values interpolated linearly at the fraction are the level up to
      the tolerance; away from the tie-breaks, exactly. */
  lemma CrossFractionMeetsLevel(iso: real, v1: real, v2: real)
    requires EqualFloat(iso, v1) || EqualFloat(iso, v2) || !EqualFloat(v1, v2)
    ensures EqualFloat(v1 + CrossFraction(iso, v1, v2) * (v2 - v1), iso)
    ensures !EqualFloat(iso, v1) && !EqualFloat(iso, v2) ==> v1 + CrossFraction(iso, v1, v2) * (v2 - v1) == iso
  {
    var mu := CrossFraction(iso, v1, v2);
    if EqualFloat(iso, v1) {
      assert mu == 0.0;
      assert v1 + mu * (v2 - v1) == v1;
    } else if EqualFloat(iso, v2) {
      assert mu == 1.0;
      assert v1 + mu * (v2 - v1) == v2;
    } else {
      var d := v2 - v1;
      assert d != 0.0;
      assert mu == (iso - v1) / d;
      DivCancel(iso - v1, d);
      assert mu * d == iso - v1;
    }
  }

  /** The point a fraction `mu` of the way from `p1` to `p2`. */
  function Along(p1: Point, p2: Point, mu: real): Point
  {
    Point(p1.x + mu * (p2.x - p1.x), p1.y + mu * (p2.y - p1.y), p1.z + mu * (p2.z - p1.z))
  }

  /** `interpolateCrossPoint`: the point of the edge where the iso-level
      is met; it lies on the edge whenever the level lies between the two
      values. */
  function InterpolateCrossPoint(iso: real, p1: Point, p2: Point, v1: real, v2: real): (p: Point)
    ensures p == Along(p1, p2, CrossFraction(iso, v1, v2))
  {
    if EqualFloat(iso, v1) then p1
    else if EqualFloat(iso, v2) then p2
    else if EqualFloat(v1, v2) then p1
    else Along(p1, p2, (iso - v1) / (v2 - v1))
  }

  /** The tie-breaks: a corner whose value is the level is the crossing. */
  lemma CrossPointAtCorner(iso: real, p1: Point, p2: Point, v1: real, v2: real)
    ensures EqualFloat(iso, v1) ==> InterpolateCrossPoint(iso, p1, p2, v1, v2) == p1
    ensures !EqualFloat(iso, v1) && EqualFloat(iso, v2) ==> InterpolateCrossPoint(iso, p1, p2, v1, v2) == p2
  {
  }

  // ---------------------------------------------------------------------
  // The cell

  /** A grid cell: its position, its iso-level, its triangles, and the
      points and values of its eight corners (`fPoints`, `fPointValues`). */
  datatype GridCell = GridCell(x: nat, y: nat, z: nat, isoLevel: real, hasTriangles: bool,
                               triangles: seq<TriangleN>, points: seq<Point>, values: seq<real>)
  {
    predicate Valid()
    {
      |points| == 8 && |values| == 8
    }
  }

  /** The cell lies inside the lattice: its far corner is a lattice point. */
  predicate CellInRange(l: Lattice, x: nat, y: nat, z: nat)
  {
    x + 1 < l.x.dim && y + 1 < l.y.dim && z + 1 < l.z.dim
  }

  /** `GridCell()`: no grid, iso-level 2, no triangles, zero corners. */
  function DefaultCell(): (c: GridCell)
    ensures c.Valid() && c.isoLevel == 2.0 && !c.hasTriangles && c.triangles == []
    ensures forall i :: 0 <= i < 8 ==> c.points[i] == Origin && c.values[i] == 0.0
  {
    GridCell(0, 0, 0, 2.0, false, [], seq(8, _ => Origin), seq(8, _ => 0.0))
  }

  /** The lattice position of corner `i` of the cell at (x, y, z). */
  function Corner(x: nat, y: nat, z: nat, i: nat): (nat, nat, nat)
    requires i < 8
  {
    var (dx, dy, dz) := CornerOffsets[i];
    (x + dx, y + dy, z + dz)
  }

  /** The point index of corner `i`, inside the lattice. */
  function CornerIndex(l: Lattice, x: nat, y: nat, z: nat, i: nat): (n: nat)
    requires CellInRange(l, x, y, z) && i < 8
    ensures n < l.PointCount()
  {
    var (a, b, c) := Corner(x, y, z, i);
    l.PositionOfIndex(a, b, c);
    l.PointIndex(a, b, c)
  }

  /** The corner values read from the grid values `vs`. */
  function CornerValues(l: Lattice, vs: seq<real>, x: nat, y: nat, z: nat): (r: seq<real>)
    requires CellInRange(l, x, y, z) && |vs| == l.PointCount()
    ensures |r| == 8 && forall i :: 0 <= i < 8 ==> r[i] == vs[CornerIndex(l, x, y, z, i)]
  {
    seq(8, i requires 0 <= i < 8 => vs[CornerIndex(l, x, y, z, i)])
  }

  /** The corner points. */
  function CornerPoints(l: Lattice, x: nat, y: nat, z: nat): (r: seq<Point>)
    ensures |r| == 8
    ensures forall i :: 0 <= i < 8 ==>
      r[i] == l.Coordinates(Corner(x, y, z, i).0, Corner(x, y, z, i).1, Corner(x, y, z, i).2)
  {
    seq(8, i requires 0 <= i < 8 => var (a, b, c) := Corner(x, y, z, i); l.Coordinates(a, b, c))
  }

  /** `recalculatePoints`: the corner points from the lattice. */
  function RecalculatePoints(c: GridCell, l: Lattice): (r: GridCell)
    ensures r == c.(points := CornerPoints(l, c.x, c.y, c.z))
  {
    c.(points := CornerPoints(l, c.x, c.y, c.z))
  }

  /** Points and values use the same corner order: when the grid holds
      the samples of `f`, each corner value is `f` at that corner's point. */
  lemma CornerValuesAtPoints(l: Lattice, f: Point -> real, x: nat, y: nat, z: nat)
    requires CellInRange(l, x, y, z)
    ensures forall i :: 0 <= i < 8 ==>
      CornerValues(l, l.Sampled(f), x, y, z)[i] == f(CornerPoints(l, x, y, z)[i])
  {
    forall i | 0 <= i < 8
      ensures CornerValues(l, l.Sampled(f), x, y, z)[i] == f(CornerPoints(l, x, y, z)[i])
    {
      var (a, b, c) := Corner(x, y, z, i);
      l.PositionOfIndex(a, b, c);
    }
  }

  /** `recalculatePointValues`: read the eight corner values from the
      grid; the cached triangles are dropped and `hasTriangles` is set
      until they are recomputed. */
  method RecalculatePointValues(c: GridCell, l: Lattice, vs: seq<real>) returns (r: GridCell)
    requires c.Valid() && CellInRange(l, c.x, c.y, c.z) && |vs| == l.PointCount()
    ensures r == c.(values := CornerValues(l, vs, c.x, c.y, c.z), triangles := [], hasTriangles := true)
  {
    var values := c.values;
    var i := 0;
    while i < 8
      invariant 0 <= i <= 8 && |values| == 8
      invariant forall j :: 0 <= j < i ==> values[j] == vs[CornerIndex(l, c.x, c.y, c.z, j)]
    {
      values := values[i := vs[CornerIndex(l, c.x, c.y, c.z, i)]];
      i := i + 1;
    }
    r := c.(values := values, triangles := [], hasTriangles := true);
  }

  /** What `GridCell(grid, x, y, z)` builds. */
  function CellAt(l: Lattice, vs: seq<real>, x: nat, y: nat, z: nat): (c: GridCell)
    requires CellInRange(l, x, y, z) && |vs| == l.PointCount()
    ensures c.Valid() && c.x == x && c.y == y && c.z == z
    ensures c.isoLevel == 2.0 && c.hasTriangles && c.triangles == []
    ensures forall i :: 0 <= i < 8 ==>
      c.values[i] == vs[CornerIndex(l, x, y, z, i)] &&
      c.points[i] == l.Coordinates(Corner(x, y, z, i).0, Corner(x, y, z, i).1, Corner(x, y, z, i).2)
  {
    GridCell(x, y, z, 2.0, true, [], CornerPoints(l, x, y, z), CornerValues(l, vs, x, y, z))
  }

  /** `GridCell(grid, x, y, z)`: the cell at a position, its corners read
      from the grid. */
  method NewCell(l: Lattice, vs: seq<real>, x: nat, y: nat, z: nat) returns (c: GridCell)
    requires CellInRange(l, x, y, z) && |vs| == l.PointCount()
    ensures c == CellAt(l, vs, x, y, z)
  {
    c := GridCell(x, y, z, 2.0, true, [], seq(8, _ => Origin), seq(8, _ => 0.0));
    c := RecalculatePoints(c, l);
    c := RecalculatePointValues(c, l, vs);
  }

  // ---------------------------------------------------------------------
  // Marching cubes

  /** Bit `i` of a cube index. */
  predicate Inside(ci: bv8, i: int)
    requires 0 <= i < 8
  {
    ci & (1 << i) != 0
  }

  /** The cube index: bit `i` set when corner `i` is below the level. */
  function CubeIndex(values: seq<real>, iso: real): (ci: bv8)
    requires |values| == 8
    ensures forall i :: 0 <= i < 8 ==> (Inside(ci, i) <==> values[i] < iso)
  {
    (if values[0] < iso then 1 else 0) | (if values[1] < iso then 2 else 0)
    | (if values[2] < iso then 4 else 0) | (if values[3] < iso then 8 else 0)
    | (if values[4] < iso then 16 else 0) | (if values[5] < iso then 32 else 0)
    | (if values[6] < iso then 64 else 0) | (if values[7] < iso then 128 else 0)
  }

  /** The crossing on edge `k` of the cell. */
  function EdgePoint(c: GridCell, iso: real, k: nat): Point
    requires c.Valid() && k < 12
  {
    var (a, b) := EdgeCorners[k];
    InterpolateCrossPoint(iso, c.points[a], c.points[b], c.values[a], c.values[b])
  }

  /** `vertexList`: the crossing on every cut edge; the others are left
      unset. */
  function VertexList(c: GridCell, iso: real, cut: bv16): (vl: seq<Option<Point>>)
    requires c.Valid()
    ensures |vl| == 12
    ensures forall k :: 0 <= k < 12 ==> (vl[k].Some? <==> Cut(cut, k))
    ensures forall k :: 0 <= k < 12 && vl[k].Some? ==> vl[k].value == EdgePoint(c, iso, k)
  {
    seq(12, k requires 0 <= k < 12 => if Cut(cut, k) then Some(EdgePoint(c, iso, k)) else None)
  }

  /** Triangle `t` of a table row: three set entries of the vertex list. */
  function TableTriangle(row: seq<int>, vl: seq<Option<Point>>, t: nat): Triangle
    requires |vl| == 12 && 3 * t + 2 < |row|
    requires forall j :: 3 * t <= j < 3 * t + 3 ==> 0 <= row[j] < 12 && vl[row[j]].Some?
  {
    Triangle(vl[row[3 * t]].value, vl[row[3 * t + 1]].value, vl[row[3 * t + 2]].value)
  }

  /** The row's entries up to its end name set entries of the vertex list. */
  predicate Readable(row: seq<int>, vl: seq<Option<Point>>)
  {
    && |vl| == 12 && |row| == 16 && RowEnd(row, 0) < 16
    && forall j :: 0 <= j < RowEnd(row, 0) ==> 0 <= row[j] < 12 && vl[row[j]].Some?
  }

  /** The triangles a table row lists, up to its `-1`. */
  function RowTriangles(row: seq<int>, vl: seq<Option<Point>>): (ts: seq<Triangle>)
    requires Readable(row, vl)
    ensures |ts| <= 5
  {
    var n := RowEnd(row, 0) / 3;
    seq(n, t requires 0 <= t < n => TableTriangle(row, vl, t))
  }

  /** The marching-cubes triangles of a cell at a level. */
  function CubeTriangles(c: GridCell, tables: CubeTables, iso: real): (ts: seq<Triangle>)
    requires c.Valid() && tables.Shaped()
    ensures |ts| <= 5
    ensures tables.edges[CubeIndex(c.values, iso)] == 0 ==> ts == []
  {
    var ci := CubeIndex(c.values, iso) as int;
    if tables.edges[ci] == 0 then []
    else
      var row, vl := tables.tris[ci], VertexList(c, iso, tables.edges[ci]);
      assert RowShaped(row, tables.edges[ci]);
      RowTriangles(row, vl)
  }

  /** The three corners of a triangle. */
  function Vertex(t: Triangle, j: nat): Point
    requires j < 3
  {
    if j == 0 then t.p0 else if j == 1 then t.p1 else t.p2
  }

  /** Vertex `j` of triangle `t` of a row is the vertex-list entry the
      row names at `3 t + j`, before the row's end. */
  lemma RowVertices(row: seq<int>, vl: seq<Option<Point>>)
    requires Readable(row, vl)
    ensures var ts := RowTriangles(row, vl);
      forall t, j :: 0 <= t < |ts| && 0 <= j < 3 ==>
        3 * t + j < RowEnd(row, 0) && Vertex(ts[t], j) == vl[row[3 * t + j]].value
  {
  }

  /** Every triangle vertex is the crossing on an edge the edge table
      marks as cut. */
  lemma VerticesOnCutEdges(c: GridCell, tables: CubeTables, iso: real)
    requires c.Valid() && tables.Shaped()
    ensures var ts, cut := CubeTriangles(c, tables, iso), tables.edges[CubeIndex(c.values, iso)];
      forall t, j :: 0 <= t < |ts| && 0 <= j < 3 ==>
        exists e :: 0 <= e < 12 && Cut(cut, e) && Vertex(ts[t], j) == EdgePoint(c, iso, e)
  {
    var ci := CubeIndex(c.values, iso) as int;
    var cut := tables.edges[ci];
    if cut != 0 {
      var row, vl := tables.tris[ci], VertexList(c, iso, cut);
      assert RowShaped(row, cut);
      var ts := RowTriangles(row, vl);
      RowVertices(row, vl);
      forall t, j | 0 <= t < |ts| && 0 <= j < 3
        ensures exists e :: 0 <= e < 12 && Cut(cut, e) && Vertex(ts[t], j) == EdgePoint(c, iso, e)
      {
        var e := row[3 * t + j];
        assert 0 <= e < 12 && Cut(cut, e);
        assert Vertex(ts[t], j) == EdgePoint(c, iso, e);
      }
    }
  }

  /** A cube with every corner on the same side of the level gives no
      triangles. */
  lemma UniformCubeIsEmpty(c: GridCell, tables: CubeTables, iso: real)
    requires c.Valid() && tables.Shaped()
    requires (forall i :: 0 <= i < 8 ==> c.values[i] < iso) || (forall i :: 0 <= i < 8 ==> c.values[i] >= iso)
    ensures CubeTriangles(c, tables, iso) == []
  {
    var ci := CubeIndex(c.values, iso);
    assert Inside(ci, 0) == Inside(ci, 1) == Inside(ci, 2) == Inside(ci, 3)
      == Inside(ci, 4) == Inside(ci, 5) == Inside(ci, 6) == Inside(ci, 7);
    assert ci == 0 || ci == 255;
  }

  /** The loop of `trianglesMarchingCubes`: the row read three entries
      at a time up to its `-1`. */
  method ReadRow(row: seq<int>, vl: seq<Option<Point>>) returns (ts: seq<Triangle>)
    requires Readable(row, vl)
    ensures ts == RowTriangles(row, vl)
  {
    ts := [];
    var i := 0;
    while row[i] != -1
      invariant 0 <= i <= RowEnd(row, 0) && i % 3 == 0 && RowEnd(row, i) == RowEnd(row, 0)
      invariant |ts| == i / 3 && forall t :: 0 <= t < |ts| ==> ts[t] == TableTriangle(row, vl, t)
      decreases RowEnd(row, 0) - i
    {
      ts := ts + [Triangle(vl[row[i]].value, vl[row[i + 1]].value, vl[row[i + 2]].value)];
      i := i + 3;
    }
  }

  /** `trianglesMarchingCubes`: the cube index from the corner values, the
      crossings on the cut edges, then the triangles the table row lists. */
  method TrianglesMarchingCubes(c: GridCell, tables: CubeTables, iso: real) returns (ts: seq<Triangle>)
    requires c.Valid() && tables.Shaped()
    ensures ts == CubeTriangles(c, tables, iso)
  {
    var ci := CubeIndex(c.values, iso) as int;
    if tables.edges[ci] == 0 {
      return [];
    }
    var vl := VertexList(c, iso, tables.edges[ci]);
    assert RowShaped(tables.tris[ci], tables.edges[ci]);
    ts := ReadRow(tables.tris[ci], vl);
  }

  // ---------------------------------------------------------------------
  // Marching tetrahedra

  /** The crossing between corners `a` and `b`. */
  function Cross(c: GridCell, iso: real, a: nat, b: nat): Point
    requires c.Valid() && a < 8 && b < 8
  {
    InterpolateCrossPoint(iso, c.points[a], c.points[b], c.values[a], c.values[b])
  }

  /** The case of a tetrahedron: bit 1, 2, 4, 8 for its corners below
      the level. */
  function TetraIndex(c: GridCell, iso: real, v0: nat, v1: nat, v2: nat, v3: nat): (t: nat)
    requires c.Valid() && v0 < 8 && v1 < 8 && v2 < 8 && v3 < 8
    ensures t < 16
  {
    (if c.values[v0] < iso then 1 else 0) + (if c.values[v1] < iso then 2 else 0)
    + (if c.values[v2] < iso then 4 else 0) + (if c.values[v3] < iso then 8 else 0)
  }

  /** The number of triangles the source builds for a case. */
  function TetraCount(t: nat): nat
  {
    if t in {0x0, 0xF} then 0 else if t in {0x3, 0x5, 0x6, 0x9, 0xA, 0xC} then 2 else 1
  }

  /** A case and its complement give the same number of triangles. */
  lemma TetraCountComplement(t: nat)
    requires t < 16
    ensures TetraCount(15 - t) == TetraCount(t)
  {
  }

  /** How many of the four corners lie below the level. */
  function CornersBelow(c: GridCell, iso: real, v0: nat, v1: nat, v2: nat, v3: nat): (n: nat)
    requires c.Valid() && v0 < 8 && v1 < 8 && v2 < 8 && v3 < 8
    ensures n <= 4
  {
    (if c.values[v0] < iso then 1 else 0) + (if c.values[v1] < iso then 1 else 0)
    + (if c.values[v2] < iso then 1 else 0) + (if c.values[v3] < iso then 1 else 0)
  }

  /** The count of triangles follows the corners: none when all four are
      on one side, two when the level splits them two and two, one when it
      cuts off a single corner. */
  lemma TetraCountByCorners(c: GridCell, iso: real, v0: nat, v1: nat, v2: nat, v3: nat)
    requires c.Valid() && v0 < 8 && v1 < 8 && v2 < 8 && v3 < 8
    ensures var n := CornersBelow(c, iso, v0, v1, v2, v3);
      TetraCount(TetraIndex(c, iso, v0, v1, v2, v3)) == if n == 0 || n == 4 then 0 else if n == 2 then 2 else 1
  {
  }

  /** `tetrahedronTriangles`: the triangles of one tetrahedron; a case and
      its complement share their triangles. */
  function TetrahedronTriangles(c: GridCell, iso: real, v0: nat, v1: nat, v2: nat, v3: nat): (ts: seq<Triangle>)
    requires c.Valid() && v0 < 8 && v1 < 8 && v2 < 8 && v3 < 8
    ensures |ts| == TetraCount(TetraIndex(c, iso, v0, v1, v2, v3)) && |ts| <= 2
  {
    var t := TetraIndex(c, iso, v0, v1, v2, v3);
    if t == 0x0 || t == 0xF then []
    else if t == 0x1 || t == 0xE then
      [Triangle(Cross(c, iso, v0, v1), Cross(c, iso, v0, v2), Cross(c, iso, v0, v3))]
    else if t == 0x2 || t == 0xD then
      [Triangle(Cross(c, iso, v1, v0), Cross(c, iso, v1, v3), Cross(c, iso, v1, v2))]
    else if t == 0x3 || t == 0xC then
      var first := Triangle(Cross(c, iso, v0, v3), Cross(c, iso, v0, v2), Cross(c, iso, v1, v3));
      [first, Triangle(first.p2, Cross(c, iso, v1, v2), first.p1)]
    else if t == 0x4 || t == 0xB then
      [Triangle(Cross(c, iso, v2, v0), Cross(c, iso, v2, v1), Cross(c, iso, v2, v3))]
    else if t == 0x5 || t == 0xA then
      var first := Triangle(Cross(c, iso, v0, v1), Cross(c, iso, v2, v3), Cross(c, iso, v0, v3));
      [first, Triangle(first.p0, Cross(c, iso, v1, v2), first.p1)]
    else if t == 0x6 || t == 0x9 then
      var first := Triangle(Cross(c, iso, v0, v1), Cross(c, iso, v1, v3), Cross(c, iso, v2, v3));
      [first, Triangle(first.p0, Cross(c, iso, v0, v2), first.p2)]
    else
      [Triangle(Cross(c, iso, v3, v0), Cross(c, iso, v3, v2), Cross(c, iso, v3, v1))]
  }

  /** `trianglesMarchingTetrahedrons`: the cube cut into six tetrahedra
      around the diagonal from corner 0 to corner 6; at most two triangles
      each. */
  function TrianglesMarchingTetrahedrons(c: GridCell, iso: real): (ts: seq<Triangle>)
    requires c.Valid()
    ensures |ts| <= 12
  {
    TetrahedronTriangles(c, iso, 0, 2, 3, 7) + TetrahedronTriangles(c, iso, 0, 2, 6, 7)
    + TetrahedronTriangles(c, iso, 0, 4, 6, 7) + TetrahedronTriangles(c, iso, 0, 6, 1, 2)
    + TetrahedronTriangles(c, iso, 0, 6, 1, 4) + TetrahedronTriangles(c, iso, 5, 6, 1, 4)
  }

  /** A cell with every corner on the same side gives no tetrahedron
      triangles either. */
  lemma UniformCellHasNoTetrahedronTriangles(c: GridCell, iso: real)
    requires c.Valid()
    requires (forall i :: 0 <= i < 8 ==> c.values[i] < iso) || (forall i :: 0 <= i < 8 ==> c.values[i] >= iso)
    ensures TrianglesMarchingTetrahedrons(c, iso) == []
  {
  }

  // ---------------------------------------------------------------------
  // Triangulation of a cell

  /** The triangles with their flat normals. */
  function NormalizedAll(ts: seq<Triangle>): (r: seq<TriangleN>)
    ensures |r| == |ts| && forall i :: 0 <= i < |ts| ==> r[i] == NormalizeTriangle(ts[i])
  {
    seq(|ts|, i requires 0 <= i < |ts| => NormalizeTriangle(ts[i]))
  }

  /** The cell after `recalculateTriangles`. */
  function Triangulated(c: GridCell, tables: CubeTables, recalc: bool, l: Lattice, vs: seq<real>): (r: GridCell)
    requires c.Valid() && tables.Shaped()
    requires recalc ==> CellInRange(l, c.x, c.y, c.z) && |vs| == l.PointCount()
    ensures r.Valid() && r.x == c.x && r.y == c.y && r.z == c.z && r.isoLevel == c.isoLevel
    ensures r.points == c.points
    ensures r.values == if recalc then CornerValues(l, vs, c.x, c.y, c.z) else c.values
    ensures r.hasTriangles <==> r.triangles != []
    ensures |r.triangles| <= 5
    ensures forall m :: 0 <= m < |r.triangles| ==>
      var t := r.triangles[m]; t.p0.n == t.p1.n == t.p2.n == FlatNormal(Positions(t))
  {
    var c1 := if recalc then c.(values := CornerValues(l, vs, c.x, c.y, c.z), triangles := [], hasTriangles := true) else c;
    var ts := CubeTriangles(c1, tables, c1.isoLevel);
    c1.(triangles := NormalizedAll(ts), hasTriangles := ts != [])
  }

  /** A triangulated cell holds the marching-cubes triangles of its
      corner values, each with its flat normal. */
  lemma TriangulatedTriangles(c: GridCell, tables: CubeTables, recalc: bool, l: Lattice, vs: seq<real>)
    requires c.Valid() && tables.Shaped()
    requires recalc ==> CellInRange(l, c.x, c.y, c.z) && |vs| == l.PointCount()
    ensures var r := Triangulated(c, tables, recalc, l, vs);
      var ts := CubeTriangles(r, tables, r.isoLevel);
      |r.triangles| == |ts| &&
      forall i :: 0 <= i < |ts| ==>
        Positions(r.triangles[i]) == ts[i] && r.triangles[i].p0.n == FlatNormal(ts[i])
  {
  }

  /** The loop of `recalculateTriangles` giving each triangle its flat
      normal. */
  method NormalizeAll(ts: seq<Triangle>) returns (r: seq<TriangleN>)
    ensures r == NormalizedAll(ts)
  {
    r := [];
    var i := 0;
    while i < |ts|
      invariant 0 <= i <= |ts| && |r| == i
      invariant forall j :: 0 <= j < i ==> r[j] == NormalizeTriangle(ts[j])
    {
      r := r + [NormalizeTriangle(ts[i])];
      i := i + 1;
    }
  }

  /** `recalculateTriangles`: optionally reread the corner values, then
      store the marching-cubes triangles with their flat normals;
      `hasTriangles` tells whether there is any. */
  method RecalculateTriangles(c: GridCell, tables: CubeTables, recalc: bool, l: Lattice, vs: seq<real>)
    returns (r: GridCell)
    requires c.Valid() && tables.Shaped()
    requires recalc ==> CellInRange(l, c.x, c.y, c.z) && |vs| == l.PointCount()
    ensures r == Triangulated(c, tables, recalc, l, vs)
  {
    r := c;
    if recalc {
      r := RecalculatePointValues(r, l, vs);
    }
    var ts := TrianglesMarchingCubes(r, tables, r.isoLevel);
    r := r.(triangles := []);
    if |ts| < 1 {
      r := r.(hasTriangles := false);
    } else {
      var normalized := NormalizeAll(ts);
      r := r.(hasTriangles := true, triangles := normalized);
    }
  }
}
