// The poligonizator of a field object: the grid cut into cells, the
// triangles of every cell at the iso-level, and the triangle list with
// flat normals (each triangle's own) or smooth normals (the mean over the
// triangles that share the vertex in the neighbouring cells).

module Poligonization {

  import opened SpaceTypes
  import opened Grids
  import opened Normalization
  import opened GridCells
  import opened FieldObjects

  // ---------------------------------------------------------------------
  // Cells of a lattice

  /** Every side has at least one point, so `dimention - 1` cells per
      side is not negative. */
  predicate HasCells(l: Lattice)
  {
    l.x.dim >= 1 && l.y.dim >= 1 && l.z.dim >= 1
  }

  /** The lattice of cell positions: one fewer along every side. */
  function CellLattice(l: Lattice): (cl: Lattice)
    requires HasCells(l)
    ensures cl.PointCount() == l.CellCount()
    ensures forall x: nat, y: nat, z: nat :: cl.InRange(x, y, z) <==> CellInRange(l, x, y, z)
  {
    l.(x := l.x.(dim := l.x.dim - 1), y := l.y.(dim := l.y.dim - 1), z := l.z.(dim := l.z.dim - 1))
  }

  /** `gridCellIndex`: the index of the cell at a position, or -1 when
      the position is outside the grid's cells. */
  function GridCellIndex(l: Lattice, x: int, y: int, z: int): (r: int)
    requires HasCells(l)
    ensures r == -1 <==> !(x >= 0 && y >= 0 && z >= 0 && CellInRange(l, x, y, z))
    ensures r >= 0 ==> r < l.CellCount() && r == CellLattice(l).PointIndex(x, y, z)
  {
    var xc, yc, zc := l.x.dim as int - 1, l.y.dim as int - 1, l.z.dim as int - 1;
    if x < 0 || y < 0 || z < 0 || x >= xc || y >= yc || z >= zc then -1
    else
      CellLattice(l).PositionOfIndex(x, y, z);
      xc * yc * z + xc * y + x
  }

  /** The cell at cell index `n` of a grid with values `vs`. */
  function CellAtIndex(l: Lattice, vs: seq<real>, n: nat): (c: GridCell)
    requires HasCells(l) && |vs| == l.PointCount() && n < l.CellCount()
    ensures c.Valid() && CellInRange(l, c.x, c.y, c.z) && CellLattice(l).PointIndex(c.x, c.y, c.z) == n
  {
    var cl := CellLattice(l);
    cl.IndexOfPosition(n);
    var (x, y, z) := cl.Position(n);
    CellAt(l, vs, x, y, z)
  }

  /** The cells `recalculateGridCells` lays out, in cell-index order. */
  function Tiling(l: Lattice, vs: seq<real>): (cs: seq<GridCell>)
    requires HasCells(l) && |vs| == l.PointCount()
    ensures |cs| == l.CellCount() && forall n :: 0 <= n < |cs| ==> cs[n] == CellAtIndex(l, vs, n)
  {
    seq(l.CellCount(), n requires 0 <= n < l.CellCount() => CellAtIndex(l, vs, n))
  }

  /** Cells in cell-index order over the lattice: one per cell position,
      each at its own index, and a cell with triangles says so. */
  predicate CellsShaped(cells: seq<GridCell>, l: Lattice)
    requires HasCells(l)
  {
    && |cells| == l.CellCount()
    && forall n :: 0 <= n < |cells| ==>
      && cells[n].Valid()
      && CellInRange(l, cells[n].x, cells[n].y, cells[n].z)
      && CellLattice(l).PointIndex(cells[n].x, cells[n].y, cells[n].z) == n
      && (cells[n].triangles != [] ==> cells[n].hasTriangles)
  }

  /** A fresh tiling is shaped. */
  lemma TilingShaped(l: Lattice, vs: seq<real>)
    requires HasCells(l) && |vs| == l.PointCount()
    ensures CellsShaped(Tiling(l, vs), l)
  {
  }

  /** The cells of a tiling of the samples of `f` hold `f` at their
      corner points. */
  lemma TilingSamples(l: Lattice, f: Point -> real)
    requires HasCells(l)
    ensures var cs := Tiling(l, l.Sampled(f));
      forall n, k :: 0 <= n < |cs| && 0 <= k < 8 ==> cs[n].values[k] == f(cs[n].points[k])
  {
    var vs := l.Sampled(f);
    var cs := Tiling(l, vs);
    forall n | 0 <= n < |cs|
      ensures forall k :: 0 <= k < 8 ==> cs[n].values[k] == f(cs[n].points[k])
    {
      var c := cs[n];
      CornerValuesAtPoints(l, f, c.x, c.y, c.z);
    }
  }

  /** The planes before plane `k` fit in the lattice. */
  lemma PlaneWithin(l: Lattice, k: nat)
    requires k <= l.z.dim
    ensures l.PointIndex(0, 0, k) <= l.PointCount()
  {
    MulMonotone(l.x.dim * l.y.dim, k, l.z.dim);
  }

  /** A row of an in-range plane ends inside the lattice. */
  lemma RowWithin(l: Lattice, j: nat, k: nat)
    requires j < l.y.dim && k < l.z.dim
    ensures l.PointIndex(l.x.dim, j, k) <= l.PointIndex(0, 0, k + 1) <= l.PointCount()
  {
    MulMonotone(l.x.dim, j + 1, l.y.dim);
    PlaneWithin(l, k + 1);
    assert l.x.dim * l.y.dim * (k + 1) == l.x.dim * l.y.dim * k + l.x.dim * l.y.dim;
  }

  /** Inner loop of `recalculateGridCells`: the cells of one row. */
  method TileRow(l: Lattice, vs: seq<real>, tiles: seq<GridCell>, y: nat, z: nat, start: nat)
    returns (r: seq<GridCell>, i: nat)
    requires HasCells(l) && |vs| == l.PointCount() && |tiles| == l.CellCount()
    requires y < l.y.dim - 1 && z < l.z.dim - 1 && start == CellLattice(l).PointIndex(0, y, z)
    requires start + (l.x.dim - 1) <= |tiles|
    requires forall n :: 0 <= n < start ==> tiles[n] == CellAtIndex(l, vs, n)
    ensures |r| == |tiles| && i == start + (l.x.dim - 1)
    ensures forall n :: 0 <= n < i ==> r[n] == CellAtIndex(l, vs, n)
  {
    var cl := CellLattice(l);
    r, i := tiles, start;
    var x := 0;
    while x < l.x.dim - 1
      invariant x <= l.x.dim - 1 && i == start + x && i == cl.PointIndex(x, y, z) && |r| == |tiles|
      invariant forall n :: 0 <= n < i ==> r[n] == CellAtIndex(l, vs, n)
    {
      cl.PositionOfIndex(x, y, z);
      var c := NewCell(l, vs, x, y, z);
      assert c == CellAtIndex(l, vs, i);
      r := r[i := c];
      i := i + 1;
      x := x + 1;
    }
  }

  /** `recalculateGridCells`: a cell for every position, z slowest and x
      fastest, each read from the grid. */
  method Tile(l: Lattice, vs: seq<real>) returns (cells: seq<GridCell>)
    requires HasCells(l) && |vs| == l.PointCount()
    ensures cells == Tiling(l, vs)
  {
    var cl := CellLattice(l);
    cells := seq(l.CellCount(), _ => DefaultCell());
    var i := 0;
    var z := 0;
    while z < l.z.dim - 1
      invariant z <= l.z.dim - 1 && i == cl.PointIndex(0, 0, z) && |cells| == l.CellCount() && i <= |cells|
      invariant forall n :: 0 <= n < i ==> cells[n] == CellAtIndex(l, vs, n)
    {
      var y := 0;
      while y < l.y.dim - 1
        invariant y <= l.y.dim - 1 && i == cl.PointIndex(0, y, z) && |cells| == l.CellCount() && i <= |cells|
        invariant forall n :: 0 <= n < i ==> cells[n] == CellAtIndex(l, vs, n)
      {
        RowWithin(cl, y, z);
        cells, i := TileRow(l, vs, cells, y, z, i);
        cl.RowEnd(y, z);
        y := y + 1;
      }
      cl.PlaneEnd(z);
      PlaneWithin(cl, z + 1);
      z := z + 1;
    }
    cl.LatticeEnd();
  }

  // ---------------------------------------------------------------------
  // Triangles of every cell

  /** Cells ready for triangulation: valid, and inside the lattice when
      their values are to be reread. */
  predicate Placed(cells: seq<GridCell>, l: Lattice, recalc: bool)
  {
    forall n :: 0 <= n < |cells| ==> cells[n].Valid() && (recalc ==> CellInRange(l, cells[n].x, cells[n].y, cells[n].z))
  }

  /** The cells after `recalculateTrianglesInGridCells`. */
  function Retriangulated(cells: seq<GridCell>, tables: CubeTables, iso: real, recalc: bool, l: Lattice, vs: seq<real>)
    : (r: seq<GridCell>)
    requires tables.Shaped() && Placed(cells, l, recalc) && |vs| == l.PointCount()
    ensures |r| == |cells|
    ensures forall n :: 0 <= n < |r| ==> r[n] == Triangulated(cells[n].(isoLevel := iso), tables, recalc, l, vs)
  {
    seq(|cells|, n requires 0 <= n < |cells| => Triangulated(cells[n].(isoLevel := iso), tables, recalc, l, vs))
  }

  /** Triangulation keeps the cells in place. */
  lemma RetriangulatedShaped(cells: seq<GridCell>, tables: CubeTables, iso: real, recalc: bool, l: Lattice, vs: seq<real>)
    requires HasCells(l) && CellsShaped(cells, l)
    requires tables.Shaped() && |vs| == l.PointCount()
    ensures Placed(cells, l, recalc) && CellsShaped(Retriangulated(cells, tables, iso, recalc, l, vs), l)
  {
  }

  /** After tiling the samples of `f` and triangulating, every cell still
      holds `f` at its corners, its triangles at the given level. */
  lemma RetriangulatedSamples(l: Lattice, f: Point -> real, tables: CubeTables, iso: real)
    requires HasCells(l) && tables.Shaped()
    ensures var vs := l.Sampled(f);
      var cs := Retriangulated(Tiling(l, vs), tables, iso, true, l, vs);
      forall n, k :: 0 <= n < |cs| && 0 <= k < 8 ==> cs[n].values[k] == f(cs[n].points[k]) && cs[n].isoLevel == iso
  {
    var vs := l.Sampled(f);
    TilingShaped(l, vs);
    TilingSamples(l, f);
  }

  /** `recalculateTrianglesInGridCells`: every cell gets the level and
      recomputes its triangles. */
  method TriangulateCells(cells: seq<GridCell>, tables: CubeTables, iso: real, recalc: bool, l: Lattice, vs: seq<real>)
    returns (r: seq<GridCell>)
    requires tables.Shaped() && Placed(cells, l, recalc) && |vs| == l.PointCount()
    ensures r == Retriangulated(cells, tables, iso, recalc, l, vs)
  {
    r := cells;
    var i := 0;
    while i < |cells|
      invariant 0 <= i <= |cells| && |r| == |cells|
      invariant forall n :: 0 <= n < i ==> r[n] == Triangulated(cells[n].(isoLevel := iso), tables, recalc, l, vs)
      invariant forall n :: i <= n < |cells| ==> r[n] == cells[n]
    {
      r := r[i := r[i].(isoLevel := iso)];
      var c := RecalculateTriangles(r[i], tables, recalc, l, vs);
      r := r[i := c];
      i := i + 1;
    }
  }

  // ---------------------------------------------------------------------
  // Flat normals

  /** The triangles of the first `n` cells, in cell order. */
  function FlatUpTo(cells: seq<GridCell>, n: nat): seq<TriangleN>
    requires n <= |cells|
  {
    if n == 0 then [] else FlatUpTo(cells, n - 1) + cells[n - 1].triangles
  }

  /** A triangle is in the flat list exactly when some cell has it. */
  lemma {:induction false} FlatMembers(cells: seq<GridCell>, n: nat, t: TriangleN)
    requires n <= |cells|
    ensures t in FlatUpTo(cells, n) <==> exists i :: 0 <= i < n && t in cells[i].triangles
  {
    if n > 0 {
      FlatMembers(cells, n - 1, t);
    }
  }

  /** At most five triangles a cell, so at most five times the cells. */
  lemma {:induction false} FlatCount(cells: seq<GridCell>, n: nat)
    requires n <= |cells| && forall i :: 0 <= i < |cells| ==> |cells[i].triangles| <= 5
    ensures |FlatUpTo(cells, n)| <= 5 * n
  {
    if n > 0 {
      FlatCount(cells, n - 1);
    }
  }

  /** One normal at all three corners: the triangle's own flat normal. */
  predicate FlatShaded(t: TriangleN)
  {
    t.p0.n == t.p1.n == t.p2.n == FlatNormal(Positions(t))
  }

  /** Cells whose triangles are flat shaded give a flat list of flat
      shaded triangles. */
  lemma {:induction false} FlatOfFlatCells(cells: seq<GridCell>, n: nat)
    requires n <= |cells|
    requires forall i, m :: 0 <= i < |cells| && 0 <= m < |cells[i].triangles| ==> FlatShaded(cells[i].triangles[m])
    ensures forall m :: 0 <= m < |FlatUpTo(cells, n)| ==> FlatShaded(FlatUpTo(cells, n)[m])
  {
    if n > 0 {
      FlatOfFlatCells(cells, n - 1);
      var prefix, last := FlatUpTo(cells, n - 1), cells[n - 1].triangles;
      forall m | 0 <= m < |prefix + last|
        ensures FlatShaded((prefix + last)[m])
      {
        if m >= |prefix| {
          assert (prefix + last)[m] == last[m - |prefix|];
        }
      }
    }
  }

  /** Triangulated cells give a flat list whose triangles each carry one
      normal at all three corners, their own flat normal. */
  lemma FlatListIsFlat(cells: seq<GridCell>, tables: CubeTables, iso: real, recalc: bool, l: Lattice, vs: seq<real>)
    requires tables.Shaped() && Placed(cells, l, recalc) && |vs| == l.PointCount()
    ensures var rs := Retriangulated(cells, tables, iso, recalc, l, vs);
      forall m :: 0 <= m < |FlatUpTo(rs, |rs|)| ==> FlatShaded(FlatUpTo(rs, |rs|)[m])
  {
    var rs := Retriangulated(cells, tables, iso, recalc, l, vs);
    forall i, m | 0 <= i < |rs| && 0 <= m < |rs[i].triangles|
      ensures FlatShaded(rs[i].triangles[m])
    {
      var c := Triangulated(cells[i].(isoLevel := iso), tables, recalc, l, vs);
      assert rs[i] == c;
    }
    FlatOfFlatCells(rs, |rs|);
  }

  /** `recalculateFlatNormalizedTriangles`: every cell's triangles
      appended in cell order. */
  method FlatNormalized(cells: seq<GridCell>) returns (ts: seq<TriangleN>)
    ensures ts == FlatUpTo(cells, |cells|)
  {
    ts := [];
    var i := 0;
    while i < |cells|
      invariant 0 <= i <= |cells| && ts == FlatUpTo(cells, i)
    {
      var cellTriangles := cells[i].triangles;
      var j := 0;
      while j < |cellTriangles|
        invariant 0 <= j <= |cellTriangles| && ts == FlatUpTo(cells, i) + cellTriangles[..j]
      {
        assert cellTriangles[..j + 1] == cellTriangles[..j] + [cellTriangles[j]];
        ts := ts + [cellTriangles[j]];
        j := j + 1;
      }
      assert cellTriangles[..j] == cellTriangles;
      i := i + 1;
    }
  }

  // ---------------------------------------------------------------------
  // Neighbours of a vertex

  /** The 3 x 3 x 3 block of cell offsets, numbered z slowest. */
  const Neighbourhood: Lattice := Lattice(Axis(3, 0.0, 0.0, 1.0), Axis(3, 0.0, 0.0, 1.0), Axis(3, 0.0, 0.0, 1.0))

  /** The offset with number `o`, each coordinate in -1 .. 1. */
  function Offset(o: nat): (r: (int, int, int))
    requires o < 27
    ensures -1 <= r.0 <= 1 && -1 <= r.1 <= 1 && -1 <= r.2 <= 1
  {
    Neighbourhood.IndexOfPosition(o);
    var (a, b, c) := Neighbourhood.Position(o);
    (a - 1, b - 1, c - 1)
  }

  /** The offsets are numbered as the loops of `adjacentTrianglesForVertex`
      visit them: `9 (z + 1) + 3 (y + 1) + (x + 1)`. */
  lemma OffsetNumber(x: int, y: int, z: int)
    requires -1 <= x <= 1 && -1 <= y <= 1 && -1 <= z <= 1
    ensures 9 * (z + 1) + 3 * (y + 1) + (x + 1) < 27 && Offset(9 * (z + 1) + 3 * (y + 1) + (x + 1)) == (x, y, z)
  {
    Neighbourhood.PositionOfIndex(x + 1, y + 1, z + 1);
  }

  /** The triangles of `ts` that have `p` as a vertex, in order. */
  function Filter(p: Point, ts: seq<TriangleN>): seq<TriangleN>
  {
    if ts == [] then []
    else Filter(p, ts[..|ts| - 1]) + if IsVertexN(p, ts[|ts| - 1]) then [ts[|ts| - 1]] else []
  }

  /** The filter keeps exactly the triangles having the vertex. */
  lemma {:induction false} FilterMembers(p: Point, ts: seq<TriangleN>, t: TriangleN)
    ensures t in Filter(p, ts) <==> t in ts && IsVertexN(p, t)
  {
    if ts != [] {
      var init := ts[..|ts| - 1];
      FilterMembers(p, init, t);
      assert ts == init + [ts[|ts| - 1]];
    }
  }

  /** The contribution of the cell at offset `o` from `cell`: its
      triangles having `p` as a vertex, when that cell exists and has
      triangles. */
  function Block(cells: seq<GridCell>, l: Lattice, p: Point, cell: GridCell, o: nat): seq<TriangleN>
    requires HasCells(l) && |cells| == l.CellCount() && o < 27
  {
    var (dx, dy, dz) := Offset(o);
    var index := GridCellIndex(l, cell.x + dx, cell.y + dy, cell.z + dz);
    if index >= 0 && cells[index].hasTriangles then Filter(p, cells[index].triangles) else []
  }

  /** The contributions of the first `n` offsets. */
  function AdjacentUpTo(cells: seq<GridCell>, l: Lattice, p: Point, cell: GridCell, n: nat): seq<TriangleN>
    requires HasCells(l) && |cells| == l.CellCount() && n <= 27
  {
    if n == 0 then [] else AdjacentUpTo(cells, l, p, cell, n - 1) + Block(cells, l, p, cell, n - 1)
  }

  /** What `adjacentTrianglesForVertex` collects. */
  function Adjacent(cells: seq<GridCell>, l: Lattice, p: Point, cell: GridCell): seq<TriangleN>
    requires HasCells(l) && |cells| == l.CellCount()
  {
    AdjacentUpTo(cells, l, p, cell, 27)
  }

  /** A block's triangles are among the collected ones. */
  lemma {:induction false} BlockInAdjacent(cells: seq<GridCell>, l: Lattice, p: Point, cell: GridCell, o: nat, n: nat,
                                           t: TriangleN)
    requires HasCells(l) && |cells| == l.CellCount() && o < n <= 27
    requires t in Block(cells, l, p, cell, o)
    ensures t in AdjacentUpTo(cells, l, p, cell, n)
  {
    if o < n - 1 {
      BlockInAdjacent(cells, l, p, cell, o, n - 1, t);
    }
  }

  /** Every collected triangle has `p` as a vertex. */
  lemma {:induction false} AdjacentHaveVertex(cells: seq<GridCell>, l: Lattice, p: Point, cell: GridCell, n: nat)
    requires HasCells(l) && |cells| == l.CellCount() && n <= 27
    ensures forall t :: t in AdjacentUpTo(cells, l, p, cell, n) ==> IsVertexN(p, t)
  {
    if n > 0 {
      AdjacentHaveVertex(cells, l, p, cell, n - 1);
      var (dx, dy, dz) := Offset(n - 1);
      var index := GridCellIndex(l, cell.x + dx, cell.y + dy, cell.z + dz);
      if index >= 0 && cells[index].hasTriangles {
        forall t | t in Filter(p, cells[index].triangles)
          ensures IsVertexN(p, t)
        {
          FilterMembers(p, cells[index].triangles, t);
        }
      }
    }
  }

  /** Corner `k` of a triangle. */
  function VertexOf(t: TriangleN, k: nat): PointN
    requires k < 3
  {
    if k == 0 then t.p0 else if k == 1 then t.p1 else t.p2
  }

  /** In shaped cells, a vertex of a cell's triangle finds that triangle
      among its neighbours: the offset (0, 0, 0) names the cell itself. */
  lemma AdjacentHasOwn(cells: seq<GridCell>, l: Lattice, i: nat, j: nat, k: nat)
    requires HasCells(l) && CellsShaped(cells, l)
    requires i < |cells| && j < |cells[i].triangles| && k < 3
    ensures var t := cells[i].triangles[j];
      t in Adjacent(cells, l, VertexOf(t, k).p, cells[i])
  {
    var c, t := cells[i], cells[i].triangles[j];
    var p := VertexOf(t, k).p;
    OffsetNumber(0, 0, 0);
    assert GridCellIndex(l, c.x, c.y, c.z) == i;
    CornersAreVertices(t);
    FilterMembers(p, c.triangles, t);
    assert t in Block(cells, l, p, c, 13);
    BlockInAdjacent(cells, l, p, c, 13, 27, t);
  }

  /** The inner loop of `adjacentTrianglesForVertex`. */
  method FilterVertex(p: Point, ts: seq<TriangleN>, acc: seq<TriangleN>) returns (r: seq<TriangleN>)
    ensures r == acc + Filter(p, ts)
  {
    r := acc;
    var i := 0;
    while i < |ts|
      invariant 0 <= i <= |ts| && r == acc + Filter(p, ts[..i])
    {
      assert ts[..i + 1][..i] == ts[..i];
      if IsVertexN(p, ts[i]) {
        r := r + [ts[i]];
      }
      i := i + 1;
    }
    assert ts[..i] == ts;
  }

  /** The offset `(x, y, z)` adds its cell's triangles having `p` as a
      vertex, when that cell exists and has triangles. */
  lemma AdjacentStep(cells: seq<GridCell>, l: Lattice, p: Point, cell: GridCell, x: int, y: int, z: int, o: nat)
    requires HasCells(l) && |cells| == l.CellCount() && -1 <= x <= 1 && -1 <= y <= 1 && -1 <= z <= 1
    requires o == 9 * (z + 1) + 3 * (y + 1) + (x + 1)
    ensures o < 27
    ensures var index := GridCellIndex(l, cell.x + x, cell.y + y, cell.z + z);
      if index >= 0 && cells[index].hasTriangles
      then AdjacentUpTo(cells, l, p, cell, o + 1) == AdjacentUpTo(cells, l, p, cell, o) + Filter(p, cells[index].triangles)
      else AdjacentUpTo(cells, l, p, cell, o + 1) == AdjacentUpTo(cells, l, p, cell, o)
  {
    OffsetNumber(x, y, z);
    var prev := AdjacentUpTo(cells, l, p, cell, o);
    assert prev + [] == prev;
  }

  /** The x loop of `adjacentTrianglesForVertex`: one row of offsets. */
  method AdjacentRow(cells: seq<GridCell>, l: Lattice, p: Point, cell: GridCell, y: int, z: int, ghost o: nat,
                     acc: seq<TriangleN>)
    returns (r: seq<TriangleN>)
    requires HasCells(l) && |cells| == l.CellCount() && -1 <= y <= 1 && -1 <= z <= 1
    requires o == 9 * (z + 1) + 3 * (y + 1)
    requires acc == AdjacentUpTo(cells, l, p, cell, o)
    ensures o + 3 <= 27 && r == AdjacentUpTo(cells, l, p, cell, o + 3)
  {
    r := acc;
    var x := -1;
    ghost var n: nat := o;
    while x < 2
      invariant -1 <= x <= 2 && n == o + (x + 1) <= 27
      invariant r == AdjacentUpTo(cells, l, p, cell, n)
    {
      AdjacentStep(cells, l, p, cell, x, y, z, n);
      var index := GridCellIndex(l, cell.x + x, cell.y + y, cell.z + z);
      if index >= 0 && cells[index].hasTriangles {
        r := FilterVertex(p, cells[index].triangles, r);
      }
      x, n := x + 1, n + 1;
    }
  }

  /** `adjacentTrianglesForVertex`: the triangles having `p` as a vertex
      in the cells around `cell`, and in `cell` itself, z slowest. */
  method AdjacentTrianglesForVertex(cells: seq<GridCell>, l: Lattice, p: Point, cell: GridCell)
    returns (r: seq<TriangleN>)
    requires HasCells(l) && |cells| == l.CellCount()
    ensures r == Adjacent(cells, l, p, cell)
  {
    r := [];
    var z := -1;
    ghost var n: nat := 0;
    while z < 2
      invariant -1 <= z <= 2 && n == 9 * (z + 1) <= 27
      invariant r == AdjacentUpTo(cells, l, p, cell, n)
    {
      r := AdjacentPlane(cells, l, p, cell, z, n, r);
      z, n := z + 1, n + 9;
    }
  }

  /** The y loop of `adjacentTrianglesForVertex`: one plane of offsets. */
  method AdjacentPlane(cells: seq<GridCell>, l: Lattice, p: Point, cell: GridCell, z: int, ghost o: nat,
                       acc: seq<TriangleN>)
    returns (r: seq<TriangleN>)
    requires HasCells(l) && |cells| == l.CellCount() && -1 <= z <= 1
    requires o == 9 * (z + 1)
    requires acc == AdjacentUpTo(cells, l, p, cell, o)
    ensures o + 9 <= 27 && r == AdjacentUpTo(cells, l, p, cell, o + 9)
  {
    r := acc;
    var y := -1;
    ghost var n: nat := o;
    while y < 2
      invariant -1 <= y <= 2 && n == o + 3 * (y + 1) <= 27
      invariant r == AdjacentUpTo(cells, l, p, cell, n)
    {
      r := AdjacentRow(cells, l, p, cell, y, z, n, r);
      y, n := y + 1, n + 3;
    }
  }

  // ---------------------------------------------------------------------
  // Smooth normals

  /** Corner `k` of triangle `j` of cell `i` with the mean normal of the
      triangles around it. */
  function SmoothVertex(cells: seq<GridCell>, l: Lattice, i: nat, j: nat, k: nat): (v: PointN)
    requires HasCells(l) && CellsShaped(cells, l)
    requires i < |cells| && j < |cells[i].triangles| && k < 3
    ensures v.p == VertexOf(cells[i].triangles[j], k).p
  {
    var t := cells[i].triangles[j];
    var p := VertexOf(t, k).p;
    AdjacentHasOwn(cells, l, i, j, k);
    PointN(p, MeanNormal(Adjacent(cells, l, p, cells[i])))
  }

  /** Triangle `j` of cell `i` with smooth normals. */
  function SmoothTriangle(cells: seq<GridCell>, l: Lattice, i: nat, j: nat): (t: TriangleN)
    requires HasCells(l) && CellsShaped(cells, l)
    requires i < |cells| && j < |cells[i].triangles|
    ensures Positions(t) == Positions(cells[i].triangles[j])
  {
    TriangleN(SmoothVertex(cells, l, i, j, 0), SmoothVertex(cells, l, i, j, 1), SmoothVertex(cells, l, i, j, 2))
  }

  /** The smooth triangles of cell `i`. */
  function SmoothCell(cells: seq<GridCell>, l: Lattice, i: nat): (ts: seq<TriangleN>)
    requires HasCells(l) && CellsShaped(cells, l) && i < |cells|
    ensures |ts| == |cells[i].triangles|
    ensures forall j :: 0 <= j < |ts| ==> ts[j] == SmoothTriangle(cells, l, i, j)
  {
    seq(|cells[i].triangles|, j requires 0 <= j < |cells[i].triangles| => SmoothTriangle(cells, l, i, j))
  }

  /** The smooth triangles of the first `n` cells, in cell order. */
  function SmoothUpTo(cells: seq<GridCell>, l: Lattice, n: nat): seq<TriangleN>
    requires HasCells(l) && CellsShaped(cells, l) && n <= |cells|
  {
    if n == 0 then [] else SmoothUpTo(cells, l, n - 1) + SmoothCell(cells, l, n - 1)
  }

  /** Smooth and flat lists hold the same triangles in the same order;
      only the normals differ. */
  lemma {:induction false} SmoothMatchesFlat(cells: seq<GridCell>, l: Lattice, n: nat)
    requires HasCells(l) && CellsShaped(cells, l) && n <= |cells|
    ensures var s, f := SmoothUpTo(cells, l, n), FlatUpTo(cells, n);
      |s| == |f| && forall m :: 0 <= m < |s| ==> Positions(s[m]) == Positions(f[m])
  {
    if n > 0 {
      SmoothMatchesFlat(cells, l, n - 1);
    }
  }

  /** When every triangle around a vertex has the normal `nv` at its
      first corner, the smooth normal there is `nv`. */
  lemma SmoothOfEqualNormals(cells: seq<GridCell>, l: Lattice, i: nat, j: nat, k: nat, nv: Point)
    requires HasCells(l) && CellsShaped(cells, l)
    requires i < |cells| && j < |cells[i].triangles| && k < 3
    requires var a := Adjacent(cells, l, VertexOf(cells[i].triangles[j], k).p, cells[i]);
      forall m :: 0 <= m < |a| ==> a[m].p0.n == nv
    ensures SmoothVertex(cells, l, i, j, k).n == nv
  {
    var p := VertexOf(cells[i].triangles[j], k).p;
    AdjacentHasOwn(cells, l, i, j, k);
    MeanOfEqualNormals(Adjacent(cells, l, p, cells[i]), nv);
  }

  /** The innermost loop of `recalculateSmoothNormalizedTriangles`: the
      three corners of one triangle. */
  method SmoothTriangleAt(cells: seq<GridCell>, l: Lattice, i: nat, j: nat) returns (t: TriangleN)
    requires HasCells(l) && CellsShaped(cells, l)
    requires i < |cells| && j < |cells[i].triangles|
    ensures t == SmoothTriangle(cells, l, i, j)
  {
    var triangle := cells[i].triangles[j];
    var corners: seq<PointN> := [triangle.p0, triangle.p1, triangle.p2];
    var k := 0;
    while k < 3
      invariant 0 <= k <= 3 && |corners| == 3
      invariant forall m :: 0 <= m < k ==> corners[m] == SmoothVertex(cells, l, i, j, m)
    {
      var p := VertexOf(triangle, k).p;
      var adjacent := AdjacentTrianglesForVertex(cells, l, p, cells[i]);
      AdjacentHasOwn(cells, l, i, j, k);
      var v := NormalizeVertex(p, adjacent);
      corners := corners[k := v];
      k := k + 1;
    }
    t := TriangleN(corners[0], corners[1], corners[2]);
  }

  /** `recalculateSmoothNormalizedTriangles`: every cell's triangles in
      cell order, each corner with its smooth normal. */
  method SmoothNormalized(cells: seq<GridCell>, l: Lattice) returns (ts: seq<TriangleN>)
    requires HasCells(l) && CellsShaped(cells, l)
    ensures ts == SmoothUpTo(cells, l, |cells|)
  {
    ts := [];
    var i := 0;
    while i < |cells|
      invariant 0 <= i <= |cells| && ts == SmoothUpTo(cells, l, i)
    {
      var count := |cells[i].triangles|;
      var j := 0;
      while j < count
        invariant 0 <= j <= count && ts == SmoothUpTo(cells, l, i) + SmoothCell(cells, l, i)[..j]
      {
        var t := SmoothTriangleAt(cells, l, i, j);
        assert SmoothCell(cells, l, i)[..j + 1] == SmoothCell(cells, l, i)[..j] + [t];
        ts := ts + [t];
        j := j + 1;
      }
      assert SmoothCell(cells, l, i)[..j] == SmoothCell(cells, l, i);
      i := i + 1;
    }
  }

  // ---------------------------------------------------------------------
  // The poligonizator

  /** `NormalMode`. */
  datatype NormalMode = Flat | Smooth

  class Poligonizator {
    var normalMode: NormalMode
    var isoLevel: real
    /** The field object whose current grid is cut into cells. */
    const fieldObject: FieldObject
    /** The marching-cubes tables. */
    const tables: CubeTables
    /** `fGridCells`. */
    var cells: seq<GridCell>
    /** The flat and the smooth triangle lists. */
    var flat: seq<TriangleN>
    var smooth: seq<TriangleN>

    /** A valid field object with at least one point along every side. */
    ghost predicate Valid()
      reads this, fieldObject, fieldObject.grid0, fieldObject.grid1
    {
      fieldObject.Valid() && tables.Shaped() && HasCells(fieldObject.GridLattice())
    }

    /** The cells are laid out over the field object's current lattice. */
    ghost predicate Tiled()
      reads this, fieldObject, fieldObject.grid0, fieldObject.grid1
    {
      Valid() && CellsShaped(cells, fieldObject.GridLattice())
    }

    /** `trianglesPtr`: the list of the current mode. */
    function Triangles(): seq<TriangleN>
      reads this
    {
      if normalMode == Flat then flat else smooth
    }

    /** The list the current mode draws from the cells. */
    ghost function Rendering(): seq<TriangleN>
      reads this, fieldObject, fieldObject.grid0, fieldObject.grid1
      requires Tiled()
    {
      if normalMode == Flat then FlatUpTo(cells, |cells|)
      else SmoothUpTo(cells, fieldObject.GridLattice(), |cells|)
    }

    /** `Poligonizator(fieldObject)`: flat mode, level 2, cells laid out
        and triangulated from the current grid; both lists are then reset
        to empty. */
    constructor (fo: FieldObject, tables: CubeTables)
      requires fo.Valid() && tables.Shaped() && HasCells(fo.GridLattice())
      ensures fieldObject == fo && this.tables == tables && Tiled()
      ensures normalMode == Flat && isoLevel == 2.0
      ensures var l, vs := fo.GridLattice(), fo.CurrentValues();
        cells == Retriangulated(Tiling(l, vs), tables, 2.0, true, l, vs)
      ensures flat == [] && smooth == []
    {
      var l, vs := fo.GridLattice(), fo.CurrentValues();
      var tiles := Tile(l, vs);
      TilingShaped(l, vs);
      var done := TriangulateCells(tiles, tables, 2.0, true, l, vs);
      RetriangulatedShaped(tiles, tables, 2.0, true, l, vs);
      normalMode := Flat;
      isoLevel := 2.0;
      fieldObject := fo;
      this.tables := tables;
      cells := done;
      flat := [];
      smooth := [];
    }

    /** `setIsoLevel`. */
    method SetIsoLevel(iso: real)
      modifies this`isoLevel
      ensures isoLevel == iso
    {
      isoLevel := iso;
    }

    /** `recalculateGridCells`. */
    method RecalculateGridCells()
      requires Valid()
      modifies this`cells
      ensures Tiled() && cells == Tiling(fieldObject.GridLattice(), fieldObject.CurrentValues())
      ensures fieldObject.GridLattice() == old(fieldObject.GridLattice())
      ensures fieldObject.CurrentValues() == old(fieldObject.CurrentValues())
    {
      var l, vs := fieldObject.GridLattice(), fieldObject.CurrentValues();
      cells := Tile(l, vs);
      TilingShaped(l, vs);
    }

    /** `recalculateTrianglesInGridCells`. */
    method RecalculateTrianglesInGridCells(recalc: bool)
      requires Tiled()
      modifies this`cells
      ensures Tiled()
      ensures var l, vs := fieldObject.GridLattice(), fieldObject.CurrentValues();
        cells == Retriangulated(old(cells), tables, isoLevel, recalc, l, vs)
      ensures fieldObject.GridLattice() == old(fieldObject.GridLattice())
      ensures fieldObject.CurrentValues() == old(fieldObject.CurrentValues())
    {
      var l, vs := fieldObject.GridLattice(), fieldObject.CurrentValues();
      RetriangulatedShaped(cells, tables, isoLevel, recalc, l, vs);
      cells := TriangulateCells(cells, tables, isoLevel, recalc, l, vs);
    }

    /** `recalculateNormalizedTriangles`: rebuild the list of the current
        mode; the other keeps its contents. */
    method RecalculateNormalizedTriangles()
      requires Tiled()
      modifies this`flat, this`smooth
      ensures Tiled() && Triangles() == Rendering()
      ensures normalMode == Flat ==> smooth == old(smooth)
      ensures normalMode == Smooth ==> flat == old(flat)
      ensures fieldObject.GridLattice() == old(fieldObject.GridLattice())
      ensures fieldObject.CurrentValues() == old(fieldObject.CurrentValues())
    {
      if normalMode == Flat {
        flat := FlatNormalized(cells);
      } else {
        smooth := SmoothNormalized(cells, fieldObject.GridLattice());
      }
    }

    /** `setNormalMode`: a change of mode rebuilds the list of the new
        mode. */
    method SetNormalMode(mode: NormalMode)
      requires Tiled()
      modifies this`normalMode, this`flat, this`smooth
      ensures Tiled() && normalMode == mode
      ensures old(normalMode) != mode ==> Triangles() == Rendering()
      ensures old(normalMode) == mode ==> flat == old(flat) && smooth == old(smooth)
    {
      if normalMode != mode {
        normalMode := mode;
        RecalculateNormalizedTriangles();
      }
    }

    /** `recalculateTriangles`: lay out the cells again when the grid's
        dimensions changed, triangulate every cell at the level, and
        rebuild the list of the current mode. */
    method RecalculateTriangles(gridChanged: bool, recalc: bool)
      requires Valid() && (gridChanged || Tiled())
      modifies this`cells, this`flat, this`smooth
      ensures Tiled() && Triangles() == Rendering()
      ensures var l, vs := fieldObject.GridLattice(), fieldObject.CurrentValues();
        var before := if gridChanged then Tiling(l, vs) else old(cells);
        cells == Retriangulated(before, tables, isoLevel, recalc, l, vs)
      ensures normalMode == Flat ==> smooth == old(smooth)
      ensures normalMode == Smooth ==> flat == old(flat)
    {
      if gridChanged {
        RecalculateGridCells();
      }
      RecalculateTrianglesInGridCells(recalc);
      RecalculateNormalizedTriangles();
    }
  }
}
