// A field object keeps two grids of the same lattice: the current one holds
// its values now, the other one the values before the last change, so a
// change can be applied to a sum of objects by subtracting the old grid and
// adding the new one.

module FieldObjects {

  import opened SpaceTypes
  import opened Grids

  /** The other buffer index. */
  function Flipped(id: nat): (r: nat)
    requires id <= 1
    ensures r <= 1 && r != id
  {
    if id == 0 then 1 else 0
  }

  /** Two swaps are the identity. */
  lemma FlipTwice(id: nat)
    requires id <= 1
    ensures Flipped(Flipped(id)) == id
  {
  }

  class FieldObject {
    /** `fCurrentGridId`: which of the two grids is current. */
    var currentGridId: nat
    /** `fGrid[0]` and `fGrid[1]`; only `useExternalGrid`, which is not
        modelled, ever replaces one, so here they are fixed. */
    const grid0: Grid
    const grid1: Grid

    function Repr(): set<object>
      reads grid0, grid1
    {
      {this, grid0, grid0.points, grid1, grid1.points}
    }

    /** Two separate grids and a current index of 0 or 1. */
    ghost predicate Separate()
      reads this, grid0, grid1
    {
      && currentGridId <= 1
      && grid0 != grid1 && grid0.points != grid1.points
      && grid0.Valid() && grid1.Valid()
    }

    /** Two separate grids over one lattice. */
    ghost predicate Valid()
      reads this, grid0, grid1
    {
      Separate() && grid0.lattice == grid1.lattice
    }

    /** No object of this field object's state is one of `o`'s. */
    ghost predicate Apart(o: FieldObject)
      reads grid0, grid1, o.grid0, o.grid1
    {
      && this != o
      && grid0 != o.grid0 && grid0 != o.grid1 && grid1 != o.grid0 && grid1 != o.grid1
      && grid0.points != o.grid0.points && grid0.points != o.grid1.points
      && grid1.points != o.grid0.points && grid1.points != o.grid1.points
    }

    /** `grid()`: the buffer at the current index. */
    function Current(): (g: Grid)
      reads this
      ensures g == if currentGridId == 0 then grid0 else grid1
    {
      if currentGridId == 0 then grid0 else grid1
    }

    /** The buffer that is not current. */
    function Other(): (g: Grid)
      reads this
      ensures g == if currentGridId == 0 then grid1 else grid0
    {
      if currentGridId == 0 then grid1 else grid0
    }

    function CurrentValues(): seq<real>
      reads this, grid0, grid1, Current().points
    {
      Current().Values()
    }

    function OtherValues(): seq<real>
      reads this, grid0, grid1, Other().points
    {
      Other().Values()
    }

    function GridLattice(): Lattice
      reads this, grid0, grid1
    {
      Current().lattice
    }

    /** Two zero-filled grids of the requested dimensions; the first one is
        current. */
    constructor (xDim: nat, yDim: nat, zDim: nat)
      requires MaxDimension(xDim, yDim, zDim) > 0
      ensures Valid() && fresh(Repr())
      ensures currentGridId == 0
      ensures GridLattice() == Uniform(xDim, yDim, zDim)
      ensures CurrentValues() == OtherValues() == Zeros(GridLattice().PointCount())
    {
      currentGridId := 0;
      grid0 := new Grid(xDim, yDim, zDim);
      grid1 := new Grid(xDim, yDim, zDim);
    }

    /** `swapGrid`: the other buffer becomes current. */
    method SwapGrid()
      modifies this`currentGridId
      requires Separate()
      ensures Separate() && (old(Valid()) ==> Valid())
      ensures currentGridId == Flipped(old(currentGridId))
      ensures Current() == old(Other()) && Other() == old(Current())
    {
      currentGridId := if currentGridId == 0 then 1 else 0;
    }

    /** `recalculate`: fill the current buffer with the object's values
        (`f` is the object's `valueAtPoint`); the other buffer keeps its
        values. */
    method Recalculate(f: Point -> real)
      requires Valid()
      modifies Current().points
      ensures Valid()
      ensures CurrentValues() == GridLattice().Sampled(f)
      ensures OtherValues() == old(OtherValues())
    {
      Current().Fill(f);
    }

    /** `addFieldObject`: add the other object's current buffer into this
        object's current buffer (a no-op when the point counts differ). */
    method AddFieldObject(other: FieldObject)
      requires Valid() && other.Valid()
      modifies Current().points
      ensures Valid()
      ensures GridLattice().PointCount() == other.GridLattice().PointCount() ==>
        CurrentValues() == Plus(old(CurrentValues()), old(other.CurrentValues()))
      ensures GridLattice().PointCount() != other.GridLattice().PointCount() ==>
        CurrentValues() == old(CurrentValues())
      ensures OtherValues() == old(OtherValues())
    {
      Current().AddGrid(other.Current());
    }

    /** `subtractFieldObject`: as `AddFieldObject` with subtraction. */
    method SubtractFieldObject(other: FieldObject)
      requires Valid() && other.Valid()
      modifies Current().points
      ensures Valid()
      ensures GridLattice().PointCount() == other.GridLattice().PointCount() ==>
        CurrentValues() == Minus(old(CurrentValues()), old(other.CurrentValues()))
      ensures GridLattice().PointCount() != other.GridLattice().PointCount() ==>
        CurrentValues() == old(CurrentValues())
      ensures OtherValues() == old(OtherValues())
    {
      Current().SubtractGrid(other.Current());
    }

    /** `setGridSidesDimention`: resize the current buffer, swap, resize the
        new current buffer and refill it.  The old buffer is left zeroed. */
    method SetGridSidesDimention(dim: nat, f: Point -> real)
      requires Valid() && dim > 0
      modifies this, grid0, grid1
      ensures Valid()
      ensures fresh(grid0.points) && fresh(grid1.points)
      ensures currentGridId == Flipped(old(currentGridId))
      ensures GridLattice() == Uniform(dim, dim, dim)
      ensures CurrentValues() == GridLattice().Sampled(f)
      ensures OtherValues() == Zeros(GridLattice().PointCount())
    {
      var g, h := Current(), Other();
      g.SetSidesDimention(dim);
      SwapGrid();
      h.SetSidesDimention(dim);
      Recalculate(f);
    }

    /** `setGridXDimention`: as `SetGridSidesDimention` with the grids'
        `setXDimention`. */
    method SetGridXDimention(dim: nat, f: Point -> real)
      requires Valid() && MaxDimension(dim, GridLattice().y.dim, GridLattice().z.dim) > 0
      modifies this, grid0, grid1
      ensures Valid()
      ensures fresh(grid0.points) && fresh(grid1.points)
      ensures currentGridId == Flipped(old(currentGridId))
      ensures var l := old(GridLattice());
        GridLattice() == l.(x := CentredAxis(dim, SideStep(dim, l.y.dim, l.z.dim)))
      ensures CurrentValues() == GridLattice().Sampled(f)
      ensures OtherValues() == Zeros(GridLattice().PointCount())
    {
      var g, h := Current(), Other();
      g.SetXDimention(dim);
      SwapGrid();
      h.SetXDimention(dim);
      Recalculate(f);
    }

    /** `setGridYDimention`. */
    method SetGridYDimention(dim: nat, f: Point -> real)
      requires Valid() && MaxDimension(GridLattice().x.dim, dim, GridLattice().z.dim) > 0
      modifies this, grid0, grid1
      ensures Valid()
      ensures fresh(grid0.points) && fresh(grid1.points)
      ensures currentGridId == Flipped(old(currentGridId))
      ensures var l := old(GridLattice());
        GridLattice() == l.(y := CentredAxis(dim, SideStep(l.x.dim, dim, l.z.dim)))
      ensures CurrentValues() == GridLattice().Sampled(f)
      ensures OtherValues() == Zeros(GridLattice().PointCount())
    {
      var g, h := Current(), Other();
      g.SetYDimention(dim);
      SwapGrid();
      h.SetYDimention(dim);
      Recalculate(f);
    }

    /** `setGridZDimention`. */
    method SetGridZDimention(dim: nat, f: Point -> real)
      requires Valid() && MaxDimension(GridLattice().x.dim, GridLattice().y.dim, dim) > 0
      modifies this, grid0, grid1
      ensures Valid()
      ensures fresh(grid0.points) && fresh(grid1.points)
      ensures currentGridId == Flipped(old(currentGridId))
      ensures var l := old(GridLattice());
        GridLattice() == l.(z := CentredAxis(dim, SideStep(l.x.dim, l.y.dim, dim)))
      ensures CurrentValues() == GridLattice().Sampled(f)
      ensures OtherValues() == Zeros(GridLattice().PointCount())
    {
      var g, h := Current(), Other();
      g.SetZDimention(dim);
      SwapGrid();
      h.SetZDimention(dim);
      Recalculate(f);
    }
  }
}
