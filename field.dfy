// The field: the sum of its meta-objects.  The field keeps its own pair of
// grids, whose current one holds the sum of the members' current grids; a
// member that changes is taken out of the sum with its old grid and put
// back with its new one.

module Fields {

  import opened SpaceTypes
  import opened Grids
  import opened FieldObjects
  import PostfixTokens
  import opened Variables
  import opened PostfixExpression
  import opened MetaObjects

  // ---------------------------------------------------------------------
  // Sums of samplers and of grids

  /** `Field::valueAtPoint`: the members' values at `p`, added in list
      order starting from zero. */
  function Total(fs: seq<Point -> real>, p: Point): real
  {
    if fs == [] then 0.0 else Total(fs[..|fs| - 1], p) + fs[|fs| - 1](p)
  }

  /** The field's `valueAtPoint` as a function of the point. */
  function SumSampler(fs: seq<Point -> real>): (f: Point -> real)
    ensures forall p :: f(p) == Total(fs, p)
  {
    p => Total(fs, p)
  }

  /** Sum of the `k`-th entries of equally long value lists. */
  function ColumnSum(vs: seq<seq<real>>, k: nat): real
    requires forall i :: 0 <= i < |vs| ==> k < |vs[i]|
  {
    if vs == [] then 0.0 else ColumnSum(vs[..|vs| - 1], k) + vs[|vs| - 1][k]
  }

  /** Element-wise sum of grids of `n` points each. */
  function GridSum(vs: seq<seq<real>>, n: nat): (s: seq<real>)
    requires forall i :: 0 <= i < |vs| ==> |vs[i]| == n
    ensures |s| == n
    ensures forall k :: 0 <= k < n ==> s[k] == ColumnSum(vs, k)
  {
    seq(n, k requires 0 <= k < n => ColumnSum(vs, k))
  }

  /** The sum of no grids is the zero grid. */
  lemma GridSumEmpty(n: nat)
    ensures GridSum([], n) == Zeros(n)
  {
  }

  /** Appending a grid adds it to the sum. */
  lemma GridSumAppend(vs: seq<seq<real>>, v: seq<real>, n: nat)
    requires forall i :: 0 <= i < |vs| ==> |vs[i]| == n
    requires |v| == n
    ensures GridSum(vs + [v], n) == Plus(GridSum(vs, n), v)
  {
    assert (vs + [v])[..|vs|] == vs;
  }

  /** Taking one column entry out of a sum, wherever it stands. */
  lemma {:induction false} ColumnSumRemove(vs: seq<seq<real>>, j: nat, k: nat)
    requires forall i :: 0 <= i < |vs| ==> k < |vs[i]|
    requires j < |vs|
    ensures ColumnSum(vs, k) == ColumnSum(vs[..j] + vs[j + 1..], k) + vs[j][k]
    decreases |vs|
  {
    var rest := vs[..j] + vs[j + 1..];
    if j < |vs| - 1 {
      var last := |vs| - 1;
      ColumnSumRemove(vs[..last], j, k);
      assert vs[..last][..j] + vs[..last][j + 1..] == rest[..|rest| - 1];
      assert rest[|rest| - 1] == vs[last];
    } else {
      assert rest == vs[..|vs| - 1];
    }
  }

  /** Removing the grid at `j` takes it out of the sum. */
  lemma GridSumRemove(vs: seq<seq<real>>, j: nat, n: nat)
    requires forall i :: 0 <= i < |vs| ==> |vs[i]| == n
    requires j < |vs|
    ensures GridSum(vs, n) == Plus(GridSum(vs[..j] + vs[j + 1..], n), vs[j])
  {
    forall k | 0 <= k < n
      ensures GridSum(vs, n)[k] == Plus(GridSum(vs[..j] + vs[j + 1..], n), vs[j])[k]
    {
      ColumnSumRemove(vs, j, k);
    }
  }

  /** Replacing the grid at `j` changes the sum by the difference. */
  lemma GridSumReplace(vs: seq<seq<real>>, j: nat, v: seq<real>, n: nat)
    requires forall i :: 0 <= i < |vs| ==> |vs[i]| == n
    requires j < |vs| && |v| == n
    ensures GridSum(vs[j := v], n) == Plus(Minus(GridSum(vs, n), vs[j]), v)
  {
    var ws := vs[j := v];
    assert ws[..j] + ws[j + 1..] == vs[..j] + vs[j + 1..];
    GridSumRemove(vs, j, n);
    GridSumRemove(ws, j, n);
    PlusThenMinus(GridSum(vs[..j] + vs[j + 1..], n), vs[j]);
  }

  /** `s` is the element-wise sum of the grids `vs`, each as long as `s`. */
  predicate IsSum(s: seq<real>, vs: seq<seq<real>>)
  {
    (forall i :: 0 <= i < |vs| ==> |vs[i]| == |s|) && s == GridSum(vs, |s|)
  }

  /** Adding a grid to the sum of a list is the sum of the list with the
      grid appended. */
  lemma SumAfterAdd(s: seq<real>, vs: seq<seq<real>>, v: seq<real>)
    requires IsSum(s, vs) && |v| == |s|
    ensures IsSum(Plus(s, v), vs + [v])
  {
    GridSumAppend(vs, v, |s|);
  }

  /** Subtracting a listed grid from the sum is the sum of the list
      without it. */
  lemma SumAfterRemove(s: seq<real>, vs: seq<seq<real>>, j: nat)
    requires IsSum(s, vs) && j < |vs|
    ensures IsSum(Minus(s, vs[j]), vs[..j] + vs[j + 1..])
  {
    GridSumRemove(vs, j, |s|);
    PlusThenMinus(GridSum(vs[..j] + vs[j + 1..], |s|), vs[j]);
  }

  /** Exchanging a listed grid for another in the sum is the sum of the
      list with the grid replaced. */
  lemma SumAfterReplace(s: seq<real>, vs: seq<seq<real>>, j: nat, v: seq<real>)
    requires IsSum(s, vs) && j < |vs| && |v| == |s|
    ensures IsSum(Plus(Minus(s, vs[j]), v), vs[j := v])
  {
    GridSumReplace(vs, j, v, |s|);
  }

  /** At every point, the sum of the samplers is the sum of their values. */
  lemma {:induction false} TotalIsColumnSum(l: Lattice, fs: seq<Point -> real>, vs: seq<seq<real>>, k: nat)
    requires |vs| == |fs| && k < l.PointCount()
    requires forall i :: 0 <= i < |vs| ==> |vs[i]| == l.PointCount() && vs[i] == l.Sampled(fs[i])
    ensures ColumnSum(vs, k) == Total(fs, l.PointAt(k))
    decreases |fs|
  {
    if fs != [] {
      TotalIsColumnSum(l, fs[..|fs| - 1], vs[..|vs| - 1], k);
    }
  }

  /** Sampling the sum of the samplers gives the sum of the sampled grids:
      refilling the field from its `valueAtPoint` and refilling every
      member from its own leaves the field equal to the sum. */
  lemma SampledSum(l: Lattice, fs: seq<Point -> real>, vs: seq<seq<real>>)
    requires |vs| == |fs|
    requires forall i :: 0 <= i < |vs| ==> |vs[i]| == l.PointCount() && vs[i] == l.Sampled(fs[i])
    ensures l.Sampled(SumSampler(fs)) == GridSum(vs, l.PointCount())
  {
    forall k | 0 <= k < l.PointCount()
      ensures l.Sampled(SumSampler(fs))[k] == GridSum(vs, l.PointCount())[k]
    {
      TotalIsColumnSum(l, fs, vs, k);
    }
  }

  // ---------------------------------------------------------------------
  // `QList::removeOne`

  /** Position of the first occurrence of `x`. */
  function FirstIndex<T(==)>(s: seq<T>, x: T): (k: nat)
    requires x in s
    ensures k < |s| && s[k] == x && x !in s[..k]
  {
    if s[0] == x then 0 else 1 + FirstIndex(s[1..], x)
  }

  /** `removeOne`: the list without its first occurrence of `x`, or the
      list itself when `x` is absent. */
  function RemoveFirst<T(==)>(s: seq<T>, x: T): (r: seq<T>)
    ensures x !in s ==> r == s
    ensures x in s ==> r == s[..FirstIndex(s, x)] + s[FirstIndex(s, x) + 1..]
  {
    if x in s then s[..FirstIndex(s, x)] + s[FirstIndex(s, x) + 1..] else s
  }

  /** `x` is in `s` exactly once. */
  predicate OccursOnce<T(==)>(s: seq<T>, x: T)
  {
    x in s && x !in s[FirstIndex(s, x) + 1..]
  }

  /** An element occurring once is at no index but its first. */
  lemma OccursOnceAt<T>(s: seq<T>, x: T, i: nat)
    requires OccursOnce(s, x) && i < |s| && i != FirstIndex(s, x)
    ensures s[i] != x
  {
    var k := FirstIndex(s, x);
    if i < k {
      assert s[i] in s[..k];
    } else {
      assert s[i] == s[k + 1..][i - k - 1];
    }
  }

  /** Removing an element takes exactly one occurrence of it out. */
  lemma RemoveFirstCount<T>(s: seq<T>, x: T)
    requires x in s
    ensures multiset(RemoveFirst(s, x)) == multiset(s) - multiset{x}
  {
    var k := FirstIndex(s, x);
    assert s == s[..k] + [x] + s[k + 1..];
  }

  /** Removing an element adds nothing. */
  lemma RemoveFirstWithin<T>(s: seq<T>, x: T)
    ensures forall y :: y in RemoveFirst(s, x) ==> y in s
  {
    if x in s {
      RemoveFirstCount(s, x);
      forall y | y in RemoveFirst(s, x)
        ensures y in s
      {
        assert y in multiset(RemoveFirst(s, x));
      }
    }
  }

  // ---------------------------------------------------------------------
  // Grid resizing, one operation for the four setters

  /** Which of the `setGrid...Dimention` setters. */
  datatype Side = AllSides | XSide | YSide | ZSide

  /** The setter's precondition: the new largest side is not zero. */
  predicate Resizable(l: Lattice, side: Side, dim: nat)
  {
    match side
    case AllSides => dim > 0
    case XSide => MaxDimension(dim, l.y.dim, l.z.dim) > 0
    case YSide => MaxDimension(l.x.dim, dim, l.z.dim) > 0
    case ZSide => MaxDimension(l.x.dim, l.y.dim, dim) > 0
  }

  /** The lattice after the setter. */
  function Resized(l: Lattice, side: Side, dim: nat): (r: Lattice)
    requires Resizable(l, side, dim)
    ensures side == AllSides ==> r == Uniform(dim, dim, dim)
    ensures side == XSide ==> r.y == l.y && r.z == l.z && r.x.dim == dim
    ensures side == YSide ==> r.x == l.x && r.z == l.z && r.y.dim == dim
    ensures side == ZSide ==> r.x == l.x && r.y == l.y && r.z.dim == dim
  {
    match side
    case AllSides => Uniform(dim, dim, dim)
    case XSide => l.(x := CentredAxis(dim, SideStep(dim, l.y.dim, l.z.dim)))
    case YSide => l.(y := CentredAxis(dim, SideStep(l.x.dim, dim, l.z.dim)))
    case ZSide => l.(z := CentredAxis(dim, SideStep(l.x.dim, l.y.dim, dim)))
  }

  /** Applying a setter twice with the same argument is applying it once. */
  lemma ResizedTwice(l: Lattice, side: Side, dim: nat)
    requires Resizable(l, side, dim)
    ensures Resizable(Resized(l, side, dim), side, dim)
    ensures Resized(Resized(l, side, dim), side, dim) == Resized(l, side, dim)
  {
  }

  /** One of the `FieldObject` setters, chosen by `side`. */
  method ResizeObject(o: FieldObject, side: Side, dim: nat, f: Point -> real)
    requires o.Valid() && Resizable(o.GridLattice(), side, dim)
    modifies o, o.grid0, o.grid1
    ensures o.Valid()
    ensures fresh(o.grid0.points) && fresh(o.grid1.points)
    ensures o.GridLattice() == Resized(old(o.GridLattice()), side, dim)
    ensures o.CurrentValues() == o.GridLattice().Sampled(f)
    ensures o.OtherValues() == Zeros(o.GridLattice().PointCount())
  {
    match side
    case AllSides => o.SetGridSidesDimention(dim, f);
    case XSide => o.SetGridXDimention(dim, f);
    case YSide => o.SetGridYDimention(dim, f);
    case ZSide => o.SetGridZDimention(dim, f);
  }

  // ---------------------------------------------------------------------
  // What the members' state is made of

  function MembersOf(mos: seq<PostfixExprMetaObject>): set<PostfixExprMetaObject>
  {
    set mo | mo in mos
  }

  function BasesOf(mos: seq<PostfixExprMetaObject>): set<FieldObject>
  {
    set mo | mo in mos :: mo.base
  }

  function GridsOf(mos: seq<PostfixExprMetaObject>): set<Grid>
  {
    (set mo | mo in mos :: mo.base.grid0) + (set mo | mo in mos :: mo.base.grid1)
  }

  function ArraysOf(mos: seq<PostfixExprMetaObject>): set<array<real>>
    reads BasesOf(mos), GridsOf(mos)
  {
    (set mo | mo in mos :: mo.base.grid0.points) + (set mo | mo in mos :: mo.base.grid1.points)
  }

  function ExprsOf(mos: seq<PostfixExprMetaObject>): set<PostfixExpr?>
    reads MembersOf(mos)
  {
    set mo | mo in mos :: mo.expr
  }

  function RegistriesOf(mos: seq<PostfixExprMetaObject>): set<VariablesManager>
    reads MembersOf(mos), ExprsOf(mos)
  {
    set mo | mo in mos && mo.expr != null :: mo.expr.vm
  }

  ghost function CellsOf(mos: seq<PostfixExprMetaObject>): set<Cell>
    reads MembersOf(mos), ExprsOf(mos), RegistriesOf(mos)
  {
    set mo, c | mo in mos && mo.expr != null && c in mo.expr.vm.Cells() :: c
  }

  /** Every member has an expression. */
  predicate AllValid(mos: seq<PostfixExprMetaObject>)
    reads MembersOf(mos)
  {
    forall mo :: mo in mos ==> mo.expr != null
  }

  /** The members' `valueAtPoint`s, in list order. */
  function SamplersOf(mos: seq<PostfixExprMetaObject>, m: PostfixTokens.MathLibrary): (fs: seq<Point -> real>)
    requires AllValid(mos)
    reads MembersOf(mos), ExprsOf(mos), RegistriesOf(mos), CellsOf(mos)
    ensures |fs| == |mos|
    ensures forall i :: 0 <= i < |mos| ==> fs[i] == mos[i].Sampler(m)
  {
    seq(|mos|, i requires 0 <= i < |mos| && mos[i].expr != null
                 reads MembersOf(mos), ExprsOf(mos), RegistriesOf(mos), CellsOf(mos)
                 => mos[i].Sampler(m))
  }

  /** The members' current grids, in list order. */
  ghost function CurrentsOf(mos: seq<PostfixExprMetaObject>): (vs: seq<seq<real>>)
    reads BasesOf(mos), GridsOf(mos), ArraysOf(mos)
    ensures |vs| == |mos|
    ensures forall i :: 0 <= i < |mos| ==> vs[i] == mos[i].base.CurrentValues()
  {
    seq(|mos|, i requires 0 <= i < |mos| reads BasesOf(mos), GridsOf(mos), ArraysOf(mos)
                 => mos[i].base.CurrentValues())
  }

  /** `b` is a valid field object and so is every member's, none of them
      sharing a grid with `b`; every member holds an expression. */
  ghost predicate Separated(b: FieldObject, mos: seq<PostfixExprMetaObject>)
    reads b, b.grid0, b.grid1, MembersOf(mos), BasesOf(mos), GridsOf(mos)
  {
    && b.Valid()
    && (forall mo :: mo in mos ==> mo.expr != null && mo.base.Valid() && b.Apart(mo.base))
  }

  /** Distinct members share no grid. */
  ghost predicate MembersApart(mos: seq<PostfixExprMetaObject>)
    reads GridsOf(mos)
  {
    forall mo, mo' :: mo in mos && mo' in mos && mo != mo' ==> mo.base.Apart(mo'.base)
  }

  /** Swapping the buffers of one valid field object and changing grid
      contents keeps `b` and the members separated. */
  twostate lemma SeparatedAfterSwap(new b: FieldObject, new mos: seq<PostfixExprMetaObject>, new o: FieldObject)
    requires old(allocated(b)) && old(allocated(mos))
    requires old(Separated(b, mos)) && o.Valid() && b != o
    requires unchanged(b, b.grid0, b.grid1, MembersOf(mos), GridsOf(mos))
    requires forall p :: p in BasesOf(mos) && p != o ==> unchanged(p)
    ensures Separated(b, mos)
  {
    assert b.Valid();
    forall mo | mo in mos
      ensures mo.expr != null && mo.base.Valid() && b.Apart(mo.base)
    {
      assert old(mo.expr != null && mo.base.Valid() && b.Apart(mo.base));
      assert mo.base in BasesOf(mos) && mo.base.grid0 in GridsOf(mos) && mo.base.grid1 in GridsOf(mos);
    }
  }

  lemma SeparatedAppend(b: FieldObject, mos: seq<PostfixExprMetaObject>, mo: PostfixExprMetaObject)
    requires Separated(b, mos) && mo.expr != null && mo.base.Valid() && b.Apart(mo.base)
    ensures Separated(b, mos + [mo])
  {
  }

  lemma SeparatedRemove(b: FieldObject, mos: seq<PostfixExprMetaObject>, mo: PostfixExprMetaObject)
    requires Separated(b, mos)
    ensures Separated(b, RemoveFirst(mos, mo))
  {
    RemoveFirstWithin(mos, mo);
  }

  lemma CurrentsAppend(mos: seq<PostfixExprMetaObject>, mo: PostfixExprMetaObject)
    ensures CurrentsOf(mos + [mo]) == CurrentsOf(mos) + [mo.base.CurrentValues()]
  {
  }

  /** The members' grids after `removeOne` are the old list's without the
      removed member's. */
  lemma CurrentsRemove(mos: seq<PostfixExprMetaObject>, mo: PostfixExprMetaObject)
    requires mo in mos
    ensures var k, vs := FirstIndex(mos, mo), CurrentsOf(mos);
      CurrentsOf(RemoveFirst(mos, mo)) == vs[..k] + vs[k + 1..]
  {
  }

  /** The field object `o` was resized from lattice `l` and refilled from
      `f`; its other grid was left zeroed. */
  ghost predicate Resampled(o: FieldObject, l: Lattice, side: Side, dim: nat, f: Point -> real)
    reads o, o.grid0, o.grid1, o.Current().points, o.Other().points
  {
    && o.Valid() && Resizable(l, side, dim)
    && o.GridLattice() == Resized(l, side, dim)
    && o.CurrentValues() == o.GridLattice().Sampled(f)
    && o.OtherValues() == Zeros(o.GridLattice().PointCount())
  }

  /** The members' lattices, in list order. */
  ghost function LatticesOf(mos: seq<PostfixExprMetaObject>): (ls: seq<Lattice>)
    reads BasesOf(mos), GridsOf(mos)
    ensures |ls| == |mos|
    ensures forall i :: 0 <= i < |mos| ==> ls[i] == mos[i].base.GridLattice()
  {
    seq(|mos|, i requires 0 <= i < |mos| reads BasesOf(mos), GridsOf(mos) => mos[i].base.GridLattice())
  }

  /** The resizing loop has handled the members before position `i`: a
      member met there was resized from its lattice `ls[k]` and refilled
      from its sampler `fs[k]`, any other one still has lattice `ls[k]`. */
  ghost predicate Progress(mos: seq<PostfixExprMetaObject>, ls: seq<Lattice>, fs: seq<Point -> real>, i: nat, side: Side, dim: nat)
    requires |ls| == |fs| == |mos| && i <= |mos|
    reads BasesOf(mos), GridsOf(mos), ArraysOf(mos)
  {
    forall k :: 0 <= k < |mos| ==>
      if mos[k] in mos[..i] then Resampled(mos[k].base, ls[k], side, dim, fs[k])
      else mos[k].base.GridLattice() == ls[k] && Resizable(ls[k], side, dim)
  }

  /** Equal members have equal entries in `ls` and `fs`, as lists
      computed member by member do. */
  ghost predicate Indexed(mos: seq<PostfixExprMetaObject>, ls: seq<Lattice>, fs: seq<Point -> real>)
    requires |ls| == |fs| == |mos|
  {
    forall j, k :: 0 <= j < |mos| && 0 <= k < |mos| && mos[j] == mos[k] ==> ls[j] == ls[k] && fs[j] == fs[k]
  }

  /** Before the loop, every member is still to be resized. */
  lemma ProgressStart(mos: seq<PostfixExprMetaObject>, fs: seq<Point -> real>, side: Side, dim: nat)
    requires |fs| == |mos|
    requires forall mo :: mo in mos ==> Resizable(mo.base.GridLattice(), side, dim)
    ensures Progress(mos, LatticesOf(mos), fs, 0, side, dim)
  {
    assert mos[..0] == [];
  }

  /** A field object whose state was not touched keeps what the loop
      knows of it. */
  twostate lemma Untouched(new o: FieldObject, new l: Lattice, new side: Side, new dim: nat, new f: Point -> real)
    requires old(allocated(o))
    requires unchanged(o, o.grid0, o.grid1)
    requires unchanged(o.grid0.points, o.grid1.points)
    ensures old(Resampled(o, l, side, dim, f)) ==> Resampled(o, l, side, dim, f)
    ensures o.GridLattice() == old(o.GridLattice())
  {
  }

  /** The state of the resizing loop before position `i`: `b` and every
      member keep their grids apart, `b` was resized from `bl` and refilled
      from `bf`, and the members before `i` are resized. */
  ghost predicate Resizing(b: FieldObject, bl: Lattice, bf: Point -> real, mos: seq<PostfixExprMetaObject>,
                           ls: seq<Lattice>, fs: seq<Point -> real>, i: nat, side: Side, dim: nat)
    requires |ls| == |fs| == |mos| && i <= |mos|
    reads b, b.grid0, b.grid1, b.Current().points, b.Other().points
    reads MembersOf(mos), BasesOf(mos), GridsOf(mos), ArraysOf(mos)
  {
    && Separated(b, mos) && MembersApart(mos) && Progress(mos, ls, fs, i, side, dim)
    && Resampled(b, bl, side, dim, bf)
  }

  /** At the end of the loop every member is resized. */
  lemma ResizingDone(b: FieldObject, bl: Lattice, bf: Point -> real, mos: seq<PostfixExprMetaObject>,
                     ls: seq<Lattice>, fs: seq<Point -> real>, side: Side, dim: nat)
    requires |ls| == |fs| == |mos| && Resizing(b, bl, bf, mos, ls, fs, |mos|, side, dim)
    ensures Separated(b, mos) && MembersApart(mos) && Resampled(b, bl, side, dim, bf)
    ensures forall k :: 0 <= k < |mos| ==> Resampled(mos[k].base, ls[k], side, dim, fs[k])
  {
    assert mos[..|mos|] == mos;
  }

  /** The lattices and samplers listed member by member are indexed. */
  lemma ListsIndexed(mos: seq<PostfixExprMetaObject>, m: PostfixTokens.MathLibrary)
    requires AllValid(mos)
    ensures Indexed(mos, LatticesOf(mos), SamplersOf(mos, m))
  {
  }

  /** The field object `b` is resized and refilled from `f` before any
      member; the members are untouched. */
  method ResizeBase(b: FieldObject, f: Point -> real, ghost mos: seq<PostfixExprMetaObject>, ghost ls: seq<Lattice>,
                    ghost fs: seq<Point -> real>, side: Side, dim: nat)
    requires |mos| == |ls| == |fs| && Resizable(b.GridLattice(), side, dim)
    requires Separated(b, mos) && MembersApart(mos) && Progress(mos, ls, fs, 0, side, dim)
    modifies b, b.grid0, b.grid1
    ensures Resizing(b, old(b.GridLattice()), f, mos, ls, fs, 0, side, dim)
  {
    ResizeObject(b, side, dim, f);
  }

  /** One turn of the resizing loop: the member at `i` is resized and
      refilled from `fs[i]`; the field object `b`, already resized from
      `bl` and refilled from `bf`, and the other members are untouched. */
  method ResizeMember(ghost b: FieldObject, ghost bl: Lattice, ghost bf: Point -> real,
                      ghost mos: seq<PostfixExprMetaObject>, ghost ls: seq<Lattice>,
                      fs: seq<Point -> real>, i: nat, mo: PostfixExprMetaObject, side: Side, dim: nat)
    requires i < |mos| == |ls| == |fs| && mo == mos[i] && Indexed(mos, ls, fs)
    requires Resizing(b, bl, bf, mos, ls, fs, i, side, dim)
    modifies mo.base, mo.base.grid0, mo.base.grid1
    ensures Resizing(b, bl, bf, mos, ls, fs, i + 1, side, dim)
  {
    ghost var l0 := mo.base.GridLattice();
    assert Resizable(l0, side, dim) && Resized(l0, side, dim) == Resized(ls[i], side, dim) by {
      ResizedTwice(ls[i], side, dim);
    }
    ResizeObject(mo.base, side, dim, fs[i]);
    Untouched(b, bl, side, dim, bf);
    ProgressAfterResize(mos, ls, fs, i, mo, side, dim);
    ApartAfterResize(b, mos, mo);
  }

  /** The member at `i` was resized and no other member's state changed:
      the loop has handled the members up to `i`. */
  twostate lemma ProgressAfterResize(new mos: seq<PostfixExprMetaObject>, new ls: seq<Lattice>, new fs: seq<Point -> real>,
                                     new i: nat, new mo: PostfixExprMetaObject, new side: Side, new dim: nat)
    requires i < |mos| == |ls| == |fs| && mo == mos[i] && Indexed(mos, ls, fs)
    requires old(allocated(mos)) && old(allocated(fs))
    requires old(MembersApart(mos) && Progress(mos, ls, fs, i, side, dim))
    requires Resampled(mo.base, ls[i], side, dim, fs[i])
    requires unchanged(MembersOf(mos))
    requires forall x :: x in mos && x != mo ==>
      unchanged(x.base, x.base.grid0, x.base.grid1) && unchanged(x.base.grid0.points, x.base.grid1.points)
    ensures Progress(mos, ls, fs, i + 1, side, dim)
  {
    assert mos[..i + 1] == mos[..i] + [mo];
    forall k | 0 <= k < |mos|
      ensures if mos[k] in mos[..i + 1] then Resampled(mos[k].base, ls[k], side, dim, fs[k])
        else mos[k].base.GridLattice() == ls[k] && Resizable(ls[k], side, dim)
    {
      if mos[k] == mo {
        assert ls[k] == ls[i] && fs[k] == fs[i];
      } else {
        Untouched(mos[k].base, ls[k], side, dim, fs[k]);
      }
    }
  }

  /** Resizing one member, whose new arrays are fresh, keeps every grid
      apart from every other. */
  twostate lemma ApartAfterResize(new b: FieldObject, new mos: seq<PostfixExprMetaObject>, new mo: PostfixExprMetaObject)
    requires old(allocated(b)) && old(allocated(mos))
    requires mo in mos && old(Separated(b, mos) && MembersApart(mos))
    requires unchanged(MembersOf(mos))
    requires unchanged(b, b.grid0, b.grid1) && unchanged(b.grid0.points, b.grid1.points)
    requires forall x :: x in mos && x != mo ==>
      unchanged(x.base, x.base.grid0, x.base.grid1) && unchanged(x.base.grid0.points, x.base.grid1.points)
    requires mo.base.Valid() && fresh(mo.base.grid0.points) && fresh(mo.base.grid1.points)
    ensures Separated(b, mos) && MembersApart(mos)
  {
    forall x | x in mos
      ensures x.expr != null && x.base.Valid() && b.Apart(x.base)
    {
    }
    forall x, y | x in mos && y in mos && x != y
      ensures x.base.Apart(y.base)
    {
      if x != mo && y != mo {
        assert old(x.base.Apart(y.base));
      }
    }
  }

  /** After a resize, the field's grid is the sum of its members' grids
      whenever all of them had the field's lattice, or the setter was
      `setGridSidesDimention`, which gives every grid the same lattice. */
  lemma ResizedIsSum(b: FieldObject, bl: Lattice, mos: seq<PostfixExprMetaObject>, ls: seq<Lattice>,
                     fs: seq<Point -> real>, side: Side, dim: nat)
    requires |ls| == |fs| == |mos|
    requires Resampled(b, bl, side, dim, SumSampler(fs))
    requires forall k :: 0 <= k < |mos| ==> Resampled(mos[k].base, ls[k], side, dim, fs[k])
    requires side == AllSides || forall k :: 0 <= k < |ls| ==> ls[k] == bl
    ensures forall k :: 0 <= k < |mos| ==>
      mos[k].base.GridLattice() == b.GridLattice() && |mos[k].base.CurrentValues()| == b.GridLattice().PointCount()
    ensures b.CurrentValues() == GridSum(CurrentsOf(mos), b.GridLattice().PointCount())
  {
    var l := b.GridLattice();
    var vs := CurrentsOf(mos);
    forall k | 0 <= k < |mos|
      ensures mos[k].base.GridLattice() == l && vs[k] == l.Sampled(fs[k])
    {
    }
    SampledSum(l, fs, vs);
  }

  /** The first half of `updateMetaObject`: swap, recalculate, swap back;
      the member's other grid now holds its expression's values. */
  method RefillOther(mo: PostfixExprMetaObject, m: PostfixTokens.MathLibrary)
    requires mo.Valid() && mo.isValid
    modifies mo.base`currentGridId, mo.base.grid0.points, mo.base.grid1.points
    ensures mo.Valid() && mo.base.currentGridId == old(mo.base.currentGridId)
    ensures mo.base.CurrentValues() == old(mo.base.CurrentValues())
    ensures mo.base.OtherValues() == mo.base.GridLattice().Sampled(mo.Sampler(m))
  {
    ghost var g, vs := mo.base.Current(), mo.base.CurrentValues();
    mo.base.SwapGrid();
    ghost var h := mo.base.Current();
    mo.Recalculate(m);
    ghost var ts, env := mo.expr.postfix, mo.expr.vm.Values();
    assert h.Values() == h.lattice.Sampled(ExpressionSampler(m, ts, env));
    assert g.Values() == vs;
    mo.base.SwapGrid();
    assert mo.expr.postfix == ts && mo.expr.vm.Values() == env;
  }

  /** Add `mo`'s current grid into `b`, which stays separated from the
      members `mos`, whose grids are untouched. */
  method AddMember(b: FieldObject, ghost mos: seq<PostfixExprMetaObject>, mo: PostfixExprMetaObject)
    requires Separated(b, mos) && mo.base.Valid() && b.Apart(mo.base)
    modifies b.Current().points
    ensures Separated(b, mos)
    ensures b.GridLattice() == old(b.GridLattice())
    ensures b.GridLattice().PointCount() == mo.base.GridLattice().PointCount() ==>
      b.CurrentValues() == Plus(old(b.CurrentValues()), old(mo.base.CurrentValues()))
    ensures b.GridLattice().PointCount() != mo.base.GridLattice().PointCount() ==>
      b.CurrentValues() == old(b.CurrentValues())
    ensures b.OtherValues() == old(b.OtherValues())
    ensures CurrentsOf(mos) == old(CurrentsOf(mos))
  {
    b.AddFieldObject(mo.base);
  }

  /** Subtract `mo`'s current grid from `b`, which stays separated from
      the members `rest`, whose grids are untouched. */
  method SubtractMember(b: FieldObject, ghost rest: seq<PostfixExprMetaObject>, mo: PostfixExprMetaObject)
    requires Separated(b, rest) && mo.base.Valid() && b.Apart(mo.base)
    modifies b.Current().points
    ensures Separated(b, rest)
    ensures b.GridLattice() == old(b.GridLattice())
    ensures b.GridLattice().PointCount() == mo.base.GridLattice().PointCount() ==>
      b.CurrentValues() == Minus(old(b.CurrentValues()), old(mo.base.CurrentValues()))
    ensures b.GridLattice().PointCount() != mo.base.GridLattice().PointCount() ==>
      b.CurrentValues() == old(b.CurrentValues())
    ensures b.OtherValues() == old(b.OtherValues())
    ensures CurrentsOf(rest) == old(CurrentsOf(rest))
  {
    b.SubtractFieldObject(mo.base);
  }

  /** The body of `removeMetaObject` on the field's own field object `b`
      and its members `mos`: `b` stays separated from the members left,
      and when `b`'s grid was the sum of the members' and `mo` is one of
      them, it is the sum of those left. */
  method RemoveMember(b: FieldObject, ghost mos: seq<PostfixExprMetaObject>, mo: PostfixExprMetaObject)
    requires Separated(b, mos) && mo.base.Valid() && b.Apart(mo.base)
    modifies b.Current().points
    ensures Separated(b, RemoveFirst(mos, mo))
    ensures b.GridLattice() == old(b.GridLattice())
    ensures b.GridLattice().PointCount() == mo.base.GridLattice().PointCount() ==>
      b.CurrentValues() == Minus(old(b.CurrentValues()), old(mo.base.CurrentValues()))
    ensures b.GridLattice().PointCount() != mo.base.GridLattice().PointCount() ==>
      b.CurrentValues() == old(b.CurrentValues())
    ensures b.OtherValues() == old(b.OtherValues())
    ensures CurrentsOf(RemoveFirst(mos, mo)) == old(CurrentsOf(RemoveFirst(mos, mo)))
    ensures old(IsSum(b.CurrentValues(), CurrentsOf(mos))) && mo in mos ==>
      IsSum(b.CurrentValues(), CurrentsOf(RemoveFirst(mos, mo)))
  {
    ghost var s, vs := b.CurrentValues(), CurrentsOf(mos);
    ghost var summed := IsSum(s, vs) && mo in mos;
    ghost var k := if summed then FirstIndex(mos, mo) else 0;
    if summed {
      CurrentsRemove(mos, mo);
      assert vs[k] == mo.base.CurrentValues();
      assert b.GridLattice().PointCount() == mo.base.GridLattice().PointCount();
    }
    SeparatedRemove(b, mos, mo);
    SubtractMember(b, RemoveFirst(mos, mo), mo);
    if summed {
      assert CurrentsOf(RemoveFirst(mos, mo)) == vs[..k] + vs[k + 1..];
      assert b.CurrentValues() == Minus(s, vs[k]);
      SumAfterRemove(s, vs, k);
    }
  }

  /** The body of `updateMetaObject` on the field's own field object `b`. */
  method ReplaceMember(b: FieldObject, mo: PostfixExprMetaObject, m: PostfixTokens.MathLibrary)
    requires b.Valid() && mo.Valid() && mo.isValid && b.Apart(mo.base)
    modifies mo.base`currentGridId, mo.base.grid0.points, mo.base.grid1.points, b.Current().points
    ensures b.Valid() && mo.Valid()
    ensures mo.base.currentGridId == Flipped(old(mo.base.currentGridId))
    ensures mo.base.CurrentValues() == mo.base.GridLattice().Sampled(mo.Sampler(m))
    ensures mo.base.OtherValues() == old(mo.base.CurrentValues())
    ensures b.GridLattice().PointCount() == mo.base.GridLattice().PointCount() ==>
      b.CurrentValues() == Plus(Minus(old(b.CurrentValues()), old(mo.base.CurrentValues())), mo.base.CurrentValues())
    ensures b.GridLattice().PointCount() != mo.base.GridLattice().PointCount() ==>
      b.CurrentValues() == old(b.CurrentValues())
    ensures b.OtherValues() == old(b.OtherValues())
  {
    RefillOther(mo, m);
    label refilled:
    Exchange(b, mo.base);
    ValuesUnchanged@refilled(mo.expr.vm);
  }

  /** `ReplaceMember` for a member `mo` of the list `mos`: `b` stays
      separated from the members, and when they share no grid every other
      member's grid keeps its values. */
  method UpdateMember(b: FieldObject, ghost mos: seq<PostfixExprMetaObject>, mo: PostfixExprMetaObject,
                      m: PostfixTokens.MathLibrary)
    requires Separated(b, mos) && mo.Valid() && mo.isValid && b.Apart(mo.base)
    modifies mo.base`currentGridId, mo.base.grid0.points, mo.base.grid1.points, b.Current().points
    ensures Separated(b, mos) && mo.Valid()
    ensures mo.base.currentGridId == Flipped(old(mo.base.currentGridId))
    ensures mo.base.CurrentValues() == mo.base.GridLattice().Sampled(mo.Sampler(m))
    ensures mo.base.OtherValues() == old(mo.base.CurrentValues())
    ensures b.GridLattice().PointCount() == mo.base.GridLattice().PointCount() ==>
      b.CurrentValues() == Plus(Minus(old(b.CurrentValues()), old(mo.base.CurrentValues())), mo.base.CurrentValues())
    ensures b.GridLattice().PointCount() != mo.base.GridLattice().PointCount() ==>
      b.CurrentValues() == old(b.CurrentValues())
    ensures b.OtherValues() == old(b.OtherValues())
    ensures old(MembersApart(mos)) && mo in mos ==>
      forall o :: o in mos && o != mo ==> o.base.CurrentValues() == old(o.base.CurrentValues())
  {
    ghost var apart := MembersApart(mos) && mo in mos;
    if apart {
      forall o | o in mos && o != mo
        ensures mo.base.Apart(o.base) && b.Apart(o.base)
      {
      }
    }
    ReplaceMember(b, mo, m);
    SeparatedAfterSwap(b, mos, mo.base);
    if apart {
      forall o | o in mos && o != mo
        ensures o.base.CurrentValues() == old(o.base.CurrentValues())
      {
        assert o.base.currentGridId == old(o.base.currentGridId);
        assert o.base.Current().points[..] == old(o.base.Current().points[..]);
      }
    }
  }

  /** Take `o`'s current grid out of `b`'s sum, make `o`'s other grid
      current and add it in. */
  method Exchange(b: FieldObject, o: FieldObject)
    requires b.Valid() && o.Valid() && b.Apart(o)
    modifies o`currentGridId, b.Current().points
    ensures b.Valid() && o.Valid()
    ensures o.currentGridId == Flipped(old(o.currentGridId))
    ensures o.GridLattice() == old(o.GridLattice())
    ensures o.CurrentValues() == old(o.OtherValues()) && o.OtherValues() == old(o.CurrentValues())
    ensures b.GridLattice().PointCount() == o.GridLattice().PointCount() ==>
      b.CurrentValues() == Plus(Minus(old(b.CurrentValues()), old(o.CurrentValues())), old(o.OtherValues()))
    ensures b.GridLattice().PointCount() != o.GridLattice().PointCount() ==>
      b.CurrentValues() == old(b.CurrentValues())
    ensures b.OtherValues() == old(b.OtherValues())
  {
    b.SubtractFieldObject(o);
    o.SwapGrid();
    b.AddFieldObject(o);
  }

  /** A field: its own field-object part and the list of its meta-objects. */
  class Field {
    const base: FieldObject
    /** `fIsoLevel`, set to 0 and never read. */
    var isoLevel: real
    /** `fMetaObjects`, in the order they were added. */
    var metaObjects: seq<PostfixExprMetaObject>

    /** The field's grids are none of its members'; every member holds an
        expression. */
    ghost predicate Valid()
      reads this, base, base.grid0, base.grid1
      reads MembersOf(metaObjects), BasesOf(metaObjects), GridsOf(metaObjects)
    {
      Separated(base, metaObjects)
    }

    /** The field's current grid is the sum of its members' current grids. */
    ghost predicate Summed()
      reads this, base, base.grid0, base.grid1, base.Current().points
      reads BasesOf(metaObjects), GridsOf(metaObjects), ArraysOf(metaObjects)
    {
      IsSum(base.CurrentValues(), CurrentsOf(metaObjects))
    }

    /** A field without meta-objects over fresh zeroed grids: the sum of no
        members' grids. */
    constructor (xDim: nat, yDim: nat, zDim: nat)
      requires MaxDimension(xDim, yDim, zDim) > 0
      ensures Valid() && fresh(base) && fresh(base.Repr())
      ensures metaObjects == [] && isoLevel == 0.0
      ensures base.GridLattice() == Uniform(xDim, yDim, zDim)
      ensures Summed()
    {
      base := new FieldObject(xDim, yDim, zDim);
      isoLevel := 0.0;
      metaObjects := [];
      new;
      GridSumEmpty(base.GridLattice().PointCount());
    }

    /** `addMetaObject`: add the member's current grid into the field's
        and append the member; every member's grid stays as it was.  A
        member with another point count leaves the field's grid alone. */
    method AddMetaObject(mo: PostfixExprMetaObject)
      requires Valid() && mo.expr != null && mo.base.Valid() && base.Apart(mo.base)
      modifies this`metaObjects, base.Current().points
      ensures Valid() && metaObjects == old(metaObjects) + [mo]
      ensures base.GridLattice() == old(base.GridLattice())
      ensures base.GridLattice().PointCount() == mo.base.GridLattice().PointCount() ==>
        base.CurrentValues() == Plus(old(base.CurrentValues()), old(mo.base.CurrentValues()))
      ensures base.GridLattice().PointCount() != mo.base.GridLattice().PointCount() ==>
        base.CurrentValues() == old(base.CurrentValues())
      ensures base.OtherValues() == old(base.OtherValues())
      ensures CurrentsOf(metaObjects) == old(CurrentsOf(metaObjects)) + [old(mo.base.CurrentValues())]
      ensures old(Summed()) && base.GridLattice().PointCount() == mo.base.GridLattice().PointCount() ==> Summed()
    {
      ghost var s, vs, v := base.CurrentValues(), CurrentsOf(metaObjects), mo.base.CurrentValues();
      ghost var summed := Summed();
      SeparatedAppend(base, metaObjects, mo);
      CurrentsAppend(metaObjects, mo);
      AddMember(base, metaObjects + [mo], mo);
      metaObjects := metaObjects + [mo];
      if summed && base.GridLattice().PointCount() == mo.base.GridLattice().PointCount() {
        AddKeepsSum(this, s, vs, v);
      }
    }


    /** `removeMetaObject`: subtract the member's current grid from the
        field's and drop its first occurrence from the list; the others'
        grids stay as they were.  The subtraction happens even when `mo`
        is not in the list. */
    method RemoveMetaObject(mo: PostfixExprMetaObject)
      requires Valid() && mo.base.Valid() && base.Apart(mo.base)
      modifies this`metaObjects, base.Current().points
      ensures Valid() && metaObjects == RemoveFirst(old(metaObjects), mo)
      ensures base.GridLattice() == old(base.GridLattice())
      ensures base.GridLattice().PointCount() == mo.base.GridLattice().PointCount() ==>
        base.CurrentValues() == Minus(old(base.CurrentValues()), old(mo.base.CurrentValues()))
      ensures base.GridLattice().PointCount() != mo.base.GridLattice().PointCount() ==>
        base.CurrentValues() == old(base.CurrentValues())
      ensures base.OtherValues() == old(base.OtherValues())
      ensures CurrentsOf(metaObjects) == old(CurrentsOf(RemoveFirst(metaObjects, mo)))
      ensures old(Summed()) && mo in old(metaObjects) ==> Summed()
    {
      RemoveMember(base, metaObjects, mo);
      metaObjects := RemoveFirst(metaObjects, mo);
    }

    /** `updateMetaObject`: refill the member's other grid from its
        expression and make it current, then replace the member's old grid
        by the new one in the field's sum. */
    method UpdateMetaObject(mo: PostfixExprMetaObject, m: PostfixTokens.MathLibrary)
      requires Valid() && mo.Valid() && mo.isValid && base.Apart(mo.base)
      modifies mo.base`currentGridId, mo.base.grid0.points, mo.base.grid1.points, base.Current().points
      ensures Valid() && mo.Valid()
      ensures mo.base.currentGridId == Flipped(old(mo.base.currentGridId))
      ensures mo.base.CurrentValues() == mo.base.GridLattice().Sampled(mo.Sampler(m))
      ensures mo.base.OtherValues() == old(mo.base.CurrentValues())
      ensures base.GridLattice().PointCount() == mo.base.GridLattice().PointCount() ==>
        base.CurrentValues()
          == Plus(Minus(old(base.CurrentValues()), old(mo.base.CurrentValues())), mo.base.CurrentValues())
      ensures base.GridLattice().PointCount() != mo.base.GridLattice().PointCount() ==>
        base.CurrentValues() == old(base.CurrentValues())
      ensures base.OtherValues() == old(base.OtherValues())
      ensures old(Summed() && MembersApart(metaObjects)) && OccursOnce(metaObjects, mo) ==> Summed()
    {
      ghost var s, vs := base.CurrentValues(), CurrentsOf(metaObjects);
      ghost var kept := Summed() && MembersApart(metaObjects) && OccursOnce(metaObjects, mo);
      ghost var k := if kept then FirstIndex(metaObjects, mo) else 0;
      UpdateMember(base, metaObjects, mo, m);
      if kept {
        forall i | 0 <= i < |vs| && i != k
          ensures metaObjects[i].base.CurrentValues() == vs[i]
        {
          OccursOnceAt(metaObjects, mo, i);
        }
        UpdateKeepsSum(this, s, vs, k);
      }
    }

    /** `setGridSidesDimention` and the `setGrid...Dimention` setters
        (chosen by `side`): the field's own grids are resized and refilled
        from the field's `valueAtPoint`, then every member's grids from its
        own `valueAtPoint`.  Resizing touches grids only, so the members'
        `valueAtPoint`s are those of the start.  Members sharing no grid is
        needed for the members to be resized independently. */
    method SetGridDimention(side: Side, dim: nat, m: PostfixTokens.MathLibrary)
      requires Valid() && MembersApart(metaObjects)
      requires Resizable(base.GridLattice(), side, dim)
      requires forall mo :: mo in metaObjects ==> Resizable(mo.base.GridLattice(), side, dim)
      modifies base, base.grid0, base.grid1, BasesOf(metaObjects), GridsOf(metaObjects)
      ensures Valid() && MembersApart(metaObjects)
      ensures Resampled(base, old(base.GridLattice()), side, dim, SumSampler(old(SamplersOf(metaObjects, m))))
      ensures forall k :: 0 <= k < |metaObjects| ==>
        Resampled(metaObjects[k].base, old(LatticesOf(metaObjects))[k], side, dim, old(SamplersOf(metaObjects, m))[k])
    {
      var fs := SamplersOf(metaObjects, m);
      ghost var ls := LatticesOf(metaObjects);
      ListsIndexed(metaObjects, m);
      ProgressStart(metaObjects, fs, side, dim);
      ghost var bl := base.GridLattice();
      ResizeBase(base, SumSampler(fs), metaObjects, ls, fs, side, dim);
      var i := 0;
      while i < |metaObjects|
        invariant 0 <= i <= |metaObjects|
        invariant Resizing(base, bl, SumSampler(fs), metaObjects, ls, fs, i, side, dim)
      {
        ResizeMember(base, bl, SumSampler(fs), metaObjects, ls, fs, i, metaObjects[i], side, dim);
        i := i + 1;
      }
      ResizingDone(base, bl, SumSampler(fs), metaObjects, ls, fs, side, dim);
    }

    /** `valueAtPoint`: the sum of the members' values at `p`. */
    method ValueAtPoint(m: PostfixTokens.MathLibrary, p: Point) returns (v: real)
      requires Valid()
      ensures v == Total(SamplersOf(metaObjects, m), p)
    {
      ghost var fs := SamplersOf(metaObjects, m);
      v := 0.0;
      var i := 0;
      while i < |metaObjects|
        invariant 0 <= i <= |metaObjects|
        invariant v == Total(fs[..i], p)
      {
        assert fs[..i + 1][..i] == fs[..i];
        v := v + metaObjects[i].Sampler(m)(p);
        i := i + 1;
      }
      assert fs[..i] == fs;
    }
  }

  // ---------------------------------------------------------------------
  // The field's grid is the sum of its members'

  /** The field's grid after `addMetaObject`: the sum `s` of the grids
      `vs` plus a grid `v` as long, over the list `vs` with `v` appended, is
      the sum of the members' grids. */
  lemma AddKeepsSum(f: Field, s: seq<real>, vs: seq<seq<real>>, v: seq<real>)
    requires IsSum(s, vs) && |v| == |s|
    requires f.base.CurrentValues() == Plus(s, v)
    requires CurrentsOf(f.metaObjects) == vs + [v]
    ensures f.Summed()
  {
    SumAfterAdd(s, vs, v);
  }

  /** The field's grid after `updateMetaObject`: the sum `s` of the grids
      `vs` with the grid at `k` exchanged for the member's new one, every
      other member's grid unchanged, is the sum of the members' grids. */
  lemma UpdateKeepsSum(f: Field, s: seq<real>, vs: seq<seq<real>>, k: nat)
    requires IsSum(s, vs) && k < |vs| == |f.metaObjects|
    requires forall i :: 0 <= i < |vs| && i != k ==> f.metaObjects[i].base.CurrentValues() == vs[i]
    requires |f.metaObjects[k].base.CurrentValues()| == |s|
    requires f.base.CurrentValues() == Plus(Minus(s, vs[k]), f.metaObjects[k].base.CurrentValues())
    ensures f.Summed()
  {
    var v := f.metaObjects[k].base.CurrentValues();
    assert CurrentsOf(f.metaObjects) == vs[k := v];
    SumAfterReplace(s, vs, k, v);
  }
}
