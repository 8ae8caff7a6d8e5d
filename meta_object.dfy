// Meta-objects: the members of a field.  An expression meta-object takes
// its value at a point from a compiled expression in which the variables
// x, y and z stand for the point's coordinates; the other variables of the
// expression are the user's parameters.

module MetaObjects {

  import opened Wrappers
  import opened SpaceTypes
  import opened Grids
  import opened FieldObjects
  import opened Variables
  import opened PostfixTokens
  import opened PostfixExpression

  /** The names bound to a point's coordinates. */
  const Coordinates: set<string> := {"x", "y", "z"}

  /** The environment `valueAtPoint` evaluates in: registered x, y and z
      hold the point's coordinates, every other variable keeps its value,
      and no name is added. */
  function Bind(env: map<string, real>, p: Point): (r: map<string, real>)
    ensures r.Keys == env.Keys
    ensures "x" in env ==> r["x"] == p.x
    ensures "y" in env ==> r["y"] == p.y
    ensures "z" in env ==> r["z"] == p.z
    ensures forall n :: n in env && n !in Coordinates ==> r[n] == env[n]
  {
    map n | n in env :: if n == "x" then p.x else if n == "y" then p.y else if n == "z" then p.z else env[n]
  }

  /** What x, y and z held before does not matter: two environments that
      agree on every other variable give the same binding. */
  lemma BindForgetsCoordinates(env1: map<string, real>, env2: map<string, real>, p: Point)
    requires env1.Keys == env2.Keys
    requires forall n :: n in env1 && n !in Coordinates ==> env1[n] == env2[n]
    ensures Bind(env1, p) == Bind(env2, p)
  {
  }

  /** The compiled expression can be evaluated in any binding of its
      variables. */
  predicate Evaluable(ts: seq<PToken>, names: set<string>)
  {
    Bound(ts, names) && (ts != [] ==> Executable(ts))
  }

  /** The expression's value at a point. */
  function PointValue(m: MathLibrary, ts: seq<PToken>, env: map<string, real>, p: Point): real
    requires Evaluable(ts, env.Keys)
  {
    Value(m, ts, Bind(env, p))
  }

  /** `valueAtPoint` of an expression meta-object as a function of the
      point, for fixed variable values. */
  function ExpressionSampler(m: MathLibrary, ts: seq<PToken>, env: map<string, real>): (f: Point -> real)
    ensures Evaluable(ts, env.Keys) ==> forall p :: f(p) == PointValue(m, ts, env, p)
  {
    p => if Evaluable(ts, env.Keys) then PointValue(m, ts, env, p) else 0.0
  }

  /** The value of an expression that names no coordinate is the same at
      every point. */
  lemma PointValueWithoutCoordinates(m: MathLibrary, ts: seq<PToken>, env: map<string, real>, p: Point, q: Point)
    requires Evaluable(ts, env.Keys)
    requires forall n :: n in env ==> n !in Coordinates
    ensures PointValue(m, ts, env, p) == PointValue(m, ts, env, q)
  {
    assert Bind(env, p) == Bind(env, q);
  }

  /** The value of a compiled bracketed expression at a point is the
      expression's value with x, y and z bound to the coordinates. */
  lemma PointValueOfExpression(m: MathLibrary, e: Expr, env: map<string, real>, p: Point)
    requires Names(e) <= env.Keys
    ensures Evaluable(PostfixOf(e), env.Keys)
    ensures PointValue(m, PostfixOf(e), env, p) == Eval(m, e, Bind(env, p))
  {
    ValueOfExpression(m, e, Bind(env, p));
  }

  /** `CylinderMetaObject::valueAtPoint`: 900 divided by the squared
      distance from the origin, the distance squared being at least
      0.0001. */
  function CylinderValue(p: Point): (r: real)
    ensures 0.0 < r <= 9000000.0
    ensures var d2 := p.x * p.x + p.y * p.y + p.z * p.z;
      d2 >= 0.0001 ==> r * d2 == 900.0
  {
    var d2 := p.x * p.x + p.y * p.y + p.z * p.z;
    var d := if d2 < 0.0001 then 0.0001 else d2;
    900.0 / d
  }

  /** Near the origin the cylinder value is capped at 900 / 0.0001. */
  lemma CylinderCapped(p: Point)
    requires p.x * p.x + p.y * p.y + p.z * p.z < 0.0001
    ensures CylinderValue(p) == 9000000.0
  {
  }

  /** The cylinder value depends on the distance only: mirroring a point
      through the origin keeps it. */
  lemma CylinderSymmetric(p: Point)
    ensures CylinderValue(Point(-p.x, -p.y, -p.z)) == CylinderValue(p)
  {
    assert (-p.x) * (-p.x) == p.x * p.x;
    assert (-p.y) * (-p.y) == p.y * p.y;
    assert (-p.z) * (-p.z) == p.z * p.z;
  }

  /** Overwriting with the three coordinates is binding the point. */
  lemma OverwriteCoordinates(env: map<string, real>, p: Point)
    ensures Overwritten(env, map["x" := p.x, "y" := p.y, "z" := p.z]) == Bind(env, p)
  {
  }

  /** Storing the three coordinates into a map over at most x, y and z
      and overwriting an environment with it binds the point. */
  lemma CoordinatesOverwriteAll(t: map<string, real>, env: map<string, real>, p: Point)
    requires t.Keys <= Coordinates
    ensures var t' := t["x" := p.x]["y" := p.y]["z" := p.z];
      t'.Keys == Coordinates && Overwritten(env, t') == Bind(env, p)
  {
    assert t["x" := p.x]["y" := p.y]["z" := p.z] == map["x" := p.x, "y" := p.y, "z" := p.z];
    OverwriteCoordinates(env, p);
  }

  lemma RemoveCoordinates(vars: map<string, Cell>)
    ensures vars - {"x"} - {"y"} - {"z"} == vars - Coordinates
  {
  }

  /** A meta-object defined by a postfix expression.  `base` is its
      field-object part: the two grids and the current index. */
  class PostfixExprMetaObject {
    const base: FieldObject
    /** `fIsValid`: the expression parsed. */
    var isValid: bool
    /** `fPostfixExprPtr`, null until an expression is accepted. */
    var expr: PostfixExpr?
    /** `fVariablesManager`: the expression's variables. */
    var vm: VariablesManager
    /** `fUserVariablesManager`: the same cells without x, y and z. */
    var userVm: VariablesManager
    /** `fTemporaryVariables`: the coordinates last bound. */
    var temporaryVariables: map<string, real>

    ghost predicate Valid()
      reads this`isValid, this`expr, this`vm, this`userVm
      reads base, base.grid0, base.grid1, expr, vm, userVm
      reads if expr != null then {expr.vm} else {}
    {
      && base.Valid()
      && vm.Valid() && userVm.Valid()
      && (isValid <==> expr != null)
      && (expr != null ==>
            && expr.Valid() && expr.successfullyParsed
            && vm.vars == expr.vm.vars
            && userVm.vars == vm.vars - Coordinates
            && Evaluable(expr.postfix, expr.vm.vars.Keys))
    }

    /** `fTemporaryVariables` only ever holds the coordinates. */
    ghost predicate Bindable()
      reads this`temporaryVariables
    {
      temporaryVariables.Keys <= Coordinates
    }

    /** `valueAtPoint` as a function of the point, for the expression's
        current variable values. */
    function Sampler(m: MathLibrary): Point -> real
      requires expr != null
      reads this, expr, expr.vm, expr.vm.Cells()
    {
      ExpressionSampler(m, expr.postfix, expr.vm.Values())
    }

    /** A meta-object over fresh zeroed grids, holding `e` when `e` parsed;
        only then are the grid values computed. */
    constructor (xDim: nat, yDim: nat, zDim: nat, e: PostfixExpr, m: MathLibrary)
      requires MaxDimension(xDim, yDim, zDim) > 0
      requires e.Valid() && (e.successfullyParsed ==> Evaluable(e.postfix, e.vm.vars.Keys))
      ensures Valid() && Bindable() && fresh(base) && fresh(base.Repr())
      ensures isValid <==> e.successfullyParsed
      ensures base.GridLattice() == Uniform(xDim, yDim, zDim)
      ensures isValid ==> expr == e && base.CurrentValues() == base.GridLattice().Sampled(Sampler(m))
      ensures !isValid ==> base.CurrentValues() == Zeros(base.GridLattice().PointCount())
      ensures base.OtherValues() == Zeros(base.GridLattice().PointCount())
    {
      base := new FieldObject(xDim, yDim, zDim);
      isValid := false;
      expr := null;
      vm := new VariablesManager();
      userVm := new VariablesManager();
      temporaryVariables := map[];
      new;
      var accepted := SetPostfixExpression(e);
      isValid := accepted;
      if isValid {
        Recalculate(m);
      }
    }

    /** `setPostfixExpression`: take a parsed expression, share its
        variables, and keep a second registry of the same cells without x,
        y and z.  A failed expression is refused and nothing changes. */
    method SetPostfixExpression(e: PostfixExpr) returns (result: bool)
      requires e.Valid() && (e.successfullyParsed ==> Evaluable(e.postfix, e.vm.vars.Keys))
      requires vm.Valid() && userVm.Valid()
      modifies this`expr, this`vm, this`userVm
      ensures result <==> e.successfullyParsed
      ensures vm.Valid() && userVm.Valid()
      ensures result ==> expr == e && fresh(vm) && fresh(userVm)
      ensures result ==> vm.vars == e.vm.vars && userVm.vars == e.vm.vars - Coordinates
      ensures !result ==> expr == old(expr) && vm == old(vm) && userVm == old(userVm)
    {
      result := false;
      if e.successfullyParsed {
        expr := e;
        vm := e.VariablesManagerCopy();
        userVm := vm.Copy();
        var _ := userVm.RemoveVariable("x");
        var _ := userVm.RemoveVariable("y");
        var _ := userVm.RemoveVariable("z");
        RemoveCoordinates(e.vm.vars);
        result := true;
      }
    }

    /** `recalculate` (inherited): fill the current grid from
        `valueAtPoint`. */
    method Recalculate(m: MathLibrary)
      requires Valid() && isValid
      modifies base.Current().points
      ensures Valid()
      ensures base.GridLattice() == old(base.GridLattice())
      ensures base.CurrentValues() == base.GridLattice().Sampled(Sampler(m))
      ensures base.OtherValues() == old(base.OtherValues())
    {
      ghost var ts, env := expr.postfix, expr.vm.Values();
      base.Recalculate(Sampler(m));
      assert expr.postfix == ts && expr.vm.Values() == env;
    }

    /** `valueAtPoint`: write the coordinates into x, y and z (those the
        expression has) and evaluate.  Only the coordinate cells change. */
    method ValueAtPoint(m: MathLibrary, p: Point) returns (v: real)
      requires Valid() && isValid && Bindable()
      modifies this`temporaryVariables, vm.Cells()
      ensures Valid() && Bindable()
      ensures v == PointValue(m, expr.postfix, old(expr.vm.Values()), p)
      ensures expr.vm.Values() == Bind(old(expr.vm.Values()), p)
    {
      SharedValues(expr.vm, vm);
      BindCoordinates(p);
      SharedValues(expr.vm, vm);
      label bound:
      v := expr.Execute(m);
      ValuesUnchanged@bound(expr.vm);
    }

    /** The first half of `valueAtPoint`: the coordinates go through
        `fTemporaryVariables` into the registered coordinate cells. */
    method BindCoordinates(p: Point)
      requires vm.Valid() && Bindable()
      modifies this`temporaryVariables, vm.Cells()
      ensures temporaryVariables.Keys == Coordinates
      ensures vm.Values() == Bind(old(vm.Values()), p)
    {
      ghost var env := vm.Values();
      temporaryVariables := temporaryVariables["x" := p.x]["y" := p.y]["z" := p.z];
      ghost var t := temporaryVariables;
      CoordinatesOverwriteAll(old(temporaryVariables), env, p);
      assert vm.Values() == env;
      var _ := vm.SetVariableValues(temporaryVariables);
      assert temporaryVariables == t && vm.Values() == Overwritten(env, t);
    }

    /** `variablesManager`: the user's variables, sharing their cells with
        the expression, so a value set through the copy is the one the
        expression reads. */
    method UserVariables() returns (r: VariablesManager)
      requires Valid() && isValid
      ensures fresh(r) && r.Valid()
      ensures r.vars.Keys == expr.vm.vars.Keys - Coordinates
      ensures forall n :: n in r.vars ==> r.vars[n] == expr.vm.vars[n]
    {
      r := userVm.Copy();
    }

    /** `description`: the expression's infix string. */
    method Description(fmt: real -> string) returns (s: string)
      requires Valid() && isValid
      modifies expr`infixText
      ensures Valid()
      ensures s == PostfixExpression.Description(expr.infixOrdered, expr.vm.Values(), fmt)
    {
      s := expr.InfixString(fmt);
    }
  }
}
