// The registry of named variables of an expression.  Each name is bound to
// a shared value cell; copies of a registry share the cells, so a value set
// through one copy is seen by every expression that reads the cell.

module Variables {

  import opened Wrappers

  /** The value wrapper around a shared `double`. */
  class Cell {
    var value: real

    constructor (v: real)
      ensures value == v
    {
      value := v;
    }
  }

  /** The order of the source's string keys: character by character, a
      proper prefix first. */
  predicate NameLess(a: string, b: string)
  {
    b != [] && (a == [] || a[0] < b[0] || (a[0] == b[0] && NameLess(a[1..], b[1..])))
  }

  lemma {:induction false} NameLessIrreflexive(a: string)
    ensures !NameLess(a, a)
  {
    if a != [] {
      NameLessIrreflexive(a[1..]);
    }
  }

  /** Any two different names are ordered one way or the other. */
  lemma {:induction false} NameLessTotal(a: string, b: string)
    ensures a == b || NameLess(a, b) || NameLess(b, a)
  {
    if a != [] && b != [] && a[0] == b[0] {
      NameLessTotal(a[1..], b[1..]);
      if a[1..] == b[1..] {
        assert a == [a[0]] + a[1..] && b == [b[0]] + b[1..];
      }
    }
  }

  lemma {:induction false} NameLessTransitive(a: string, b: string, c: string)
    ensures NameLess(a, b) && NameLess(b, c) ==> NameLess(a, c)
  {
    if a != [] && b != [] && c != [] && a[0] == b[0] && b[0] == c[0] {
      NameLessTransitive(a[1..], b[1..], c[1..]);
    }
  }

  /** Every non-empty set of names has a least one. */
  lemma {:induction false} LeastNameExists(s: set<string>)
    requires s != {}
    ensures exists n :: n in s && forall m :: m in s ==> !NameLess(m, n)
    decreases |s|
  {
    var x :| x in s;
    NameLessIrreflexive(x);
    if s == {x} {
      assert forall m :: m in s ==> m == x;
    } else {
      LeastNameExists(s - {x});
      var y :| y in s - {x} && forall m :: m in s - {x} ==> !NameLess(m, y);
      if NameLess(x, y) {
        forall m | m in s
          ensures !NameLess(m, x)
        {
          NameLessTransitive(m, x, y);
        }
      } else {
        assert forall m :: m in s ==> !NameLess(m, y);
      }
    }
  }

  class VariablesManager {
    /** The name-to-cell map (a sorted map in the source). */
    var vars: map<string, Cell>

    /** The cells this registry can reach. */
    ghost function Cells(): set<Cell>
      reads this
    {
      vars.Values
    }

    /** Different names are bound to different cells: every binding was made
        with a freshly allocated wrapper. */
    ghost predicate Valid()
      reads this
    {
      forall a, b :: a in vars && b in vars && a != b ==> vars[a] != vars[b]
    }

    /** The current value of every variable. */
    function Values(): (env: map<string, real>)
      reads this, Cells()
      ensures env.Keys == vars.Keys
      ensures forall n :: n in vars ==> env[n] == vars[n].value
    {
      map n | n in vars :: vars[n].value
    }

    constructor ()
      ensures Valid() && vars == map[]
    {
      vars := map[];
    }

    /** Copy construction: a new registry bound to the same cells. */
    method Copy() returns (r: VariablesManager)
      requires Valid()
      ensures fresh(r) && r.Valid() && r.vars == vars
    {
      r := new VariablesManager();
      r.vars := vars;
    }

    predicate ContainsVariable(name: string)
      reads this
    {
      name in vars
    }

    /** Value of a variable, or 0.0 for a name that is not registered. */
    function VariableValue(name: string): (v: real)
      reads this, Cells()
      ensures ContainsVariable(name) ==> v == Values()[name]
      ensures !ContainsVariable(name) ==> v == 0.0
    {
      if name in vars then vars[name].value else 0.0
    }

    /** The shared cell of a variable, or a null pointer for an unknown name. */
    function VariableValuePtr(name: string): (c: Option<Cell>)
      reads this
      ensures c.Some? <==> ContainsVariable(name)
      ensures c.Some? ==> c.value in Cells()
      ensures c.Some? ==> c.value == vars[name]
    {
      if name in vars then Some(vars[name]) else None
    }

    /** The registered names, each once, in the sorted map's ascending
        order. */
    method VariableNames() returns (names: seq<string>)
      ensures |names| == |vars.Keys|
      ensures forall n :: n in names <==> n in vars
      ensures forall i, j :: 0 <= i < j < |names| ==> names[i] != names[j]
      ensures forall i, j :: 0 <= i < j < |names| ==> NameLess(names[i], names[j])
    {
      names := [];
      var rest := vars.Keys;
      while rest != {}
        invariant rest <= vars.Keys
        invariant forall n :: n in names <==> n in vars.Keys - rest
        invariant forall i, j :: 0 <= i < j < |names| ==> names[i] != names[j]
        invariant forall i, j :: 0 <= i < j < |names| ==> NameLess(names[i], names[j])
        invariant forall i, m :: 0 <= i < |names| && m in rest ==> NameLess(names[i], m)
        invariant |names| + |rest| == |vars.Keys|
        decreases |rest|
      {
        LeastNameExists(rest);
        var n :| n in rest && forall m :: m in rest ==> !NameLess(m, n);
        forall m | m in rest - {n}
          ensures NameLess(n, m)
        {
          NameLessTotal(n, m);
        }
        assert n !in names;
        names := names + [n];
        rest := rest - {n};
      }
    }

    /** Set one variable: true, and the cell holds `value`, when the name is
        registered; false, and nothing changes, otherwise.  No other
        variable's value changes. */
    method SetVariableValue(name: string, value: real) returns (found: bool)
      requires Valid()
      modifies Cells()
      ensures found <==> ContainsVariable(name)
      ensures forall n :: n in vars ==>
        vars[n].value == if n == name then value else old(vars[n].value)
    {
      found := false;
      if name in vars {
        vars[name].value := value;
        found := true;
      }
    }

    /** Set every variable named in `values`; the count is how many of those
        names are registered.  Registered names absent from `values` keep
        their value, so the order in which the names are visited does not
        matter. */
    method SetVariableValues(values: map<string, real>) returns (count: int)
      requires Valid()
      modifies Cells()
      ensures count == |values.Keys * vars.Keys|
      ensures forall n :: n in vars ==>
        vars[n].value == if n in values then values[n] else old(vars[n].value)
      ensures Values() == Overwritten(old(Values()), values)
    {
      count := 0;
      var todo := values.Keys;
      while todo != {}
        invariant todo <= values.Keys
        invariant count + |todo * vars.Keys| == |values.Keys * vars.Keys|
        invariant forall n :: n in vars ==>
          vars[n].value == if n in todo || n !in values then old(vars[n].value) else values[n]
        decreases |todo|
      {
        var n :| n in todo;
        var found := SetVariableValue(n, values[n]);
        CountStep(todo - {n}, n, vars.Keys);
        assert todo - {n} + {n} == todo;
        if found { count := count + 1; }
        todo := todo - {n};
      }
      OverwrittenIs(old(Values()), Values(), values);
    }

    /** `addVariable`: bind `name` to a fresh cell holding `value`, replacing
        any earlier binding; always reports success. */
    method AddVariable(name: string, value: real) returns (added: bool)
      requires Valid()
      modifies this
      ensures Valid() && added
      ensures name in vars && fresh(vars[name]) && vars[name].value == value
      ensures vars - {name} == old(vars) - {name}
      ensures Values() == old(Values())[name := value]
    {
      var c := new Cell(value);
      vars := vars[name := c];
      added := true;
    }

    /** `removeVariable`: drop the binding; true exactly when there was one. */
    method RemoveVariable(name: string) returns (removed: bool)
      requires Valid()
      modifies this
      ensures Valid()
      ensures removed <==> name in old(vars)
      ensures vars == old(vars) - {name}
      ensures Values() == old(Values()) - {name}
    {
      removed := name in vars;
      vars := vars - {name};
    }
  }

  /** `env` with the names it shares with `values` set from `values`; no
      name is added. */
  function Overwritten(env: map<string, real>, values: map<string, real>): (r: map<string, real>)
    ensures r.Keys == env.Keys
    ensures forall n :: n in env ==> r[n] == if n in values then values[n] else env[n]
  {
    map n | n in env :: if n in values then values[n] else env[n]
  }

  lemma OverwrittenIs(env0: map<string, real>, env: map<string, real>, values: map<string, real>)
    requires env.Keys == env0.Keys
    requires forall n :: n in env ==> env[n] == if n in values then values[n] else env0[n]
    ensures env == Overwritten(env0, values)
  {
  }

  /** Registries that share their cells read the same values. */
  lemma SharedValues(a: VariablesManager, b: VariablesManager)
    requires a.vars == b.vars
    ensures a.Values() == b.Values()
  {
  }

  /** A registry whose map and cells are untouched reads the same values. */
  twostate lemma ValuesUnchanged(a: VariablesManager)
    requires unchanged(a) && unchanged(old(a.Cells()))
    ensures a.Values() == old(a.Values())
  {
  }

  lemma CountStep(done: set<string>, n: string, keys: set<string>)
    requires n !in done
    ensures |(done + {n}) * keys| == |done * keys| + if n in keys then 1 else 0
  {
    if n in keys {
      assert (done + {n}) * keys == (done * keys) + {n};
    } else {
      assert (done + {n}) * keys == done * keys;
    }
  }
}
