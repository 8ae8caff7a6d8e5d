// A compiled expression: the infix text is scanned, every lexeme becomes a
// postfix token (registering each new variable name), the tokens are put
// in postfix order, and the postfix list is executed against the current
// values of the variables.

module PostfixExpression {

  import opened Wrappers
  import opened InfixLexer
  import opened PostfixTokens
  import opened Variables

  /** The value returned for an empty postfix list: the smallest positive
      normalised double. */
  const DoubleMin: real := 2.2250738585072014e-308

  // ---------------------------------------------------------------------
  // From lexemes to postfix tokens

  /** The function a name denotes, if it is one of the built-in names. */
  function FunctionToken(name: string): (r: Option<UnaryOp>)
    ensures r.Some? ==> r.value != UnaryMinus
  {
    if name == "sin" then Some(Sine)
    else if name == "cos" then Some(Cosine)
    else if name == "arccos" then Some(ArcCosine)
    else if name == "arctg" then Some(ArcTangent)
    else if name == "sqrt" then Some(SquareRoot)
    else if name == "exp" then Some(Exponent)
    else if name == "abs" then Some(Absolute)
    else None
  }

  /** The operator an operator character denotes; None (a null token) for
      any other character. */
  function OperatorFor(c: char): (r: Option<PToken>)
    ensures r.Some? ==> !IsOperand(r.value)
  {
    match c
    case '^' => Some(Binary(Involution))
    case '@' => Some(Binary(ArcTangent2))
    case '+' => Some(Binary(Plus))
    case '-' => Some(Binary(Minus))
    case '*' => Some(Binary(Multiply))
    case '/' => Some(Binary(Divide))
    case '$' => Some(Unary(UnaryMinus))
    case '(' => Some(OpenBracket)
    case ')' => Some(CloseBracket)
    case _ => None
  }

  /** The postfix token made for one lexeme: a number, a function when the
      name is a built-in one and a variable otherwise, or an operator. */
  function CreateToken(t: InfixToken): Option<PToken>
  {
    match t
    case NumberToken(v) => Some(Number(v))
    case VariableToken(name) =>
      (match FunctionToken(name)
       case Some(f) => Some(Unary(f))
       case None => Some(Variable(name)))
    case OperatorToken(c) => OperatorFor(c)
  }

  /** The names of the built-in functions. */
  const BuiltInNames: set<string> := {"sin", "cos", "arccos", "arctg", "sqrt", "exp", "abs"}

  /** A name lexeme becomes a function exactly when it is one of the
      built-in names, and a variable of that name otherwise. */
  lemma NameTokenKind(name: string)
    ensures CreateToken(VariableToken(name)).Some?
    ensures CreateToken(VariableToken(name)).value.Unary? <==> name in BuiltInNames
    ensures name !in BuiltInNames ==> CreateToken(VariableToken(name)) == Some(Variable(name))
  {
  }

  /** Exactly the nine operator characters of the grammar make a token. */
  lemma OperatorCharacters(c: char)
    ensures CreateToken(OperatorToken(c)).Some? <==> c in "^@+-*/$()"
  {
  }

  /** Every lexeme has a postfix token. */
  predicate AllCreated(ts: seq<InfixToken>)
  {
    forall i :: 0 <= i < |ts| ==> CreateToken(ts[i]).Some?
  }

  function Created(ts: seq<InfixToken>): (r: seq<PToken>)
    requires AllCreated(ts)
    ensures |r| == |ts| && forall i :: 0 <= i < |ts| ==> r[i] == CreateToken(ts[i]).value
  {
    seq(|ts|, i requires 0 <= i < |ts| => CreateToken(ts[i]).value)
  }

  /** The lexemes the postfix builder can handle: every one has a token and
      every close bracket finds its open bracket. */
  predicate Compilable(ts: seq<InfixToken>)
  {
    AllCreated(ts) && ToPostfix(Created(ts)).Some?
  }

  /** The variable names a token list reads. */
  function NamesOf(ts: seq<PToken>): (r: set<string>)
    ensures Bound(ts, r)
    ensures forall n :: n in r <==> exists i :: 0 <= i < |ts| && ts[i] == Variable(n)
  {
    set i | 0 <= i < |ts| && ts[i].Variable? :: ts[i].name
  }

  /** The variable name a token reads, if any. */
  function NameOf(t: PToken): set<string>
  {
    if t.Variable? then {t.name} else {}
  }

  /** The text a lexeme was scanned from (numbers aside). */
  function Lexeme(t: InfixToken): string
  {
    match t
    case NumberToken(_) => []
    case VariableToken(name) => name
    case OperatorToken(c) => [c]
  }

  /** Printing a created token spells its lexeme again, for every name and
      every operator character but the two that the grammar introduces for
      unary minus ('$') and the two-argument arctangent ('@'). */
  lemma CreatedTokenSpellsLexeme(t: InfixToken, env: map<string, real>, fmt: real -> string)
    requires CreateToken(t).Some? && !t.NumberToken?
    requires t.VariableToken? ==> '=' !in t.variableName && t.variableName in env
    requires t.OperatorToken? ==> t.oper != '$' && t.oper != '@'
    requires forall v :: '=' !in fmt(v)
    ensures StripValue(TokenString(CreateToken(t).value, env, fmt)) == Lexeme(t)
  {
    var p := CreateToken(t).value;
    if p.Variable? {
      StripVariable(p, env, fmt);
    } else {
      StripOther(p, env, fmt);
    }
  }

  // ---------------------------------------------------------------------
  // The postfix builder on concatenations

  lemma {:induction false} ConvertAppend(a: seq<PToken>, b: seq<PToken>, s: Shunt)
    requires OperatorStack(s.ops)
    ensures Convert(a + b, s)
         == match Convert(a, s)
            case None => None
            case Some(s') => Convert(b, s')
    decreases |a|
  {
    if a == [] {
      assert a + b == b;
    } else {
      assert (a + b)[0] == a[0];
      assert (a + b)[1..] == a[1..] + b;
      match ParseEffect(a[0], s)
      case None =>
      case Some(s') => ConvertAppend(a[1..], b, s');
    }
  }

  /** A list that converts has every prefix convert. */
  lemma PrefixConverts(ts: seq<PToken>, i: nat)
    requires i <= |ts| && Convert(ts, Shunt([], [])).Some?
    ensures Convert(ts[..i], Shunt([], [])).Some?
  {
    ConvertAppend(ts[..i], ts[i..], Shunt([], []));
    assert ts == ts[..i] + ts[i..];
  }

  // ---------------------------------------------------------------------
  // Correctness of the conversion on bracketed expressions

  /** An expression tree over the operators of the language. */
  datatype Expr =
    | Lit(v: real)
    | Ref(name: string)
    | Apply(f: UnaryOp, arg: Expr)
    | Infix(op: BinaryOp, left: Expr, right: Expr)

  /** The infix token list of an expression, every binary operation in
      brackets and every function argument in brackets. */
  function Tokens(e: Expr): seq<PToken>
  {
    match e
    case Lit(v) => [Number(v)]
    case Ref(n) => [Variable(n)]
    case Apply(f, a) => [Unary(f), OpenBracket] + Tokens(a) + [CloseBracket]
    case Infix(op, l, r) => [OpenBracket] + Tokens(l) + [Binary(op)] + Tokens(r) + [CloseBracket]
  }

  /** The postfix list of an expression: operands first, operator last. */
  function PostfixOf(e: Expr): seq<PToken>
  {
    match e
    case Lit(v) => [Number(v)]
    case Ref(n) => [Variable(n)]
    case Apply(f, a) => PostfixOf(a) + [Unary(f)]
    case Infix(op, l, r) => PostfixOf(l) + PostfixOf(r) + [Binary(op)]
  }

  function Names(e: Expr): set<string>
  {
    match e
    case Lit(_) => {}
    case Ref(n) => {n}
    case Apply(_, a) => Names(a)
    case Infix(_, l, r) => Names(l) + Names(r)
  }

  /** The value of an expression. */
  function Eval(m: MathLibrary, e: Expr, env: map<string, real>): real
    requires Names(e) <= env.Keys
  {
    match e
    case Lit(v) => v
    case Ref(n) => env[n]
    case Apply(f, a) => ApplyUnary(m, f, Eval(m, a, env))
    case Infix(op, l, r) => ApplyBinary(m, op, Eval(m, l, env), Eval(m, r, env))
  }

  /** What converting `Tokens(e)` leaves on the operator stack: a function
      application leaves its function, to be popped by whatever follows. */
  function Pending(e: Expr): seq<PToken>
  {
    if e.Apply? then [Unary(e.f)] else []
  }

  /** What converting `Tokens(e)` writes to the output. */
  function Written(e: Expr): seq<PToken>
  {
    if e.Apply? then PostfixOf(e.arg) else PostfixOf(e)
  }

  lemma PendingIsHigh(e: Expr)
    ensures OperatorStack(Pending(e))
    ensures forall i :: 0 <= i < |Pending(e)| ==> PriorityOf(Pending(e)[i]) == High
    ensures Written(e) + Pending(e) == PostfixOf(e)
  {
  }

  /** One token's parse effect at the head of a list. */
  lemma ConvertStep(t: PToken, rest: seq<PToken>, s: Shunt)
    requires OperatorStack(s.ops) && ParseEffect(t, s).Some?
    ensures Convert([t] + rest, s) == Convert(rest, ParseEffect(t, s).value)
  {
    assert ([t] + rest)[0] == t;
    assert ([t] + rest)[1..] == rest;
  }

  /** Converting `Tokens(e)` followed by anything converts `e` and then
      the rest, whatever is on the stack below. */
  lemma {:induction false} ConvertTokens(e: Expr, rest: seq<PToken>, s: Shunt)
    requires OperatorStack(s.ops)
    ensures OperatorStack(Pending(e) + s.ops)
    ensures Convert(Tokens(e) + rest, s)
         == Convert(rest, Shunt(Pending(e) + s.ops, s.out + Written(e)))
    decreases e, 1
  {
    PendingIsHigh(e);
    match e
    case Lit(v) =>
      assert Pending(e) + s.ops == s.ops;
      ConvertStep(Number(v), rest, s);
    case Ref(n) =>
      assert Pending(e) + s.ops == s.ops;
      ConvertStep(Variable(n), rest, s);
    case Apply(f, a) => ConvertApply(f, a, rest, s);
    case Infix(op, l, r) =>
      assert Pending(e) + s.ops == s.ops;
      ConvertInfix(op, l, r, rest, s);
  }

  lemma {:induction false} ConvertApply(f: UnaryOp, a: Expr, rest: seq<PToken>, s: Shunt)
    requires OperatorStack(s.ops)
    ensures OperatorStack([Unary(f)] + s.ops)
    ensures Convert(Tokens(Apply(f, a)) + rest, s)
         == Convert(rest, Shunt([Unary(f)] + s.ops, s.out + PostfixOf(a)))
    decreases Apply(f, a), 0
  {
    var s2 := Shunt([OpenBracket, Unary(f)] + s.ops, s.out);
    ApplyHead(f, a, rest, s);
    ConvertTokens(a, [CloseBracket] + rest, s2);
    PendingIsHigh(a);
    ApplyTail(f, Pending(a), Written(a), rest, s);
  }

  /** A function call's name and open bracket are pushed. */
  lemma {:induction false} ApplyHead(f: UnaryOp, a: Expr, rest: seq<PToken>, s: Shunt)
    requires OperatorStack(s.ops)
    ensures OperatorStack([OpenBracket, Unary(f)] + s.ops)
    ensures Convert(Tokens(Apply(f, a)) + rest, s)
         == Convert(Tokens(a) + ([CloseBracket] + rest), Shunt([OpenBracket, Unary(f)] + s.ops, s.out))
  {
    var tail := [CloseBracket] + rest;
    assert Tokens(Apply(f, a)) + rest == [Unary(f)] + ([OpenBracket] + (Tokens(a) + tail));
    OpenCall(f, Tokens(a) + tail, s);
  }

  /** The name and the open bracket at the head of a list are pushed. */
  lemma {:induction false} OpenCall(f: UnaryOp, ts: seq<PToken>, s: Shunt)
    requires OperatorStack(s.ops)
    ensures OperatorStack([OpenBracket, Unary(f)] + s.ops)
    ensures Convert([Unary(f)] + ([OpenBracket] + ts), s)
         == Convert(ts, Shunt([OpenBracket, Unary(f)] + s.ops, s.out))
  {
    var s1 := Shunt([Unary(f)] + s.ops, s.out);
    calc {
      Convert([Unary(f)] + ([OpenBracket] + ts), s);
      { ConvertStep(Unary(f), [OpenBracket] + ts, s); }
      Convert([OpenBracket] + ts, s1);
      { ConvertStep(OpenBracket, ts, s1);
        assert [OpenBracket] + s1.ops == [OpenBracket, Unary(f)] + s.ops; }
      Convert(ts, Shunt([OpenBracket, Unary(f)] + s.ops, s.out));
    }
  }

  /** The close bracket of a function call pops the operators `top` its
      argument left pending and the bracket, leaving the function on the
      stack. */
  lemma {:induction false} ApplyTail(f: UnaryOp, top: seq<PToken>, w: seq<PToken>, rest: seq<PToken>, s: Shunt)
    requires OperatorStack(s.ops) && OperatorStack(top)
    requires forall i :: 0 <= i < |top| ==> PriorityOf(top[i]) != Lowest
    ensures Convert([CloseBracket] + rest, Shunt(top + ([OpenBracket, Unary(f)] + s.ops), s.out + w))
         == Convert(rest, Shunt([Unary(f)] + s.ops, s.out + (w + top)))
  {
    var below := [OpenBracket, Unary(f)] + s.ops;
    var out := s.out + w;
    assert OperatorStack(below);
    CloseAfter(top, below, out);
    calc {
      Convert([CloseBracket] + rest, Shunt(top + below, out));
      { ConvertStep(CloseBracket, rest, Shunt(top + below, out)); }
      Convert(rest, Shunt(below[1..], out + top));
      { assert below[1..] == [Unary(f)] + s.ops;
        SeqAssoc(s.out, w, top); }
      Convert(rest, Shunt([Unary(f)] + s.ops, s.out + (w + top)));
    }
  }

  lemma {:induction false} ConvertInfix(op: BinaryOp, l: Expr, r: Expr, rest: seq<PToken>, s: Shunt)
    requires OperatorStack(s.ops)
    ensures Convert(Tokens(Infix(op, l, r)) + rest, s)
         == Convert(rest, Shunt(s.ops, s.out + PostfixOf(Infix(op, l, r))))
    decreases Infix(op, l, r), 0
  {
    var left := [OpenBracket] + Tokens(l) + [Binary(op)];
    var more := Tokens(r) + ([CloseBracket] + rest);
    SeqAssoc(left, Tokens(r), [CloseBracket]);
    SeqAssoc4(left, Tokens(r), [CloseBracket], rest);
    SeqAssoc(left + Tokens(r), [CloseBracket], rest);
    assert Tokens(Infix(op, l, r)) + rest == left + more;
    var s3 := ConvertLeft(op, l, more, s);
    ConvertRight(op, r, rest, s.ops, s3.out);
    SeqAssoc(s.out, PostfixOf(l), PostfixOf(r));
    SeqAssoc(s.out, PostfixOf(l) + PostfixOf(r), [Binary(op)]);
  }

  /** The second half of a bracketed binary operation: the right operand
      and the close bracket, which pops the operator and the bracket. */
  lemma {:induction false} ConvertRight(op: BinaryOp, r: Expr, rest: seq<PToken>, below: seq<PToken>, out: seq<PToken>)
    requires OperatorStack(below)
    ensures OperatorStack([Binary(op), OpenBracket] + below)
    ensures Convert(Tokens(r) + ([CloseBracket] + rest), Shunt([Binary(op), OpenBracket] + below, out))
         == Convert(rest, Shunt(below, out + PostfixOf(r) + [Binary(op)]))
    decreases r, 2
  {
    var open := [OpenBracket] + below;
    var s3 := Shunt([Binary(op)] + open, out);
    var top := Pending(r) + [Binary(op)];
    var out' := out + Written(r);
    PendingIsHigh(r);
    assert [Binary(op)] + open == [Binary(op), OpenBracket] + below;
    ConvertTokens(r, [CloseBracket] + rest, s3);
    SeqAssoc(Pending(r), [Binary(op)], open);
    CloseAfter(top, open, out');
    ConvertStep(CloseBracket, rest, Shunt(top + open, out'));
    assert open[1..] == below;
    SeqAssoc(out, Written(r), Pending(r));
    SeqAssoc(out', Pending(r), [Binary(op)]);
    SeqAssoc(out + Written(r), Pending(r), [Binary(op)]);
    assert out' + top == out + PostfixOf(r) + [Binary(op)];
  }

  /** The first half of a bracketed binary operation: the open bracket, the
      left operand and the operator. */
  lemma {:induction false} ConvertLeft(op: BinaryOp, l: Expr, more: seq<PToken>, s: Shunt) returns (s3: Shunt)
    requires OperatorStack(s.ops)
    ensures s3 == Shunt([Binary(op), OpenBracket] + s.ops, s.out + PostfixOf(l))
    ensures OperatorStack(s3.ops)
    ensures Convert([OpenBracket] + Tokens(l) + [Binary(op)] + more, s) == Convert(more, s3)
    decreases l, 3
  {
    var mid := [Binary(op)] + more;
    var below := [OpenBracket] + s.ops;
    SeqAssoc4([OpenBracket], Tokens(l), [Binary(op)], more);
    ConvertOpen(l, mid, s);
    PendingIsHigh(l);
    s3 := BinaryAfter(op, Pending(l), below, s.out + Written(l));
    ConvertStep(Binary(op), more, Shunt(Pending(l) + below, s.out + Written(l)));
    SeqAssoc(s.out, Written(l), Pending(l));
    SeqAssoc([Binary(op)], [OpenBracket], s.ops);
    assert [Binary(op)] + [OpenBracket] == [Binary(op), OpenBracket];
  }

  /** An open bracket and then the tokens of `l`. */
  lemma {:induction false} ConvertOpen(l: Expr, mid: seq<PToken>, s: Shunt)
    requires OperatorStack(s.ops)
    ensures OperatorStack([OpenBracket] + s.ops)
    ensures Convert([OpenBracket] + (Tokens(l) + mid), s)
         == Convert(mid, Shunt(Pending(l) + ([OpenBracket] + s.ops), s.out + Written(l)))
    decreases l, 2
  {
    ConvertStep(OpenBracket, Tokens(l) + mid, s);
    ConvertTokens(l, mid, Shunt([OpenBracket] + s.ops, s.out));
  }

  lemma SeqAssoc(a: seq<PToken>, b: seq<PToken>, c: seq<PToken>)
    ensures a + b + c == a + (b + c)
  {
  }

  lemma SeqAssoc4(a: seq<PToken>, b: seq<PToken>, c: seq<PToken>, d: seq<PToken>)
    ensures a + b + c + d == a + (b + (c + d))
  {
  }

  /** A close bracket over operators sitting on an open bracket pops them
      in order and discards the bracket. */
  lemma CloseAfter(top: seq<PToken>, below: seq<PToken>, out: seq<PToken>)
    requires OperatorStack(top) && OperatorStack(below)
    requires forall i :: 0 <= i < |top| ==> PriorityOf(top[i]) != Lowest
    requires below != [] && below[0] == OpenBracket
    ensures OperatorStack(top + below)
    ensures ParseEffect(CloseBracket, Shunt(top + below, out)) == Some(Shunt(below[1..], out + top))
  {
    var ops := top + below;
    assert OperatorStack(ops);
    var k := OpenDepth(ops);
    assert forall i :: 0 <= i < |top| ==> ops[i] == top[i];
    assert ops[|top|] == OpenBracket;
    assert k == |top|;
    assert ops[..|top|] == top && ops[|top|..] == below;
  }

  /** A binary operator after high-priority operators sitting on an open
      bracket pops them in order and pushes itself on the bracket. */
  lemma BinaryAfter(op: BinaryOp, top: seq<PToken>, below: seq<PToken>, out: seq<PToken>) returns (r: Shunt)
    requires OperatorStack(top) && OperatorStack(below)
    requires forall i :: 0 <= i < |top| ==> PriorityOf(top[i]) == High
    requires below != [] && below[0] == OpenBracket
    ensures OperatorStack(top + below)
    ensures r == Shunt([Binary(op)] + below, out + top)
    ensures OperatorStack(r.ops)
    ensures ParseEffect(Binary(op), Shunt(top + below, out)) == Some(r)
  {
    r := Shunt([Binary(op)] + below, out + top);
    var ops := top + below;
    assert OperatorStack(ops);
    var rank := Rank(PriorityOf(Binary(op)));
    var k := PopCount(rank, ops);
    assert forall i :: 0 <= i < |top| ==> ops[i] == top[i];
    assert ops[|top|] == OpenBracket;
    assert k == |top|;
    assert ops[..|top|] == top && ops[|top|..] == below;
  }

  /** Executing the postfix list of `e` pushes the value of `e`. */
  lemma {:induction false} RunPostfixOf(m: MathLibrary, e: Expr, stack: seq<real>, env: map<string, real>)
    requires Names(e) <= env.Keys
    ensures Bound(PostfixOf(e), env.Keys)
    ensures Run(m, PostfixOf(e), stack, env) == Some(stack + [Eval(m, e, env)])
    decreases e, 1
  {
    match e
    case Lit(v) =>
    case Ref(n) =>
    case Apply(f, a) => RunApply(m, f, a, stack, env);
    case Infix(op, l, r) => RunInfix(m, op, l, r, stack, env);
  }

  lemma {:induction false} RunApply(m: MathLibrary, f: UnaryOp, a: Expr, stack: seq<real>, env: map<string, real>)
    requires Names(a) <= env.Keys
    ensures Bound(PostfixOf(a) + [Unary(f)], env.Keys)
    ensures Run(m, PostfixOf(a) + [Unary(f)], stack, env) == Some(stack + [ApplyUnary(m, f, Eval(m, a, env))])
    decreases Apply(f, a), 0
  {
    RunPostfixOf(m, a, stack, env);
    var s := stack + [Eval(m, a, env)];
    assert Bound(PostfixOf(a) + [Unary(f)], env.Keys);
    RunAppend(m, PostfixOf(a), [Unary(f)], stack, env);
    assert s[..|s| - 1] == stack;
  }

  lemma {:induction false} RunInfix(m: MathLibrary, op: BinaryOp, l: Expr, r: Expr, stack: seq<real>, env: map<string, real>)
    requires Names(l) <= env.Keys && Names(r) <= env.Keys
    ensures Bound(PostfixOf(l) + PostfixOf(r) + [Binary(op)], env.Keys)
    ensures Run(m, PostfixOf(l) + PostfixOf(r) + [Binary(op)], stack, env)
         == Some(stack + [ApplyBinary(m, op, Eval(m, l, env), Eval(m, r, env))])
    decreases Infix(op, l, r), 0
  {
    var pl, pr, last := PostfixOf(l), PostfixOf(r), [Binary(op)];
    var x, y := Eval(m, l, env), Eval(m, r, env);
    RunPostfixOf(m, l, stack, env);
    RunPostfixOf(m, r, stack + [x], env);
    BoundJoin(pl, pr, env.Keys);
    BoundJoin(pl + pr, last, env.Keys);
    RunAppend(m, pl, pr, stack, env);
    RunAppend(m, pl + pr, last, stack, env);
    RunBinary(m, op, stack, x, y, env);
  }

  /** A binary operator on a stack with two values on top. */
  lemma RunBinary(m: MathLibrary, op: BinaryOp, stack: seq<real>, x: real, y: real, env: map<string, real>)
    ensures Bound([Binary(op)], env.Keys)
    ensures Run(m, [Binary(op)], stack + [x] + [y], env) == Some(stack + [ApplyBinary(m, op, x, y)])
  {
    var s2 := stack + [x] + [y];
    assert s2[..|s2| - 2] == stack;
    assert [Binary(op)][1..] == [];
  }

  /** The conversion is correct on every bracketed expression: the postfix
      list it builds is the expression's postfix form, and executing it
      leaves exactly one value, the value of the expression. */
  lemma ConversionCorrect(m: MathLibrary, e: Expr, env: map<string, real>)
    requires Names(e) <= env.Keys
    ensures ToPostfix(Tokens(e)) == Some(PostfixOf(e))
    ensures Bound(PostfixOf(e), env.Keys)
    ensures Run(m, PostfixOf(e), [], env) == Some([Eval(m, e, env)])
  {
    ToPostfixOfTokens(e);
    RunPostfixOf(m, e, [], env);
    assert [] + [Eval(m, e, env)] == [Eval(m, e, env)];
  }

  lemma ToPostfixOfTokens(e: Expr)
    ensures ToPostfix(Tokens(e)) == Some(PostfixOf(e))
  {
    ConvertTokens(e, [], Shunt([], []));
    assert Tokens(e) + [] == Tokens(e);
    PendingIsHigh(e);
    assert Pending(e) + [] == Pending(e) && [] + Written(e) == Written(e);
    assert Convert([], Shunt(Pending(e), Written(e))) == Some(Shunt(Pending(e), Written(e)));
  }

  /** An expression with no function application and no unary minus. */
  predicate Unapplied(e: Expr)
  {
    match e
    case Lit(_) => true
    case Ref(_) => true
    case Apply(_, _) => false
    case Infix(_, l, r) => Unapplied(l) && Unapplied(r)
  }

  lemma {:induction false} UnappliedHasNoPrefix(e: Expr)
    requires Unapplied(e)
    ensures forall i :: 0 <= i < |Tokens(e)| ==> !Tokens(e)[i].Unary?
  {
    match e
    case Lit(_) =>
    case Ref(_) =>
    case Infix(op, l, r) =>
      UnappliedHasNoPrefix(l);
      UnappliedHasNoPrefix(r);
      var tl, tr := Tokens(l), Tokens(r);
      assert Tokens(e) == [OpenBracket] + tl + [Binary(op)] + tr + [CloseBracket];
      forall i | 0 <= i < |Tokens(e)|
        ensures !Tokens(e)[i].Unary?
      {
        if 1 <= i < 1 + |tl| {
          assert Tokens(e)[i] == tl[i - 1];
        } else if 2 + |tl| <= i < 2 + |tl| + |tr| {
          assert Tokens(e)[i] == tr[i - 2 - |tl|];
        }
      }
  }

  /** The source's own rule is correct on bracketed expressions without
      functions and unary minus: it builds the same postfix form. */
  lemma AsWrittenCorrectWithoutPrefix(e: Expr)
    requires Unapplied(e)
    ensures ToPostfixAsWritten(Tokens(e)) == Some(PostfixOf(e))
  {
    UnappliedHasNoPrefix(e);
    RulesAgreeWithoutPrefix(Tokens(e), Shunt([], []));
    ToPostfixOfTokens(e);
  }

  // The parse effects, under the source's rule, of the tokens of
  // `(x^sin(y))` after `(x`.

  lemma AsWrittenPower(x: PToken)
    requires x.Variable?
    ensures ParseEffectAsWritten(Binary(Involution), Shunt([OpenBracket], [x]))
         == Some(Shunt([Binary(Involution), OpenBracket], [x]))
  {
    var empty: seq<PToken> := [];
    assert empty + [OpenBracket] == [OpenBracket] && [x] + empty == [x];
    assert [Binary(Involution)] + [OpenBracket] == [Binary(Involution), OpenBracket];
    var r := BinaryAfter(Involution, empty, [OpenBracket], [x]);
  }

  lemma AsWrittenSine(x: PToken)
    requires x.Variable?
    ensures ParseEffectAsWritten(Unary(Sine), Shunt([Binary(Involution), OpenBracket], [x]))
         == Some(Shunt([Unary(Sine), OpenBracket], [x, Binary(Involution)]))
  {
    var st := Shunt([Binary(Involution), OpenBracket], [x]);
    assert ParseEffectAsWritten(Unary(Sine), st) == Some(OperatorEffect(Unary(Sine), st));
    SinePopsPower(x);
    assert [Unary(Sine)] + [OpenBracket] == [Unary(Sine), OpenBracket];
  }

  /** A named function arriving over `^` pops it: the function ranks higher. */
  lemma SinePopsPower(x: PToken)
    ensures Rank(PriorityOf(Unary(Sine))) == 4
    ensures PopCount(4, [Binary(Involution), OpenBracket]) == 1
    ensures Pop(Shunt([Binary(Involution), OpenBracket], [x]), 1) == Shunt([OpenBracket], [x, Binary(Involution)])
  {
    var ops := [Binary(Involution), OpenBracket];
    assert ops[1..] == [OpenBracket];
    assert PopCount(4, ops[1..]) == 0;
    assert [x] + ops[..1] == [x, Binary(Involution)];
  }

  lemma AsWrittenInnerClose(x: PToken, y: PToken)
    requires x.Variable? && y.Variable?
    ensures ParseEffectAsWritten(CloseBracket, Shunt([OpenBracket, Unary(Sine), OpenBracket], [x, Binary(Involution), y]))
         == Some(Shunt([Unary(Sine), OpenBracket], [x, Binary(Involution), y]))
  {
    var ops := [OpenBracket, Unary(Sine), OpenBracket];
    var st := Shunt(ops, [x, Binary(Involution), y]);
    assert ParseEffectAsWritten(CloseBracket, st) == ParseEffect(CloseBracket, st);
    assert OpenDepth(ops) == 0;
    assert ops[0..] == ops && st.out + ops[..0] == st.out;
    assert Pop(st, 0) == st;
    assert ops[1..] == [Unary(Sine), OpenBracket];
  }

  lemma AsWrittenOuterClose(x: PToken, y: PToken)
    requires x.Variable? && y.Variable?
    ensures ParseEffectAsWritten(CloseBracket, Shunt([Unary(Sine), OpenBracket], [x, Binary(Involution), y]))
         == Some(Shunt([], [x, Binary(Involution), y, Unary(Sine)]))
  {
    var st := Shunt([Unary(Sine), OpenBracket], [x, Binary(Involution), y]);
    assert ParseEffectAsWritten(CloseBracket, st) == ParseEffect(CloseBracket, st);
    CloseAfter([Unary(Sine)], [OpenBracket], [x, Binary(Involution), y]);
    assert [Unary(Sine)] + [OpenBracket] == [Unary(Sine), OpenBracket];
    assert [OpenBracket][1..] == [];
    assert [x, Binary(Involution), y] + [Unary(Sine)] == [x, Binary(Involution), y, Unary(Sine)];
  }

  lemma AsWrittenStep(t: PToken, rest: seq<PToken>, s: Shunt, s': Shunt)
    requires OperatorStack(s.ops) && ParseEffectAsWritten(t, s) == Some(s')
    ensures ConvertAsWritten([t] + rest, s) == ConvertAsWritten(rest, s')
  {
    assert ([t] + rest)[0] == t && ([t] + rest)[1..] == rest;
  }

  /** The source's rule on `(y))` after `(x^sin`. */
  lemma AsWrittenInner(x: PToken, y: PToken)
    requires x.Variable? && y.Variable?
    ensures ConvertAsWritten([OpenBracket, y, CloseBracket, CloseBracket], Shunt([Unary(Sine), OpenBracket], [x, Binary(Involution)]))
         == Some(Shunt([], [x, Binary(Involution), y, Unary(Sine)]))
  {
    var pow, sin := Binary(Involution), Unary(Sine);
    var ts := [OpenBracket, y, CloseBracket, CloseBracket];
    var s8 := Shunt([], [x, pow, y, sin]);
    AsWrittenInnerClose(x, y);
    AsWrittenOuterClose(x, y);
    assert ConvertAsWritten(ts[4..], s8) == Some(s8);
    assert ConvertAsWritten(ts[3..], Shunt([sin, OpenBracket], [x, pow, y])) == Some(s8);
    assert ConvertAsWritten(ts[2..], Shunt([OpenBracket, sin, OpenBracket], [x, pow, y])) == Some(s8);
    assert [x, pow] + [y] == [x, pow, y];
    assert ConvertAsWritten(ts[1..], Shunt([OpenBracket, sin, OpenBracket], [x, pow])) == Some(s8);
    assert [OpenBracket] + [sin, OpenBracket] == [OpenBracket, sin, OpenBracket];
  }

  /** The source's rule pops the pending `^` when the function `sin`
      arrives, before the exponent has been written: `(x^sin(y))` becomes
      `x ^ y sin`, whose `^` pops an empty stack. */
  lemma AsWrittenLosesOperand()
    ensures var e := Infix(Involution, Ref("x"), Apply(Sine, Ref("y")));
      && ToPostfixAsWritten(Tokens(e))
         == Some([Variable("x"), Binary(Involution), Variable("y"), Unary(Sine)])
      && Depth([Variable("x"), Binary(Involution), Variable("y"), Unary(Sine)], 0).None?
  {
    var x, y, pow, sin := Variable("x"), Variable("y"), Binary(Involution), Unary(Sine);
    AsWrittenConverts();
    assert Depth([x, pow, y, sin], 0) == Depth([pow, y, sin], 1);
  }

  /** The steps of the source's rule on `(x^sin(y))`, token by token. */
  lemma AsWrittenConverts()
    ensures var e := Infix(Involution, Ref("x"), Apply(Sine, Ref("y")));
      ToPostfixAsWritten(Tokens(e)) == Some([Variable("x"), Binary(Involution), Variable("y"), Unary(Sine)])
  {
    var e := Infix(Involution, Ref("x"), Apply(Sine, Ref("y")));
    var x, y, pow, sin := Variable("x"), Variable("y"), Binary(Involution), Unary(Sine);
    var inner := [OpenBracket, y, CloseBracket, CloseBracket];
    var s8 := Shunt([], [x, pow, y, sin]);
    calc {
      ConvertAsWritten(Tokens(e), Shunt([], []));
      { assert Tokens(e) == [OpenBracket] + ([x] + ([pow] + ([sin] + inner))); }
      ConvertAsWritten([OpenBracket] + ([x] + ([pow] + ([sin] + inner))), Shunt([], []));
      { assert [OpenBracket] + [] == [OpenBracket];
        AsWrittenStep(OpenBracket, [x] + ([pow] + ([sin] + inner)), Shunt([], []), Shunt([OpenBracket], [])); }
      ConvertAsWritten([x] + ([pow] + ([sin] + inner)), Shunt([OpenBracket], []));
      { assert [] + [x] == [x];
        AsWrittenStep(x, [pow] + ([sin] + inner), Shunt([OpenBracket], []), Shunt([OpenBracket], [x])); }
      ConvertAsWritten([pow] + ([sin] + inner), Shunt([OpenBracket], [x]));
      { AsWrittenPower(x);
        AsWrittenStep(pow, [sin] + inner, Shunt([OpenBracket], [x]), Shunt([pow, OpenBracket], [x])); }
      ConvertAsWritten([sin] + inner, Shunt([pow, OpenBracket], [x]));
      { AsWrittenSine(x);
        AsWrittenStep(sin, inner, Shunt([pow, OpenBracket], [x]), Shunt([sin, OpenBracket], [x, pow])); }
      ConvertAsWritten(inner, Shunt([sin, OpenBracket], [x, pow]));
      { AsWrittenInner(x, y); }
      Some(s8);
    }
    assert s8.out + s8.ops == [x, pow, y, sin];
  }

  /** Under the corrected rule the same expression becomes `x y sin ^`,
      which leaves exactly one value. */
  lemma CorrectedKeepsOperand()
    ensures var e := Infix(Involution, Ref("x"), Apply(Sine, Ref("y")));
      && ToPostfix(Tokens(e)) == Some([Variable("x"), Variable("y"), Unary(Sine), Binary(Involution)])
      && Depth(PostfixOf(e), 0) == Some(1)
  {
    var e := Infix(Involution, Ref("x"), Apply(Sine, Ref("y")));
    var x, y, pow, sin := Variable("x"), Variable("y"), Binary(Involution), Unary(Sine);
    ToPostfixOfTokens(e);
    assert PostfixOf(e) == [x, y, sin, pow];
    assert Depth([x, y, sin, pow], 0) == Depth([y, sin, pow], 1);
    assert Depth([y, sin, pow], 1) == Depth([sin, pow], 2);
    assert Depth([sin, pow], 2) == Depth([pow], 2);
    assert Depth([pow], 2) == Depth([], 1);
  }

  // ---------------------------------------------------------------------
  // Unbracketed input

  /** `$x^2`: the power pops the unary minus of equal priority, so the
      list is `x $ 2 ^`, the square of the negation; both rules agree. */
  lemma NegationBeforePower(x: PToken)
    requires x.Variable?
    ensures var ts := [Unary(UnaryMinus), x, Binary(Involution), Number(2.0)];
      var r := [x, Unary(UnaryMinus), Number(2.0), Binary(Involution)];
      ToPostfix(ts) == Some(r) && ToPostfixAsWritten(ts) == Some(r)
  {
    var neg, pow, two := Unary(UnaryMinus), Binary(Involution), Number(2.0);
    var s4 := Shunt([pow], [x, neg, two]);
    NegationConverts(x);
    NegationConvertsAsWritten(x);
    assert s4.out + s4.ops == [x, neg, two, pow];
  }

  lemma NegationConverts(x: PToken)
    requires x.Variable?
    ensures Convert([Unary(UnaryMinus), x, Binary(Involution), Number(2.0)], Shunt([], []))
         == Some(Shunt([Binary(Involution)], [x, Unary(UnaryMinus), Number(2.0)]))
  {
    var neg, pow, two := Unary(UnaryMinus), Binary(Involution), Number(2.0);
    var empty: seq<PToken> := [];
    assert [neg, x, pow, two] == [neg] + ([x] + ([pow] + ([two] + empty)));
    assert [neg] + empty == [neg] && empty + [x] == [x];
    calc {
      Convert([neg] + ([x] + ([pow] + ([two] + empty))), Shunt([], []));
      { ConvertStep(neg, [x] + ([pow] + ([two] + empty)), Shunt([], [])); }
      Convert([x] + ([pow] + ([two] + empty)), Shunt([neg], []));
      { ConvertStep(x, [pow] + ([two] + empty), Shunt([neg], [])); }
      Convert([pow] + ([two] + empty), Shunt([neg], [x]));
      { NegationPopped(x); ConvertStep(pow, [two] + empty, Shunt([neg], [x])); }
      Convert([two] + empty, Shunt([pow], [x, neg]));
      { ConvertStep(two, empty, Shunt([pow], [x, neg]));
        assert [x, neg] + [two] == [x, neg, two]; }
      Convert(empty, Shunt([pow], [x, neg, two]));
    }
  }

  lemma NegationConvertsAsWritten(x: PToken)
    requires x.Variable?
    ensures ConvertAsWritten([Unary(UnaryMinus), x, Binary(Involution), Number(2.0)], Shunt([], []))
         == Some(Shunt([Binary(Involution)], [x, Unary(UnaryMinus), Number(2.0)]))
  {
    var neg, pow, two := Unary(UnaryMinus), Binary(Involution), Number(2.0);
    var empty: seq<PToken> := [];
    assert [neg, x, pow, two] == [neg] + ([x] + ([pow] + ([two] + empty)));
    assert [neg] + empty == [neg] && empty + [x] == [x];
    calc {
      ConvertAsWritten([neg] + ([x] + ([pow] + ([two] + empty))), Shunt([], []));
      { NegationPushed();
        AsWrittenStep(neg, [x] + ([pow] + ([two] + empty)), Shunt([], []), Shunt([neg], [])); }
      ConvertAsWritten([x] + ([pow] + ([two] + empty)), Shunt([neg], []));
      { AsWrittenStep(x, [pow] + ([two] + empty), Shunt([neg], []), Shunt([neg], [x])); }
      ConvertAsWritten([pow] + ([two] + empty), Shunt([neg], [x]));
      { NegationPopped(x);
        AsWrittenStep(pow, [two] + empty, Shunt([neg], [x]), Shunt([pow], [x, neg])); }
      ConvertAsWritten([two] + empty, Shunt([pow], [x, neg]));
      { assert [x, neg] + [two] == [x, neg, two];
        AsWrittenStep(two, empty, Shunt([pow], [x, neg]), Shunt([pow], [x, neg, two])); }
      ConvertAsWritten(empty, Shunt([pow], [x, neg, two]));
    }
  }

  /** On an empty stack the source's rule pops nothing before pushing. */
  lemma NegationPushed()
    ensures ParseEffectAsWritten(Unary(UnaryMinus), Shunt([], [])) == Some(Shunt([Unary(UnaryMinus)], []))
  {
    var empty: seq<PToken> := [];
    assert PopCount(4, empty) == 0;
    assert empty[0..] == empty && empty + empty[..0] == empty;
    assert [Unary(UnaryMinus)] + empty == [Unary(UnaryMinus)];
  }

  /** The power pops the unary minus below it: both have priority HIGH. */
  lemma NegationPopped(x: PToken)
    ensures ParseEffect(Binary(Involution), Shunt([Unary(UnaryMinus)], [x]))
         == Some(Shunt([Binary(Involution)], [x, Unary(UnaryMinus)]))
  {
    var ops := [Unary(UnaryMinus)];
    assert PopCount(4, ops[1..]) == 0;
    assert PopCount(4, ops) == 1;
    assert ops[1..] == [] && [x] + ops[..1] == [x, Unary(UnaryMinus)];
    assert [Binary(Involution)] + [] == [Binary(Involution)];
  }

  /** The expression a single operand token stands for. */
  function Leaf(t: PToken): (e: Expr)
    requires IsOperand(t)
    ensures PostfixOf(e) == [t] && Names(e) == NameOf(t)
  {
    if t.Number? then Lit(t.value) else Ref(t.name)
  }

  /** `t` is an operand whose variable, if any, has a value in `env`. */
  predicate OperandIn(t: PToken, env: map<string, real>)
  {
    IsOperand(t) && (t.Variable? ==> t.name in env)
  }

  /** The value an operand token pushes. */
  function OperandValue(t: PToken, env: map<string, real>): real
    requires OperandIn(t, env)
  {
    if t.Number? then t.value else env[t.name]
  }

  /** How `a o1 b o2 c` groups without brackets: the right operation first
      when its operator ranks strictly higher, otherwise the left one
      (equal priorities associate to the left). */
  function Grouped(a: PToken, o1: BinaryOp, b: PToken, o2: BinaryOp, c: PToken): Expr
    requires IsOperand(a) && IsOperand(b) && IsOperand(c)
  {
    if Rank(PriorityOf(Binary(o1))) < Rank(PriorityOf(Binary(o2)))
    then Infix(o1, Leaf(a), Infix(o2, Leaf(b), Leaf(c)))
    else Infix(o2, Infix(o1, Leaf(a), Leaf(b)), Leaf(c))
  }

  /** A token that is not a prefix operator has the same parse effect under
      both rules. */
  lemma BothRulesStep(t: PToken, rest: seq<PToken>, s: Shunt, s': Shunt)
    requires OperatorStack(s.ops) && !t.Unary? && ParseEffect(t, s) == Some(s')
    ensures Convert([t] + rest, s) == Convert(rest, s')
    ensures ConvertAsWritten([t] + rest, s) == ConvertAsWritten(rest, s')
  {
    ConvertStep(t, rest, s);
    AsWrittenStep(t, rest, s, s');
  }

  /** The first operator of a list meets an empty stack and is pushed. */
  lemma FirstOperatorPushed(o: BinaryOp, out: seq<PToken>)
    ensures ParseEffect(Binary(o), Shunt([], out)) == Some(Shunt([Binary(o)], out))
  {
    var empty: seq<PToken> := [];
    assert PopCount(Rank(PriorityOf(Binary(o))), empty) == 0;
    assert empty[0..] == empty && out + empty[..0] == out && [Binary(o)] + empty == [Binary(o)];
  }

  /** The second operator pushes over the first when it ranks strictly
      higher, and otherwise outputs the first before it is pushed. */
  lemma SecondOperator(o1: BinaryOp, o2: BinaryOp, out: seq<PToken>)
    ensures OperatorStack([Binary(o1)])
    ensures ParseEffect(Binary(o2), Shunt([Binary(o1)], out))
         == if Rank(PriorityOf(Binary(o1))) < Rank(PriorityOf(Binary(o2)))
            then Some(Shunt([Binary(o2), Binary(o1)], out))
            else Some(Shunt([Binary(o2)], out + [Binary(o1)]))
  {
    var b1, b2 := Binary(o1), Binary(o2);
    var empty: seq<PToken> := [];
    if Rank(PriorityOf(b1)) < Rank(PriorityOf(b2)) {
      PushesOverLower(o2, b1, empty, out);
      assert [b2, b1] + empty == [b2, b1] && [b1] + empty == [b1];
    } else {
      assert [b1][1..] == empty;
      assert PopCount(Rank(PriorityOf(b2)), [b1]) == 1;
      assert [b1][..1] == [b1] && [b2] + empty == [b2];
    }
  }

  /** Both rules convert `a o1 b o2 c` to the same final state. */
  lemma ThreeOperandsConvert(a: PToken, o1: BinaryOp, b: PToken, o2: BinaryOp, c: PToken)
    requires IsOperand(a) && IsOperand(b) && IsOperand(c)
    ensures var ts := [a, Binary(o1), b, Binary(o2), c];
      var r := if Rank(PriorityOf(Binary(o1))) < Rank(PriorityOf(Binary(o2)))
               then Shunt([Binary(o2), Binary(o1)], [a, b, c])
               else Shunt([Binary(o2)], [a, b, Binary(o1), c]);
      Convert(ts, Shunt([], [])) == Some(r) && ConvertAsWritten(ts, Shunt([], [])) == Some(r)
  {
    SecondOperator(o1, o2, [a, b]);
    var s4 := ParseEffect(Binary(o2), Shunt([Binary(o1)], [a, b])).value;
    ConvertFive(a, o1, b, o2, c, s4);
    if Rank(PriorityOf(Binary(o1))) < Rank(PriorityOf(Binary(o2))) {
      assert [a, b] + [c] == [a, b, c];
    } else {
      assert [a, b] + [Binary(o1)] + [c] == [a, b, Binary(o1), c];
    }
  }

  /** The steps of `a o1 b o2 c`, where the second operator leaves `s4`. */
  lemma ConvertFive(a: PToken, o1: BinaryOp, b: PToken, o2: BinaryOp, c: PToken, s4: Shunt)
    requires IsOperand(a) && IsOperand(b) && IsOperand(c)
    requires OperatorStack(s4.ops)
    requires ParseEffect(Binary(o2), Shunt([Binary(o1)], [a, b])) == Some(s4)
    ensures var ts := [a, Binary(o1), b, Binary(o2), c];
      var r := Shunt(s4.ops, s4.out + [c]);
      Convert(ts, Shunt([], [])) == Some(r) && ConvertAsWritten(ts, Shunt([], [])) == Some(r)
  {
    var b1, b2 := Binary(o1), Binary(o2);
    var empty: seq<PToken> := [];
    var s0, s1, s2, s3 := Shunt(empty, empty), Shunt(empty, [a]), Shunt([b1], [a]), Shunt([b1], [a, b]);
    var s5 := Shunt(s4.ops, s4.out + [c]);
    assert empty + [a] == [a] && [a] + [b] == [a, b];
    FirstOperatorPushed(o1, [a]);
    assert OperatorStack(s3.ops);
    var t1 := [c] + empty;
    var t2 := [b2] + t1;
    var t3 := [b] + t2;
    var t4 := [b1] + t3;
    assert [a] + t4 == [a, b1, b, b2, c];
    BothRulesStep(c, empty, s4, s5);
    BothRulesStep(b2, t1, s3, s4);
    BothRulesStep(b, t2, s2, s3);
    BothRulesStep(b1, t3, s1, s2);
    BothRulesStep(a, t4, s0, s1);
  }

  /** Operator precedence on every unbracketed `a o1 b o2 c`: both rules
      build the postfix list of the grouping the priorities select, so
      `*` and `/` bind tighter than `+` and `-`, `^` and `@` tighter than
      both, and equal priorities group from the left. */
  lemma UnbracketedPrecedence(a: PToken, o1: BinaryOp, b: PToken, o2: BinaryOp, c: PToken)
    requires IsOperand(a) && IsOperand(b) && IsOperand(c)
    ensures var ts := [a, Binary(o1), b, Binary(o2), c];
      && ToPostfix(ts) == Some(PostfixOf(Grouped(a, o1, b, o2, c)))
      && ToPostfixAsWritten(ts) == ToPostfix(ts)
      && ToPostfix(ts) == (if Rank(PriorityOf(Binary(o1))) < Rank(PriorityOf(Binary(o2)))
                           then Some([a, b, c, Binary(o2), Binary(o1)])
                           else Some([a, b, Binary(o1), c, Binary(o2)]))
  {
    ThreeOperandsConvert(a, o1, b, o2, c);
    GroupedPostfix(a, o1, b, o2, c);
    var b1, b2 := Binary(o1), Binary(o2);
    if Rank(PriorityOf(b1)) < Rank(PriorityOf(b2)) {
      assert [a, b, c] + [b2, b1] == [a, b, c, b2, b1];
    } else {
      assert [a, b, b1, c] + [b2] == [a, b, b1, c, b2];
    }
  }

  /** The postfix form of the grouping the priorities select. */
  lemma GroupedPostfix(a: PToken, o1: BinaryOp, b: PToken, o2: BinaryOp, c: PToken)
    requires IsOperand(a) && IsOperand(b) && IsOperand(c)
    ensures PostfixOf(Grouped(a, o1, b, o2, c))
         == if Rank(PriorityOf(Binary(o1))) < Rank(PriorityOf(Binary(o2)))
            then [a, b, c, Binary(o2), Binary(o1)]
            else [a, b, Binary(o1), c, Binary(o2)]
  {
    var b1, b2 := Binary(o1), Binary(o2);
    var e := Grouped(a, o1, b, o2, c);
    if Rank(PriorityOf(b1)) < Rank(PriorityOf(b2)) {
      assert PostfixOf(e) == [a] + ([b] + [c] + [b2]) + [b1];
    } else {
      assert PostfixOf(e) == [a] + [b] + [b1] + [c] + [b2];
    }
  }

  /** The value of the grouping the priorities select. */
  lemma GroupedValue(m: MathLibrary, a: PToken, o1: BinaryOp, b: PToken, o2: BinaryOp, c: PToken, env: map<string, real>)
    requires OperandIn(a, env) && OperandIn(b, env) && OperandIn(c, env)
    ensures Names(Grouped(a, o1, b, o2, c)) <= env.Keys
    ensures var va, vb, vc := OperandValue(a, env), OperandValue(b, env), OperandValue(c, env);
      Eval(m, Grouped(a, o1, b, o2, c), env)
        == if Rank(PriorityOf(Binary(o1))) < Rank(PriorityOf(Binary(o2)))
           then ApplyBinary(m, o1, va, ApplyBinary(m, o2, vb, vc))
           else ApplyBinary(m, o2, ApplyBinary(m, o1, va, vb), vc)
  {
    var va, vb, vc := OperandValue(a, env), OperandValue(b, env), OperandValue(c, env);
    var la, lb, lc := Leaf(a), Leaf(b), Leaf(c);
    LeafValue(m, a, env);
    LeafValue(m, b, env);
    LeafValue(m, c, env);
    if Rank(PriorityOf(Binary(o1))) < Rank(PriorityOf(Binary(o2))) {
      var right := Infix(o2, lb, lc);
      assert Eval(m, right, env) == ApplyBinary(m, o2, vb, vc);
      assert Eval(m, Infix(o1, la, right), env) == ApplyBinary(m, o1, va, Eval(m, right, env));
    } else {
      var left := Infix(o1, la, lb);
      assert Eval(m, left, env) == ApplyBinary(m, o1, va, vb);
      assert Eval(m, Infix(o2, left, lc), env) == ApplyBinary(m, o2, Eval(m, left, env), vc);
    }
  }

  lemma LeafValue(m: MathLibrary, t: PToken, env: map<string, real>)
    requires OperandIn(t, env)
    ensures Names(Leaf(t)) <= env.Keys && Eval(m, Leaf(t), env) == OperandValue(t, env)
  {
  }

  /** Executing the list built for an unbracketed `a o1 b o2 c` gives the
      value of the grouping the priorities select. */
  lemma UnbracketedValue(m: MathLibrary, a: PToken, o1: BinaryOp, b: PToken, o2: BinaryOp, c: PToken, env: map<string, real>)
    requires OperandIn(a, env) && OperandIn(b, env) && OperandIn(c, env)
    ensures var ts := [a, Binary(o1), b, Binary(o2), c];
      && ToPostfix(ts).Some? && Bound(ToPostfix(ts).value, env.Keys) && Executable(ToPostfix(ts).value)
      && var va, vb, vc := OperandValue(a, env), OperandValue(b, env), OperandValue(c, env);
         Value(m, ToPostfix(ts).value, env)
           == if Rank(PriorityOf(Binary(o1))) < Rank(PriorityOf(Binary(o2)))
              then ApplyBinary(m, o1, va, ApplyBinary(m, o2, vb, vc))
              else ApplyBinary(m, o2, ApplyBinary(m, o1, va, vb), vc)
  {
    var e := Grouped(a, o1, b, o2, c);
    GroupedValue(m, a, o1, b, o2, c, env);
    UnbracketedPrecedence(a, o1, b, o2, c);
    ValueOfExpression(m, e, env);
  }

  /** The arithmetic operators on two values. */
  lemma Arithmetic(m: MathLibrary, x: real, y: real)
    ensures ApplyBinary(m, Plus, x, y) == x + y
    ensures ApplyBinary(m, Minus, x, y) == x - y
    ensures ApplyBinary(m, Multiply, x, y) == x * y
  {
  }

  /** `a + b * c` is `a + (b * c)`. */
  lemma ProductBeforeSum(m: MathLibrary, a: PToken, b: PToken, c: PToken, env: map<string, real>)
    requires OperandIn(a, env) && OperandIn(b, env) && OperandIn(c, env)
    ensures var p := [a, b, c, Binary(Multiply), Binary(Plus)];
      && ToPostfix([a, Binary(Plus), b, Binary(Multiply), c]) == Some(p)
      && Bound(p, env.Keys) && Executable(p)
      && Value(m, p, env) == OperandValue(a, env) + OperandValue(b, env) * OperandValue(c, env)
  {
    UnbracketedPrecedence(a, Plus, b, Multiply, c);
    assert Rank(PriorityOf(Binary(Plus))) < Rank(PriorityOf(Binary(Multiply)));
    UnbracketedValue(m, a, Plus, b, Multiply, c, env);
    var va, vb, vc := OperandValue(a, env), OperandValue(b, env), OperandValue(c, env);
    Arithmetic(m, vb, vc);
    Arithmetic(m, va, vb * vc);
  }

  /** `a * b + c` is `(a * b) + c`. */
  lemma ProductThenSum(m: MathLibrary, a: PToken, b: PToken, c: PToken, env: map<string, real>)
    requires OperandIn(a, env) && OperandIn(b, env) && OperandIn(c, env)
    ensures var p := [a, b, Binary(Multiply), c, Binary(Plus)];
      && ToPostfix([a, Binary(Multiply), b, Binary(Plus), c]) == Some(p)
      && Bound(p, env.Keys) && Executable(p)
      && Value(m, p, env) == OperandValue(a, env) * OperandValue(b, env) + OperandValue(c, env)
  {
    UnbracketedPrecedence(a, Multiply, b, Plus, c);
    assert Rank(PriorityOf(Binary(Multiply))) >= Rank(PriorityOf(Binary(Plus)));
    UnbracketedValue(m, a, Multiply, b, Plus, c, env);
    var va, vb, vc := OperandValue(a, env), OperandValue(b, env), OperandValue(c, env);
    Arithmetic(m, va, vb);
    Arithmetic(m, va * vb, vc);
  }

  /** `a - b - c` is `(a - b) - c`: equal priorities group from the left. */
  lemma SubtractionFromLeft(m: MathLibrary, a: PToken, b: PToken, c: PToken, env: map<string, real>)
    requires OperandIn(a, env) && OperandIn(b, env) && OperandIn(c, env)
    ensures var p := [a, b, Binary(Minus), c, Binary(Minus)];
      && ToPostfix([a, Binary(Minus), b, Binary(Minus), c]) == Some(p)
      && Bound(p, env.Keys) && Executable(p)
      && Value(m, p, env) == OperandValue(a, env) - OperandValue(b, env) - OperandValue(c, env)
  {
    UnbracketedPrecedence(a, Minus, b, Minus, c);
    UnbracketedValue(m, a, Minus, b, Minus, c, env);
    var va, vb, vc := OperandValue(a, env), OperandValue(b, env), OperandValue(c, env);
    Arithmetic(m, va, vb);
    Arithmetic(m, va - vb, vc);
  }

  /** `-x`: the grammar rewrites the sign to '$', which compiles to
      `x $` and negates; the lexeme as scanned would compile to `x -`,
      which pops an empty stack when executed. */
  lemma SignRewritten(m: MathLibrary, env: map<string, real>)
    requires "x" in env
    ensures var raw := [OperatorToken('-'), VariableToken("x")];
      var rw := [OperatorToken('$'), VariableToken("x")];
      var p := [Variable("x"), Unary(UnaryMinus)];
      && Rewrites(raw, rw) && Compilable(rw)
      && ToPostfix(Created(rw)) == Some(p)
      && Bound(p, env.Keys) && Executable(p) && Value(m, p, env) == -env["x"]
      && Compilable(raw) && ToPostfix(Created(raw)) == Some([Variable("x"), Binary(Minus)])
      && !Executable([Variable("x"), Binary(Minus)])
  {
    SignLexemes();
    SignConverts();
    SignExecutes(m, env);
  }

  lemma SignLexemes()
    ensures var raw := [OperatorToken('-'), VariableToken("x")];
      var rw := [OperatorToken('$'), VariableToken("x")];
      && Rewrites(raw, rw) && AllCreated(rw) && AllCreated(raw)
      && Created(rw) == [Unary(UnaryMinus), Variable("x")]
      && Created(raw) == [Binary(Minus), Variable("x")]
  {
    assert FunctionToken("x") == None;
  }

  lemma SignConverts()
    ensures ToPostfix([Unary(UnaryMinus), Variable("x")]) == Some([Variable("x"), Unary(UnaryMinus)])
    ensures ToPostfix([Binary(Minus), Variable("x")]) == Some([Variable("x"), Binary(Minus)])
  {
    var x := Variable("x");
    var empty: seq<PToken> := [];
    assert [Unary(UnaryMinus)] + empty == [Unary(UnaryMinus)] && empty + [x] == [x];
    assert [Unary(UnaryMinus), x] == [Unary(UnaryMinus)] + ([x] + empty);
    ConvertStep(Unary(UnaryMinus), [x] + empty, Shunt([], []));
    ConvertStep(x, empty, Shunt([Unary(UnaryMinus)], []));
    assert [x] + [Unary(UnaryMinus)] == [x, Unary(UnaryMinus)];
    FirstOperatorPushed(Minus, []);
    assert [Binary(Minus), x] == [Binary(Minus)] + ([x] + empty);
    ConvertStep(Binary(Minus), [x] + empty, Shunt([], []));
    ConvertStep(x, empty, Shunt([Binary(Minus)], []));
    assert [x] + [Binary(Minus)] == [x, Binary(Minus)];
  }

  lemma SignExecutes(m: MathLibrary, env: map<string, real>)
    requires "x" in env
    ensures var p := [Variable("x"), Unary(UnaryMinus)];
      Bound(p, env.Keys) && Executable(p) && Value(m, p, env) == -env["x"]
    ensures !Executable([Variable("x"), Binary(Minus)])
  {
    var x := Variable("x");
    assert [x, Unary(UnaryMinus)][1..] == [Unary(UnaryMinus)] && [Unary(UnaryMinus)][1..] == [];
    assert [x, Binary(Minus)][1..] == [Binary(Minus)];
    assert Depth([x, Unary(UnaryMinus)], 0) == Depth([Unary(UnaryMinus)], 1) == Depth([], 1);
    assert Depth([x, Binary(Minus)], 0) == Depth([Binary(Minus)], 1) == None;
    assert Run(m, [x, Unary(UnaryMinus)], [], env) == Run(m, [Unary(UnaryMinus)], [env["x"]], env);
    var one := [env["x"]];
    assert one[..0] == [];
    assert Run(m, [Unary(UnaryMinus)], one, env) == Run(m, [], [-env["x"]], env);
  }

  // ---------------------------------------------------------------------
  // Execution and printing of a whole list

  /** The postfix list can be executed: no operator pops an empty stack and
      a value is left to return. */
  predicate Executable(ts: seq<PToken>)
  {
    Depth(ts, 0).Some? && Depth(ts, 0).value >= 1
  }

  /** The result of `execute()`: the top of the stack after every effect,
      or the smallest double for an empty list. */
  function Value(m: MathLibrary, ts: seq<PToken>, env: map<string, real>): real
    requires Bound(ts, env.Keys) && (ts != [] ==> Executable(ts))
  {
    if ts == [] then DoubleMin
    else
      var st := Run(m, ts, [], env).value;
      st[|st| - 1]
  }

  /** The value of a compiled bracketed expression is the expression's value. */
  lemma ValueOfExpression(m: MathLibrary, e: Expr, env: map<string, real>)
    requires Names(e) <= env.Keys
    ensures Bound(PostfixOf(e), env.Keys) && Executable(PostfixOf(e))
    ensures Value(m, PostfixOf(e), env) == Eval(m, e, env)
  {
    ConversionCorrect(m, e, env);
  }

  /** The printed form of a token list: each token's string with a
      variable's "=value" part removed. */
  function Description(ts: seq<PToken>, env: map<string, real>, fmt: real -> string): string
    requires Bound(ts, env.Keys)
  {
    if ts == [] then []
    else StripValue(TokenString(ts[0], env, fmt)) + Description(ts[1..], env, fmt)
  }

  /** The description never shows the variables' values: two environments
      give the same text. */
  lemma {:induction false} DescriptionIgnoresValues(ts: seq<PToken>, env1: map<string, real>, env2: map<string, real>, fmt: real -> string)
    requires Bound(ts, env1.Keys) && Bound(ts, env2.Keys)
    requires forall i :: 0 <= i < |ts| && ts[i].Variable? ==> '=' !in ts[i].name
    requires forall v :: '=' !in fmt(v)
    ensures Description(ts, env1, fmt) == Description(ts, env2, fmt)
    decreases |ts|
  {
    if ts != [] {
      var t := ts[0];
      if t.Variable? {
        StripVariable(t, env1, fmt);
        StripVariable(t, env2, fmt);
      } else {
        StripOther(t, env1, fmt);
        StripOther(t, env2, fmt);
      }
      DescriptionIgnoresValues(ts[1..], env1, env2, fmt);
    }
  }

  // ---------------------------------------------------------------------
  // The compiled expression

  /** `vars` holds the bindings of `vars0` unchanged, plus a cell holding
      0.0 for each name of `names` that `vars0` did not bind. */
  ghost predicate Registered(vars0: map<string, Cell>, vars: map<string, Cell>, names: set<string>)
    reads vars.Values
  {
    && vars.Keys == vars0.Keys + names
    && (forall n :: n in vars0 ==> n in vars && vars[n] == vars0[n])
    && (forall n :: n in vars && n !in vars0 ==> vars[n].value == 0.0)
  }

  lemma RegisteredTrans(vars0: map<string, Cell>, vars1: map<string, Cell>, vars2: map<string, Cell>, names1: set<string>, names2: set<string>)
    requires Registered(vars0, vars1, names1) && Registered(vars1, vars2, names2)
    ensures Registered(vars0, vars2, names1 + names2)
  {
    forall n | n in vars2 && n !in vars0
      ensures vars2[n].value == 0.0
    {
      if n in vars1 {
        assert vars2[n] == vars1[n];
      }
    }
  }

  class PostfixExpr {
    var successfullyParsed: bool
    /** The error message after a failed parse; the description after
        `InfixString`. */
    var infixText: string
    /** The tokens in their infix order. */
    var infixOrdered: seq<PToken>
    /** The tokens in postfix order. */
    var postfix: seq<PToken>
    /** The expression's variables. */
    var vm: VariablesManager

    ghost predicate Valid()
      reads this, vm
    {
      && vm.Valid()
      && Bound(infixOrdered, vm.vars.Keys)
      && Bound(postfix, vm.vars.Keys)
      && ToPostfix(infixOrdered) == Some(postfix)
    }

    /** Scan and compile `text`.  `verdict` is the grammar's verdict on the
        lexemes: when it accepts, the token buffer it leaves is the lexemes
        with signs and arctangent commas rewritten, and it accepts only
        what the postfix builder can handle. */
    constructor (text: string, verdict: GrammarVerdict)
      requires '\0' !in text
      requires verdict.Accepted? ==>
        Rewrites(Tokenize(text + ['\0'], 0), verdict.rewritten) && Compilable(verdict.rewritten)
      ensures Valid() && fresh(vm)
      ensures var lexemes := Tokenize(text + ['\0'], 0);
        && (successfullyParsed <==> verdict.Accepted? && |lexemes| > 0)
        && (successfullyParsed ==> infixOrdered == Created(verdict.rewritten))
      ensures Registered(map[], vm.vars, NamesOf(infixOrdered))
      ensures !successfullyParsed ==> infixOrdered == [] && postfix == []
      ensures !successfullyParsed ==> infixText == if verdict.Rejected? then verdict.message else ""
    {
      successfullyParsed := false;
      infixText := "";
      infixOrdered := [];
      postfix := [];
      vm := new VariablesManager();
      new;
      var scanner := new Scanner();
      var count, errString := scanner.Parse(text, verdict);
      if count > 0 {
        MakePostfix(scanner.tokens);
        successfullyParsed := true;
      } else {
        infixText := if errString.Some? then errString.value else "";
        assert Convert([], Shunt([], [])) == Some(Shunt([], []));
        assert ToPostfix(infixOrdered) == Some(postfix) by {
          assert infixOrdered == [] && postfix == [] && [] + [] == postfix;
        }
      }
    }

    /** The token for one lexeme; a variable name seen for the first time is
        registered with the value 0.0. */
    method CreateVariableAware(t: InfixToken) returns (r: Option<PToken>)
      requires vm.Valid()
      modifies vm
      ensures vm.Valid()
      ensures r == CreateToken(t)
      ensures Registered(old(vm.vars), vm.vars, if r.Some? then NameOf(r.value) else {})
    {
      r := CreateToken(t);
      if r.Some? && r.value.Variable? && !vm.ContainsVariable(r.value.name) {
        var _ := vm.AddVariable(r.value.name, 0.0);
        assert forall n :: n in old(vm.vars) ==> n in vm.vars - {r.value.name};
      }
    }

    /** One step of `makePostfix`: create the token of lexeme `i`, append
        it to the infix-ordered list and apply its parse effect. */
    method AddToken(tokens: seq<InfixToken>, i: nat, ops: seq<PToken>, out: seq<PToken>, ghost vars0: map<string, Cell>)
        returns (ops': seq<PToken>, out': seq<PToken>)
      requires i < |tokens| && Compilable(tokens) && vm.Valid()
      requires infixOrdered == Created(tokens)[..i] && OperatorStack(ops)
      requires Convert(Created(tokens)[..i], Shunt([], [])) == Some(Shunt(ops, out))
      requires Registered(vars0, vm.vars, NamesOf(Created(tokens)[..i]))
      modifies this`infixOrdered, vm
      ensures vm.Valid() && OperatorStack(ops')
      ensures infixOrdered == Created(tokens)[..i + 1]
      ensures Convert(Created(tokens)[..i + 1], Shunt([], [])) == Some(Shunt(ops', out'))
      ensures Registered(vars0, vm.vars, NamesOf(Created(tokens)[..i + 1]))
    {
      ghost var all := Created(tokens);
      ghost var mid := vm.vars;
      var t := CreateVariableAware(tokens[i]);
      assert t.value == all[i];
      NamesNext(all, i);
      RegisteredTrans(vars0, mid, vm.vars, NamesOf(all[..i]), NameOf(all[i]));
      ConvertNext(all, i, Shunt(ops, out));
      infixOrdered := infixOrdered + [t.value];
      ops', out' := ParseEffectStep(t.value, ops, out);
    }

    /** Create each token, keep it in infix order and apply its parse
        effect, then pop what is left on the operator stack. */
    method MakePostfix(tokens: seq<InfixToken>)
      requires vm.Valid() && Compilable(tokens)
      modifies this, vm
      ensures vm == old(vm) && Valid()
      ensures infixOrdered == Created(tokens)
      ensures Registered(old(vm.vars), vm.vars, NamesOf(infixOrdered))
    {
      ghost var all := Created(tokens);
      infixOrdered := [];
      var ops: seq<PToken> := [];
      var out: seq<PToken> := [];
      var i := 0;
      while i < |tokens|
        invariant 0 <= i <= |tokens| && vm == old(vm) && vm.Valid()
        invariant infixOrdered == all[..i] && OperatorStack(ops)
        invariant Convert(all[..i], Shunt([], [])) == Some(Shunt(ops, out))
        invariant Registered(old(vm.vars), vm.vars, NamesOf(all[..i]))
      {
        ops, out := AddToken(tokens, i, ops, out, old(vm.vars));
        i := i + 1;
      }
      assert all[..i] == all;
      postfix := Flush(ops, out);
      ToPostfixBound(all, vm.vars.Keys);
    }

    /** `execute()`: apply every token's effect to a value stack and return
        the top, or the smallest double when there are no tokens.  The
        variables are read at the time of the call. */
    method Execute(m: MathLibrary) returns (r: real)
      requires Valid()
      requires postfix != [] ==> Executable(postfix)
      ensures r == Value(m, postfix, vm.Values())
    {
      var env := vm.Values();
      r := Evaluate(m, postfix, env);
      assert env == vm.Values();
    }

    /** `infixString()`: rebuild the description from the tokens in infix
        order, store it and return it. */
    method InfixString(fmt: real -> string) returns (s: string)
      requires Valid()
      modifies this`infixText
      ensures s == infixText == Description(infixOrdered, vm.Values(), fmt)
    {
      var env := vm.Values();
      var ts := infixOrdered;
      s := [];
      var i := 0;
      while i < |ts|
        invariant 0 <= i <= |ts| && Bound(ts, env.Keys)
        invariant s == Description(ts[..i], env, fmt)
      {
        DescriptionNext(ts, i, env, fmt);
        s := s + StripValue(TokenString(ts[i], env, fmt));
        i := i + 1;
      }
      assert ts[..i] == ts;
      infixText := s;
      assert env == vm.Values();
    }

    /** `variablesManager()`: a copy bound to the same cells. */
    method VariablesManagerCopy() returns (r: VariablesManager)
      requires Valid()
      ensures fresh(r) && r.Valid() && r.vars == vm.vars
    {
      r := vm.Copy();
    }
  }

  /** One token's parse effect on the operator stack (top first) and the
      output. */
  method ParseEffectStep(t: PToken, ops: seq<PToken>, out: seq<PToken>) returns (ops': seq<PToken>, out': seq<PToken>)
    requires OperatorStack(ops) && ParseEffect(t, Shunt(ops, out)).Some?
    ensures Some(Shunt(ops', out')) == ParseEffect(t, Shunt(ops, out))
  {
    match t
    case Number(_) => ops', out' := ops, out + [t];
    case Variable(_) => ops', out' := ops, out + [t];
    case OpenBracket => ops', out' := [t] + ops, out;
    case Unary(_) => ops', out' := [t] + ops, out;
    case CloseBracket =>
      ops', out' := PopToOpen(ops, out);
      ops' := ops'[1..];
    case Binary(_) =>
      ops', out' := PopWhileAtLeast(Rank(PriorityOf(t)), ops, out);
      ops' := [t] + ops';
  }

  /** Pop every operator left on the stack to the output. */
  method Flush(ops: seq<PToken>, out: seq<PToken>) returns (r: seq<PToken>)
    ensures r == out + ops
  {
    var rest := ops;
    r := out;
    while rest != []
      invariant r + rest == out + ops
      decreases |rest|
    {
      r := r + [rest[0]];
      assert r + rest[1..] == out + ops;
      rest := rest[1..];
    }
  }

  /** Pop operators to the output while the top is not an open bracket. */
  method PopToOpen(ops: seq<PToken>, out: seq<PToken>) returns (ops': seq<PToken>, out': seq<PToken>)
    requires OperatorStack(ops)
    ensures Shunt(ops', out') == Pop(Shunt(ops, out), OpenDepth(ops))
  {
    ops', out' := ops, out;
    var k := 0;
    while ops' != [] && PriorityOf(ops'[0]) != Lowest
      invariant k <= OpenDepth(ops) && ops' == ops[k..] && out' == out + ops[..k]
      decreases |ops'|
    {
      out' := out' + [ops'[0]];
      ops' := ops'[1..];
      assert ops[..k + 1] == ops[..k] + [ops[k]];
      k := k + 1;
    }
  }

  /** Pop operators to the output while the top's priority is at least
      `rank`. */
  method PopWhileAtLeast(rank: int, ops: seq<PToken>, out: seq<PToken>) returns (ops': seq<PToken>, out': seq<PToken>)
    requires OperatorStack(ops)
    ensures Shunt(ops', out') == Pop(Shunt(ops, out), PopCount(rank, ops))
  {
    ops', out' := ops, out;
    var k := 0;
    while ops' != [] && rank <= Rank(PriorityOf(ops'[0]))
      invariant k <= PopCount(rank, ops) && ops' == ops[k..] && out' == out + ops[..k]
      decreases |ops'|
    {
      out' := out' + [ops'[0]];
      ops' := ops'[1..];
      assert ops[..k + 1] == ops[..k] + [ops[k]];
      k := k + 1;
    }
  }

  /** The loop of `execute()`: every token's effect in turn on a value
      stack, then the top. */
  method Evaluate(m: MathLibrary, ts: seq<PToken>, env: map<string, real>) returns (r: real)
    requires Bound(ts, env.Keys) && (ts != [] ==> Executable(ts))
    ensures r == Value(m, ts, env)
  {
    if |ts| > 0 {
      var stack: seq<real> := [];
      var i := 0;
      assert ts[0..] == ts;
      ghost var all := Run(m, ts, [], env);
      while i < |ts|
        invariant 0 <= i <= |ts|
        invariant Bound(ts[i..], env.Keys)
        invariant Run(m, ts[i..], stack, env) == all
      {
        RunAt(m, ts, i, stack, env);
        stack := Effect(m, ts[i], stack, env);
        i := i + 1;
      }
      assert ts[i..] == [];
      r := stack[|stack| - 1];
    } else {
      r := DoubleMin;
    }
  }

  /** Running from position `i` is the effect of token `i` and then running
      from `i + 1`. */
  lemma RunAt(m: MathLibrary, ts: seq<PToken>, i: nat, stack: seq<real>, env: map<string, real>)
    requires i < |ts| && Bound(ts[i..], env.Keys) && Run(m, ts[i..], stack, env).Some?
    ensures |stack| >= Arity(ts[i]) && (ts[i].Variable? ==> ts[i].name in env)
    ensures Bound(ts[i + 1..], env.Keys)
    ensures Run(m, ts[i + 1..], Effect(m, ts[i], stack, env), env) == Run(m, ts[i..], stack, env)
  {
    RunStep(m, ts[i..], stack, env);
    assert ts[i..][0] == ts[i] && ts[i..][1..] == ts[i + 1..];
  }

  /** Running a list that runs is one effect and then the rest. */
  lemma RunStep(m: MathLibrary, ts: seq<PToken>, stack: seq<real>, env: map<string, real>)
    requires ts != [] && Bound(ts, env.Keys) && Run(m, ts, stack, env).Some?
    ensures |stack| >= Arity(ts[0]) && (ts[0].Variable? ==> ts[0].name in env)
    ensures Bound(ts[1..], env.Keys)
    ensures Run(m, ts, stack, env) == Run(m, ts[1..], Effect(m, ts[0], stack, env), env)
  {
    assert forall i :: 0 <= i < |ts| - 1 ==> ts[1..][i] == ts[i + 1];
  }

  /** Converting one more token of a list that converts. */
  lemma ConvertNext(all: seq<PToken>, i: nat, s: Shunt)
    requires i < |all| && Convert(all, Shunt([], [])).Some?
    requires OperatorStack(s.ops) && Convert(all[..i], Shunt([], [])) == Some(s)
    ensures ParseEffect(all[i], s).Some?
    ensures Convert(all[..i + 1], Shunt([], [])) == ParseEffect(all[i], s)
    ensures all[..i + 1] == all[..i] + [all[i]]
  {
    ConvertAppend(all[..i], [all[i]], Shunt([], []));
    assert all[..i + 1] == all[..i] + [all[i]];
    PrefixConverts(all, i + 1);
    assert [all[i]][1..] == [];
  }

  lemma NamesNext(ts: seq<PToken>, i: nat)
    requires i < |ts|
    ensures NamesOf(ts[..i + 1]) == NamesOf(ts[..i]) + NameOf(ts[i])
  {
    assert forall j :: 0 <= j < i ==> ts[..i + 1][j] == ts[..i][j];
  }

  lemma DescriptionNext(ts: seq<PToken>, i: nat, env: map<string, real>, fmt: real -> string)
    requires i < |ts| && Bound(ts, env.Keys)
    ensures Bound(ts[..i], env.Keys) && Bound(ts[..i + 1], env.Keys)
    ensures Description(ts[..i + 1], env, fmt) == Description(ts[..i], env, fmt) + StripValue(TokenString(ts[i], env, fmt))
  {
    assert ts[..i + 1] + ts[i + 1..] == ts;
    BoundSplit(ts[..i + 1], ts[i + 1..], env.Keys);
    assert ts[..i] + [ts[i]] == ts[..i + 1];
    DescriptionAppend(ts[..i], [ts[i]], env, fmt);
    assert [ts[i]][1..] == [];
  }

  lemma {:induction false} DescriptionAppend(a: seq<PToken>, b: seq<PToken>, env: map<string, real>, fmt: real -> string)
    requires Bound(a + b, env.Keys)
    ensures Bound(a, env.Keys) && Bound(b, env.Keys)
    ensures Description(a + b, env, fmt) == Description(a, env, fmt) + Description(b, env, fmt)
    decreases |a|
  {
    BoundSplit(a, b, env.Keys);
    if a == [] {
      assert a + b == b;
    } else {
      assert (a + b)[0] == a[0];
      TailOfAppend(a, b);
      BoundSplit([a[0]], a[1..] + b, env.Keys);
      assert [a[0]] + (a[1..] + b) == a + b;
      DescriptionAppend(a[1..], b, env, fmt);
      StringAssoc(StripValue(TokenString(a[0], env, fmt)), Description(a[1..], env, fmt), Description(b, env, fmt));
    }
  }

  lemma TailOfAppend(a: seq<PToken>, b: seq<PToken>)
    requires a != []
    ensures (a + b)[1..] == a[1..] + b
  {
    assert |(a + b)[1..]| == |a[1..] + b|;
  }

  /** A list whose variables are bound has both halves bound. */
  lemma BoundSplit(a: seq<PToken>, b: seq<PToken>, names: set<string>)
    requires Bound(a + b, names)
    ensures Bound(a, names) && Bound(b, names)
  {
    assert forall i :: 0 <= i < |a| ==> a[i] == (a + b)[i];
    assert forall i :: 0 <= i < |b| ==> b[i] == (a + b)[|a| + i];
  }

  /** Two lists whose variables are bound make a bound list. */
  lemma BoundJoin(a: seq<PToken>, b: seq<PToken>, names: set<string>)
    requires Bound(a, names) && Bound(b, names)
    ensures Bound(a + b, names)
  {
    forall i | 0 <= i < |a + b| && (a + b)[i].Variable?
      ensures (a + b)[i].name in names
    {
      if i < |a| { assert (a + b)[i] == a[i]; } else { assert (a + b)[i] == b[i - |a|]; }
    }
  }

  lemma StringAssoc(x: string, y: string, z: string)
    ensures x + (y + z) == (x + y) + z
  {
  }
}
