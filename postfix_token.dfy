// The tokens of a postfix (reverse Polish) expression: what each token does
// while the infix token list is converted to postfix order (its
// "parse effect", the shunting-yard step), what it does on the value stack
// when the postfix list is executed (its "effect"), and how it is printed.

module PostfixTokens {

  import opened Wrappers

  /** The operator priorities, lowest first. */
  datatype Priority = Lowest | Low | Middle | High

  /** The numeric value of a priority in the source's enumeration. */
  function Rank(p: Priority): int
  {
    match p
    case Lowest => 1
    case Low => 2
    case Middle => 3
    case High => 4
  }

  /** The one-operand operators: unary minus and the named functions. */
  datatype UnaryOp =
    | UnaryMinus | Sine | Cosine | ArcCosine | ArcTangent | SquareRoot | Exponent | Absolute

  /** The two-operand operators. */
  datatype BinaryOp = Involution | ArcTangent2 | Minus | Plus | Multiply | Divide

  datatype PToken =
    | Number(value: real)
    | Variable(name: string)
    | Unary(uop: UnaryOp)
    | Binary(bop: BinaryOp)
    | OpenBracket
    | CloseBracket

  predicate IsOperand(t: PToken) { t.Number? || t.Variable? }

  predicate IsBracket(t: PToken) { t.OpenBracket? || t.CloseBracket? }

  /** Priority of an operator token.  Brackets keep the base priority. */
  function PriorityOf(t: PToken): (p: Priority)
    requires !IsOperand(t)
    ensures p == Lowest <==> IsBracket(t)
    ensures t.Unary? ==> p == High
    ensures t == Binary(Plus) || t == Binary(Minus) ==> p == Low
    ensures t == Binary(Multiply) || t == Binary(Divide) ==> p == Middle
    ensures t == Binary(Involution) || t == Binary(ArcTangent2) ==> p == High
  {
    match t
    case OpenBracket => Lowest
    case CloseBracket => Lowest
    case Unary(_) => High
    case Binary(b) =>
      match b
      case Involution => High
      case ArcTangent2 => High
      case Minus => Low
      case Plus => Low
      case Multiply => Middle
      case Divide => Middle
  }

  // ---------------------------------------------------------------------
  // Execution: the effect of each token on the value stack (top = last)

  /** The host math library, which the model does not reimplement:
      `divideByZero` stands for the IEEE result of `x / 0`, which has no
      real-number value. */
  datatype MathLibrary = MathLibrary(
    sin: real -> real, cos: real -> real, acos: real -> real, atan: real -> real,
    sqrt: real -> real, exp: real -> real, pow: (real, real) -> real,
    atan2f: (real, real) -> real, divideByZero: real -> real)

  function Abs(x: real): real { if x < 0.0 then -x else x }

  /** The result of a one-operand operator on the value `x`: the named
      functions are the host library's, the absolute value is never
      negative and keeps the magnitude. */
  function ApplyUnary(m: MathLibrary, u: UnaryOp, x: real): (r: real)
    ensures u == UnaryMinus ==> r + x == 0.0
    ensures u == Absolute ==> r >= 0.0 && (r == x || r == -x)
    ensures u == Sine ==> r == m.sin(x)
    ensures u == Cosine ==> r == m.cos(x)
    ensures u == ArcCosine ==> r == m.acos(x)
    ensures u == ArcTangent ==> r == m.atan(x)
    ensures u == SquareRoot ==> r == m.sqrt(x)
    ensures u == Exponent ==> r == m.exp(x)
  {
    match u
    case UnaryMinus => -x
    case Sine => m.sin(x)
    case Cosine => m.cos(x)
    case ArcCosine => m.acos(x)
    case ArcTangent => m.atan(x)
    case SquareRoot => m.sqrt(x)
    case Exponent => m.exp(x)
    case Absolute => Abs(x)
  }

  /** The result of a two-operand operator; `x` is the first-pushed
      (left) operand, `y` the second (right).  The power and the
      two-argument arctangent are the host library's, and a division by
      zero gives the library's value for it. */
  function ApplyBinary(m: MathLibrary, b: BinaryOp, x: real, y: real): (r: real)
    ensures b == Plus ==> r - y == x
    ensures b == Minus ==> r + y == x
    ensures b == Multiply ==> (y != 0.0 ==> r / y == x) && (x == 0.0 || y == 0.0 ==> r == 0.0)
    ensures b == Divide && y != 0.0 ==> r * y == x
    ensures b == Divide && y == 0.0 ==> r == m.divideByZero(x)
    ensures b == Involution ==> r == m.pow(x, y)
    ensures b == ArcTangent2 ==> r == m.atan2f(x, y)
  {
    match b
    case Involution => m.pow(x, y)
    case ArcTangent2 => m.atan2f(x, y)
    case Minus => x - y
    case Plus => x + y
    case Multiply => x * y
    case Divide => if y == 0.0 then m.divideByZero(x) else x / y
  }

  /** How many values a token pops before pushing its result. */
  function Arity(t: PToken): nat
  {
    match t
    case Unary(_) => 1
    case Binary(_) => 2
    case _ => 0
  }

  /** How much a token changes the height of the value stack. */
  function Growth(t: PToken): int
  {
    match t
    case Number(_) => 1
    case Variable(_) => 1
    case Unary(_) => 0
    case Binary(_) => -1
    case _ => 0
  }

  /** Every variable a token list reads is one of `names`. */
  predicate Bound(ts: seq<PToken>, names: set<string>)
  {
    forall i :: 0 <= i < |ts| && ts[i].Variable? ==> ts[i].name in names
  }

  /** One token's `effect`: an operand pushes its value, an operator pops
      its operands (the second operand first) and pushes its result, and a
      bracket left in the list does nothing. */
  function Effect(m: MathLibrary, t: PToken, stack: seq<real>, env: map<string, real>): (r: seq<real>)
    requires |stack| >= Arity(t)
    requires t.Variable? ==> t.name in env
    ensures |r| == |stack| + Growth(t)
    ensures r[..|stack| - Arity(t)] == stack[..|stack| - Arity(t)]
  {
    var n := |stack|;
    match t
    case Number(v) => stack + [v]
    case Variable(name) => stack + [env[name]]
    case Unary(u) => stack[..n - 1] + [ApplyUnary(m, u, stack[n - 1])]
    case Binary(b) => stack[..n - 2] + [ApplyBinary(m, b, stack[n - 2], stack[n - 1])]
    case _ => stack
  }

  /** The stack height after running `ts` from height `d`, or None when
      some operator would pop an empty stack.  It depends on the tokens
      only, never on the values. */
  function Depth(ts: seq<PToken>, d: int): Option<int>
  {
    if ts == [] then Some(d)
    else if d < Arity(ts[0]) then None
    else Depth(ts[1..], d + Growth(ts[0]))
  }

  /** Running the effects of `ts` in order on `stack`; None when the stack
      would underflow. */
  function Run(m: MathLibrary, ts: seq<PToken>, stack: seq<real>, env: map<string, real>): (r: Option<seq<real>>)
    requires Bound(ts, env.Keys)
    ensures r.Some? <==> Depth(ts, |stack|).Some?
    ensures r.Some? ==> |r.value| == Depth(ts, |stack|).value
  {
    if ts == [] then Some(stack)
    else if |stack| < Arity(ts[0]) then None
    else Run(m, ts[1..], Effect(m, ts[0], stack, env), env)
  }

  /** Running a concatenation is running its parts in turn. */
  lemma {:induction false} RunAppend(m: MathLibrary, a: seq<PToken>, b: seq<PToken>, stack: seq<real>, env: map<string, real>)
    requires Bound(a + b, env.Keys)
    ensures Bound(a, env.Keys) && Bound(b, env.Keys)
    ensures Run(m, a + b, stack, env)
         == match Run(m, a, stack, env)
            case None => None
            case Some(s) => Run(m, b, s, env)
    decreases |a|
  {
    assert forall i :: 0 <= i < |a| ==> a[i] == (a + b)[i];
    assert forall i :: 0 <= i < |b| ==> b[i] == (a + b)[|a| + i];
    if a == [] {
      assert a + b == b;
    } else if |stack| >= Arity(a[0]) {
      assert (a + b)[1..] == a[1..] + b;
      RunAppend(m, a[1..], b, Effect(m, a[0], stack, env), env);
    }
  }

  // ---------------------------------------------------------------------
  // Conversion: the parse effect of each token (shunting-yard step)

  /** The operator stack (top first) and the postfix output so far. */
  datatype Shunt = Shunt(ops: seq<PToken>, out: seq<PToken>)

  /** Only operator tokens are ever pushed on the operator stack. */
  predicate OperatorStack(ops: seq<PToken>)
  {
    forall i :: 0 <= i < |ops| ==> !IsOperand(ops[i])
  }

  /** How many operators are popped, from the top, while the stack is not
      empty and the top's priority is at least `rank`. */
  function PopCount(rank: int, ops: seq<PToken>): (k: nat)
    requires OperatorStack(ops)
    ensures k <= |ops|
    ensures forall i :: 0 <= i < k ==> rank <= Rank(PriorityOf(ops[i]))
    ensures k < |ops| ==> Rank(PriorityOf(ops[k])) < rank
  {
    if ops != [] && rank <= Rank(PriorityOf(ops[0])) then 1 + PopCount(rank, ops[1..]) else 0
  }

  /** How many operators are popped, from the top, until the top is an open
      bracket (the only operator of the lowest priority that is ever pushed)
      or the stack is empty. */
  function OpenDepth(ops: seq<PToken>): (k: nat)
    requires OperatorStack(ops)
    ensures k <= |ops|
    ensures forall i :: 0 <= i < k ==> PriorityOf(ops[i]) != Lowest
    ensures k < |ops| ==> PriorityOf(ops[k]) == Lowest
  {
    if ops != [] && PriorityOf(ops[0]) != Lowest then 1 + OpenDepth(ops[1..]) else 0
  }

  /** Move the top `k` operators, top first, to the output. */
  function Pop(s: Shunt, k: nat): (r: Shunt)
    requires k <= |s.ops|
  {
    Shunt(s.ops[k..], s.out + s.ops[..k])
  }

  /** The parse effect of an operator: pop every stacked operator of lower
      or equal priority, then push itself. */
  function OperatorEffect(t: PToken, s: Shunt): (r: Shunt)
    requires !IsOperand(t) && OperatorStack(s.ops)
    ensures OperatorStack(r.ops)
  {
    var p := Pop(s, PopCount(Rank(PriorityOf(t)), s.ops));
    Shunt([t] + p.ops, p.out)
  }

  /** The parse effect of a close bracket: pop down to the open bracket and
      discard it.  None when there is no open bracket to discard (the source
      then pops an empty stack). */
  function CloseEffect(s: Shunt): (r: Option<Shunt>)
    requires OperatorStack(s.ops)
    ensures r.Some? ==> OperatorStack(r.value.ops)
    ensures r.None? <==> OpenDepth(s.ops) == |s.ops|
  {
    var p := Pop(s, OpenDepth(s.ops));
    if p.ops == [] then None else Some(Shunt(p.ops[1..], p.out))
  }

  /** One parse effect, with prefix operators (unary minus and the named
      functions) pushed without popping anything: they have no left operand,
      so nothing on the stack can be complete yet. */
  function ParseEffect(t: PToken, s: Shunt): (r: Option<Shunt>)
    requires OperatorStack(s.ops)
    ensures r.Some? ==> OperatorStack(r.value.ops)
  {
    match t
    case Number(_) => Some(Shunt(s.ops, s.out + [t]))
    case Variable(_) => Some(Shunt(s.ops, s.out + [t]))
    case OpenBracket => Some(Shunt([t] + s.ops, s.out))
    case CloseBracket => CloseEffect(s)
    case Unary(_) => Some(Shunt([t] + s.ops, s.out))
    case Binary(_) => Some(OperatorEffect(t, s))
  }

  /** The parse effect as the source writes it: a unary operator or a
      function takes the generic operator rule and first pops every stacked
      operator of priority HIGH. */
  function ParseEffectAsWritten(t: PToken, s: Shunt): (r: Option<Shunt>)
    requires OperatorStack(s.ops)
    ensures r.Some? ==> OperatorStack(r.value.ops)
  {
    if t.Unary? then Some(OperatorEffect(t, s)) else ParseEffect(t, s)
  }

  /** Every parse effect of `ts` in turn, from state `s`. */
  function Convert(ts: seq<PToken>, s: Shunt): (r: Option<Shunt>)
    requires OperatorStack(s.ops)
    ensures r.Some? ==> OperatorStack(r.value.ops)
  {
    if ts == [] then Some(s)
    else match ParseEffect(ts[0], s)
      case None => None
      case Some(s') => Convert(ts[1..], s')
  }

  function ConvertAsWritten(ts: seq<PToken>, s: Shunt): (r: Option<Shunt>)
    requires OperatorStack(s.ops)
    ensures r.Some? ==> OperatorStack(r.value.ops)
  {
    if ts == [] then Some(s)
    else match ParseEffectAsWritten(ts[0], s)
      case None => None
      case Some(s') => ConvertAsWritten(ts[1..], s')
  }

  /** The postfix list: convert every token, then pop what is left on the
      operator stack onto the output. */
  function ToPostfix(ts: seq<PToken>): Option<seq<PToken>>
  {
    match Convert(ts, Shunt([], []))
    case None => None
    case Some(s) => Some(s.out + s.ops)
  }

  function ToPostfixAsWritten(ts: seq<PToken>): Option<seq<PToken>>
  {
    match ConvertAsWritten(ts, Shunt([], []))
    case None => None
    case Some(s) => Some(s.out + s.ops)
  }

  /** The two rules differ only on prefix operators: on a list without
      unary minus and named functions they convert alike. */
  lemma {:induction false} RulesAgreeWithoutPrefix(ts: seq<PToken>, s: Shunt)
    requires OperatorStack(s.ops)
    requires forall i :: 0 <= i < |ts| ==> !ts[i].Unary?
    ensures ConvertAsWritten(ts, s) == Convert(ts, s)
    decreases |ts|
  {
    if ts != [] {
      match ParseEffect(ts[0], s)
      case None =>
      case Some(s') => RulesAgreeWithoutPrefix(ts[1..], s');
    }
  }

  // ---------------------------------------------------------------------
  // Precedence and associativity

  /** An operator arriving over a stacked operator of the same or a higher
      priority outputs that operator before it is pushed itself: equal
      priorities associate to the left, and higher ones bind tighter. */
  lemma PopsAtLeastAsHigh(op: BinaryOp, top: PToken, ops: seq<PToken>, out: seq<PToken>)
    requires !IsOperand(top) && OperatorStack(ops)
    requires Rank(PriorityOf(Binary(op))) <= Rank(PriorityOf(top))
    ensures OperatorStack([top] + ops) && ParseEffect(Binary(op), Shunt([top] + ops, out)).Some?
    ensures var r := ParseEffect(Binary(op), Shunt([top] + ops, out)).value;
      |r.out| > |out| && r.out[..|out| + 1] == out + [top] && r.ops[0] == Binary(op)
  {
    var s := Shunt([top] + ops, out);
    assert s.ops[1..] == ops;
    assert OperatorStack(s.ops);
    var k := PopCount(Rank(PriorityOf(Binary(op))), s.ops);
    assert s.ops[0] == top;
    assert k >= 1;
    assert (out + s.ops[..k])[..|out| + 1] == out + [top];
  }

  /** An operator arriving over a stacked token of lower priority (an open
      bracket included) pops nothing and is pushed on top of it. */
  lemma PushesOverLower(op: BinaryOp, top: PToken, ops: seq<PToken>, out: seq<PToken>)
    requires !IsOperand(top) && OperatorStack(ops)
    requires Rank(PriorityOf(top)) < Rank(PriorityOf(Binary(op)))
    ensures OperatorStack([top] + ops)
    ensures ParseEffect(Binary(op), Shunt([top] + ops, out)) == Some(Shunt([Binary(op), top] + ops, out))
  {
    var s := Shunt([top] + ops, out);
    assert s.ops[0] == top && s.ops[1..] == ops;
    assert OperatorStack(s.ops);
    assert PopCount(Rank(PriorityOf(Binary(op))), s.ops) == 0;
    assert s.ops[0..] == s.ops && out + s.ops[..0] == out;
    assert [Binary(op)] + s.ops == [Binary(op), top] + ops;
  }

  /** No token but a close bracket removes an open bracket from the top of
      the operator stack: every other operator is pushed over it. */
  lemma NothingPopsOpenBracket(t: PToken, ops: seq<PToken>, out: seq<PToken>)
    requires !IsOperand(t) && t != CloseBracket && OperatorStack(ops)
    ensures OperatorStack([OpenBracket] + ops)
    ensures ParseEffect(t, Shunt([OpenBracket] + ops, out)) == Some(Shunt([t, OpenBracket] + ops, out))
  {
    if t.Binary? {
      PushesOverLower(t.bop, OpenBracket, ops, out);
    } else {
      assert [t] + ([OpenBracket] + ops) == [t, OpenBracket] + ops;
    }
  }

  // ---------------------------------------------------------------------
  // What the conversion keeps

  /** The operands of a token list, in order. */
  function Operands(ts: seq<PToken>): seq<PToken>
  {
    if ts == [] then [] else (if IsOperand(ts[0]) then [ts[0]] else []) + Operands(ts[1..])
  }

  /** Every token but the brackets. */
  function NonBrackets(ts: seq<PToken>): multiset<PToken>
  {
    multiset(ts)[OpenBracket := 0][CloseBracket := 0]
  }

  lemma {:induction false} OperandsAppend(a: seq<PToken>, b: seq<PToken>)
    ensures Operands(a + b) == Operands(a) + Operands(b)
    ensures NonBrackets(a + b) == NonBrackets(a) + NonBrackets(b)
    decreases |a|
  {
    assert multiset(a + b) == multiset(a) + multiset(b);
    if a == [] {
      assert a + b == b;
    } else {
      assert (a + b)[0] == a[0];
      assert (a + b)[1..] == a[1..] + b;
      OperandsAppend(a[1..], b);
    }
  }

  lemma {:induction false} OperatorsHaveNoOperands(ops: seq<PToken>)
    requires OperatorStack(ops)
    ensures Operands(ops) == []
    decreases |ops|
  {
    if ops != [] {
      OperatorsHaveNoOperands(ops[1..]);
    }
  }

  /** The top `k` entries of an operator stack are operators. */
  lemma TopIsOperators(ops: seq<PToken>, k: nat)
    requires OperatorStack(ops) && k <= |ops|
    ensures OperatorStack(ops[..k]) && ops == ops[..k] + ops[k..]
  {
    forall i | 0 <= i < k ensures !IsOperand(ops[..k][i]) { assert ops[..k][i] == ops[i]; }
  }

  /** Moving the top of the stack to the output keeps the operand order of
      the output and the non-bracket tokens of stack and output together. */
  lemma PopKeeps(s: Shunt, k: nat)
    requires OperatorStack(s.ops) && k <= |s.ops|
    ensures Operands(Pop(s, k).out) == Operands(s.out)
    ensures NonBrackets(Pop(s, k).out) + NonBrackets(Pop(s, k).ops)
         == NonBrackets(s.out) + NonBrackets(s.ops)
  {
    var top, rest := s.ops[..k], s.ops[k..];
    TopIsOperators(s.ops, k);
    PopOperands(s.out, top);
    PopNonBrackets(s.out, top, rest);
  }

  lemma PopOperands(out: seq<PToken>, top: seq<PToken>)
    requires OperatorStack(top)
    ensures Operands(out + top) == Operands(out)
  {
    OperandsAppend(out, top);
    OperatorsHaveNoOperands(top);
    assert Operands(out) + [] == Operands(out);
  }

  lemma PopNonBrackets(out: seq<PToken>, top: seq<PToken>, rest: seq<PToken>)
    ensures NonBrackets(out + top) + NonBrackets(rest) == NonBrackets(out) + NonBrackets(top + rest)
  {
    OperandsAppend(out, top);
    OperandsAppend(top, rest);
  }

  lemma PushKeeps(t: PToken, s: Shunt)
    ensures NonBrackets([t] + s.ops) == NonBrackets([t]) + NonBrackets(s.ops)
    ensures Operands(s.out + [t]) == Operands(s.out) + Operands([t])
    ensures NonBrackets(s.out + [t]) == NonBrackets(s.out) + NonBrackets([t])
  {
    OperandsAppend([t], s.ops);
    OperandsAppend(s.out, [t]);
  }

  /** The state after `t`'s parse effect holds `t` on top of the operator
      stack or at the end of the output. */
  predicate Keeps(s: Shunt, t: PToken, r: Shunt)
  {
    && Operands(r.out) == Operands(s.out) + Operands([t])
    && NonBrackets(r.out) + NonBrackets(r.ops) == NonBrackets(s.out) + NonBrackets(s.ops) + NonBrackets([t])
  }

  lemma OperatorEffectKeeps(t: PToken, s: Shunt)
    requires !IsOperand(t) && OperatorStack(s.ops)
    ensures Keeps(s, t, OperatorEffect(t, s))
  {
    var k := PopCount(Rank(PriorityOf(t)), s.ops);
    PopKeeps(s, k);
    PushKeeps(t, Pop(s, k));
    OperatorsHaveNoOperands([t]);
  }

  lemma BracketVanishes(x: PToken)
    requires IsBracket(x)
    ensures NonBrackets([x]) == multiset{} && Operands([x]) == []
  {
    var m := NonBrackets([x]);
    forall y ensures m[y] == 0 {
      if y != OpenBracket && y != CloseBracket {
        assert multiset([x])[y] == 0;
      }
    }
  }

  lemma CloseEffectKeeps(s: Shunt)
    requires OperatorStack(s.ops) && CloseEffect(s).Some?
    ensures Keeps(s, CloseBracket, CloseEffect(s).value)
  {
    var k := OpenDepth(s.ops);
    var p := Pop(s, k);
    PopKeeps(s, k);
    DropBracket(p.ops);
    BracketVanishes(CloseBracket);
    assert Operands(s.out) + [] == Operands(s.out);
  }

  /** The bracket on top of a stack counts for nothing. */
  lemma DropBracket(ops: seq<PToken>)
    requires ops != [] && IsBracket(ops[0])
    ensures NonBrackets(ops) == NonBrackets(ops[1..])
  {
    assert ops == [ops[0]] + ops[1..];
    OperandsAppend([ops[0]], ops[1..]);
    BracketVanishes(ops[0]);
  }

  lemma PushOperatorKeeps(t: PToken, s: Shunt)
    requires !IsOperand(t)
    ensures Keeps(s, t, Shunt([t] + s.ops, s.out))
  {
    PushKeeps(t, s);
    OperatorsHaveNoOperands([t]);
    assert Operands(s.out) + Operands([t]) == Operands(s.out);
  }

  lemma OutputOperandKeeps(t: PToken, s: Shunt)
    requires IsOperand(t)
    ensures Keeps(s, t, Shunt(s.ops, s.out + [t]))
  {
    PushKeeps(t, s);
  }

  /** One parse effect moves the token into the output or onto the stack:
      the operand order of the output grows by the token's operand, and the
      non-bracket tokens of stack and output grow by the token. */
  lemma ParseEffectKeeps(t: PToken, s: Shunt)
    requires OperatorStack(s.ops) && ParseEffect(t, s).Some?
    ensures Keeps(s, t, ParseEffect(t, s).value)
  {
    if t.CloseBracket? {
      CloseEffectKeeps(s);
    } else if t.Binary? {
      OperatorEffectKeeps(t, s);
    } else if IsOperand(t) {
      OutputOperandKeeps(t, s);
    } else {
      PushOperatorKeeps(t, s);
    }
  }

  /** Conversion takes the first token's parse effect, then the rest. */
  lemma ConvertStep(ts: seq<PToken>, s: Shunt)
    requires OperatorStack(s.ops) && ts != [] && Convert(ts, s).Some?
    ensures ParseEffect(ts[0], s).Some?
    ensures Convert(ts, s) == Convert(ts[1..], ParseEffect(ts[0], s).value)
  {
  }

  /** `Keeps` for one token followed by the same for the rest is the same
      for the whole list. */
  lemma KeepsChain(s: Shunt, t: PToken, next: Shunt, rest: seq<PToken>, r: Shunt)
    requires Keeps(s, t, next)
    requires Operands(r.out) == Operands(next.out) + Operands(rest)
    requires NonBrackets(r.out) + NonBrackets(r.ops) == NonBrackets(next.out) + NonBrackets(next.ops) + NonBrackets(rest)
    ensures Operands(r.out) == Operands(s.out) + Operands([t] + rest)
    ensures NonBrackets(r.out) + NonBrackets(r.ops) == NonBrackets(s.out) + NonBrackets(s.ops) + NonBrackets([t] + rest)
  {
    OperandsAppend([t], rest);
    SeqChain(Operands(r.out), Operands(next.out), Operands(s.out), Operands([t]), Operands(rest), Operands([t] + rest));
    SumChain(NonBrackets(r.out) + NonBrackets(r.ops), NonBrackets(next.out) + NonBrackets(next.ops),
      NonBrackets(s.out) + NonBrackets(s.ops), NonBrackets([t]), NonBrackets(rest), NonBrackets([t] + rest));
  }

  lemma SeqChain(a: seq<PToken>, b: seq<PToken>, c: seq<PToken>,
                 t: seq<PToken>, rest: seq<PToken>, n: seq<PToken>)
    requires a == b + rest && b == c + t && n == t + rest
    ensures a == c + n
  {
  }

  lemma SumChain(a: multiset<PToken>, b: multiset<PToken>, c: multiset<PToken>,
                 t: multiset<PToken>, rest: multiset<PToken>, n: multiset<PToken>)
    requires a == b + rest && b == c + t && n == t + rest
    ensures a == c + n
  {
  }

  lemma {:induction false} ConvertKeeps(ts: seq<PToken>, s: Shunt)
    requires OperatorStack(s.ops) && Convert(ts, s).Some?
    ensures Operands(Convert(ts, s).value.out) == Operands(s.out) + Operands(ts)
    ensures NonBrackets(Convert(ts, s).value.out) + NonBrackets(Convert(ts, s).value.ops)
         == NonBrackets(s.out) + NonBrackets(s.ops) + NonBrackets(ts)
    decreases |ts|
  {
    if ts != [] {
      ConvertStep(ts, s);
      var t, rest := ts[0], ts[1..];
      var next := ParseEffect(t, s).value;
      ParseEffectKeeps(t, s);
      ConvertKeeps(rest, next);
      KeepsChain(s, t, next, rest, Convert(rest, next).value);
      assert ts == [t] + rest;
    }
  }

  /** The conversion keeps the operands in their infix order, and its output
      holds every token but the brackets exactly as often as the input (plus
      any open bracket that was never closed). */
  lemma ToPostfixKeepsTokens(ts: seq<PToken>)
    requires ToPostfix(ts).Some?
    ensures Operands(ToPostfix(ts).value) == Operands(ts)
    ensures NonBrackets(ToPostfix(ts).value) == NonBrackets(ts)
  {
    ConvertKeeps(ts, Shunt([], []));
    var s := Convert(ts, Shunt([], [])).value;
    OperandsAppend(s.out, s.ops);
    OperatorsHaveNoOperands(s.ops);
  }

  /** Every variable of the postfix list is a variable of the infix list. */
  lemma ToPostfixBound(ts: seq<PToken>, names: set<string>)
    requires ToPostfix(ts).Some? && Bound(ts, names)
    ensures Bound(ToPostfix(ts).value, names)
  {
    var r := ToPostfix(ts).value;
    ToPostfixKeepsTokens(ts);
    forall i | 0 <= i < |r| && r[i].Variable?
      ensures r[i].name in names
    {
      assert r[i] in multiset(r);
      assert NonBrackets(ts)[r[i]] == NonBrackets(r)[r[i]] > 0;
      assert r[i] in ts;
    }
  }

  // ---------------------------------------------------------------------
  // Printing

  /** A token's `string()`.  `fmt` is the "%3.3f" conversion; a variable
      prints as its name, '=' and its current value, bracketed when
      negative. */
  function TokenString(t: PToken, env: map<string, real>, fmt: real -> string): string
    requires t.Variable? ==> t.name in env
  {
    match t
    case Number(v) => fmt(v)
    case Variable(name) =>
      var v := env[name];
      name + "=" + (if v < 0.0 then "(" else "") + fmt(v) + (if v < 0.0 then ")" else "")
    case Unary(u) =>
      (match u
       case UnaryMinus => "-"
       case Sine => "sin"
       case Cosine => "cos"
       case ArcCosine => "arccos"
       case ArcTangent => "arctg"
       case SquareRoot => "sqrt"
       case Exponent => "exp"
       case Absolute => "abs")
    case Binary(b) =>
      (match b
       case Involution => "^"
       case ArcTangent2 => "_atan2_"
       case Minus => "-"
       case Plus => "+"
       case Multiply => "*"
       case Divide => "/")
    case OpenBracket => "("
    case CloseBracket => ")"
  }

  /** Removing the first '=' and everything after it. */
  function StripValue(s: string): (r: string)
    ensures '=' !in r
    ensures '=' !in s ==> r == s
    ensures r <= s
  {
    if s == [] || s[0] == '=' then [] else [s[0]] + StripValue(s[1..])
  }

  /** With the value stripped, a variable prints as its bare name,
      whatever the variables hold. */
  lemma StripVariable(t: PToken, env: map<string, real>, fmt: real -> string)
    requires t.Variable? && t.name in env && '=' !in t.name
    ensures StripValue(TokenString(t, env, fmt)) == t.name
  {
    var v := env[t.name];
    var rest := "=" + (if v < 0.0 then "(" else "") + fmt(v) + (if v < 0.0 then ")" else "");
    assert TokenString(t, env, fmt) == t.name + rest;
    StripBefore(t.name, rest);
  }

  /** Every other token prints without an '=', so stripping keeps it. */
  lemma StripOther(t: PToken, env: map<string, real>, fmt: real -> string)
    requires !t.Variable? && forall v :: '=' !in fmt(v)
    ensures StripValue(TokenString(t, env, fmt)) == TokenString(t, env, fmt)
  {
    if t.Unary? || t.Binary? {
      assert '=' !in TokenString(t, env, fmt);
    }
  }

  lemma {:induction false} StripBefore(a: string, b: string)
    requires '=' !in a && b != [] && b[0] == '='
    ensures StripValue(a + b) == a
    decreases |a|
  {
    if a != [] {
      assert (a + b)[1..] == a[1..] + b;
      StripBefore(a[1..], b);
    }
  }
}
