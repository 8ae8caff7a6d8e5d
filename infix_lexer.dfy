// The hand-written scanner that the infix grammar pulls its tokens from, and
// the `parse` entry point around the grammar.

module InfixLexer {

  import opened Wrappers

  /** One lexeme of the infix text (the C `Token` record: NUMBER, VARIABLE
      or OPERATOR, with the field that belongs to that class). */
  datatype InfixToken =
    | NumberToken(number: real)
    | VariableToken(variableName: string)
    | OperatorToken(oper: char)

  /** What `yylex` returns to the grammar: 0 at the end of the text, the
      grammar's NUM and VAR codes, or the operator character itself. */
  datatype LexCode = End | Num | Var | Char(c: char)

  /** The grammar's verdict on a token stream: `yyerror` fired with a
      message, or it did not, and then `rewritten` is the token buffer as
      the grammar's actions left it through `yylval`. */
  datatype GrammarVerdict = Accepted(rewritten: seq<InfixToken>) | Rejected(message: string)

  /** The rewrites the grammar's actions make in the token buffer: a minus
      that is a sign becomes '$' and the comma of the two-argument
      arctangent becomes '@'; no token is added, dropped or otherwise
      changed. */
  predicate Rewrites(raw: seq<InfixToken>, rewritten: seq<InfixToken>)
  {
    && |rewritten| == |raw|
    && forall i :: 0 <= i < |raw| ==>
         || rewritten[i] == raw[i]
         || (raw[i] == OperatorToken('-') && rewritten[i] == OperatorToken('$'))
         || (raw[i] == OperatorToken(',') && rewritten[i] == OperatorToken('@'))
  }

  /** The capacity of the `variableName` field of a token, in bytes. */
  const VariableNameCapacity: nat := 40

  predicate IsBlank(c: char) { c == ' ' || c == '\t' }
  predicate IsDigit(c: char) { '0' <= c <= '9' }
  predicate IsAlpha(c: char) { 'a' <= c <= 'z' || 'A' <= c <= 'Z' }
  predicate IsAlnum(c: char) { IsDigit(c) || IsAlpha(c) }

  /** A C string: the text followed by its terminating NUL, and no NUL before it. */
  predicate IsCString(s: seq<char>) {
    |s| > 0 && s[|s| - 1] == '\0' && forall k :: 0 <= k < |s| - 1 ==> s[k] != '\0'
  }

  lemma TextIsCString(text: string)
    requires '\0' !in text
    ensures IsCString(text + ['\0'])
  {
    var s := text + ['\0'];
    forall k | 0 <= k < |s| - 1 ensures s[k] != '\0' {
      assert s[k] == text[k];
    }
  }

  // ---------------------------------------------------------------------
  // Specification of one scanner step

  /** Index of the first character at or after `i` that is neither a space
      nor a tab. */
  function SkipBlanks(s: seq<char>, i: nat): (j: nat)
    requires IsCString(s) && i < |s|
    ensures i <= j < |s| && !IsBlank(s[j])
    decreases |s| - i
  {
    if IsBlank(s[i]) then SkipBlanks(s, i + 1) else i
  }

  /** End of a number that continues at `i`: digits, and one '.' as long as
      no '.' has been consumed yet. */
  function NumberEnd(s: seq<char>, i: nat, dotSeen: bool): (e: nat)
    requires IsCString(s) && i < |s|
    ensures i <= e < |s| && !IsDigit(s[e])
    decreases |s| - i
  {
    if IsDigit(s[i]) then NumberEnd(s, i + 1, dotSeen)
    else if !dotSeen && s[i] == '.' then NumberEnd(s, i + 1, true)
    else i
  }

  /** End of the letter/digit run that continues at `i`. */
  function NameEnd(s: seq<char>, i: nat): (e: nat)
    requires IsCString(s) && i < |s|
    ensures i <= e < |s| && !IsAlnum(s[e])
    decreases |s| - i
  {
    if IsAlnum(s[i]) then NameEnd(s, i + 1) else i
  }

  /** Only blanks are skipped. */
  lemma {:induction false} SkippedAreBlanks(s: seq<char>, i: nat)
    requires IsCString(s) && i < |s|
    ensures forall k :: i <= k < SkipBlanks(s, i) ==> IsBlank(s[k])
    decreases |s| - i
  {
    if IsBlank(s[i]) { SkippedAreBlanks(s, i + 1); }
  }

  /** A number span holds digits and at most one '.' (none when one was
      already consumed), and it stops only where another '.' would be the
      second one or the character is neither. */
  lemma {:induction false} NumberSpan(s: seq<char>, i: nat, dotSeen: bool)
    requires IsCString(s) && i < |s|
    ensures var e := NumberEnd(s, i, dotSeen);
      && (forall k :: i <= k < e ==> IsDigit(s[k]) || s[k] == '.')
      && (dotSeen ==> forall k :: i <= k < e ==> s[k] != '.')
      && (forall k, l :: i <= k < l < e && s[k] == '.' ==> s[l] != '.')
      && (s[e] == '.' ==> dotSeen || exists k :: i <= k < e && s[k] == '.')
    decreases |s| - i
  {
    if IsDigit(s[i]) {
      NumberSpan(s, i + 1, dotSeen);
    } else if !dotSeen && s[i] == '.' {
      NumberSpan(s, i + 1, true);
    }
  }

  /** A name span is letters and digits only. */
  lemma {:induction false} NameSpan(s: seq<char>, i: nat)
    requires IsCString(s) && i < |s|
    ensures forall k :: i <= k < NameEnd(s, i) ==> IsAlnum(s[k])
    decreases |s| - i
  {
    if IsAlnum(s[i]) { NameSpan(s, i + 1); }
  }

  /** Digits and at most one '.'. */
  predicate IsNumberSpan(span: seq<char>) {
    && (forall k :: 0 <= k < |span| ==> IsDigit(span[k]) || span[k] == '.')
    && (forall k, l :: 0 <= k < l < |span| && span[k] == '.' ==> span[l] != '.')
  }

  /** The span of a number that starts with a digit or a '.' at `b`. */
  lemma NumberSpanFrom(s: seq<char>, b: nat)
    requires IsCString(s) && b + 1 < |s| && (s[b] == '.' || IsDigit(s[b]))
    ensures IsNumberSpan(s[b..NumberEnd(s, b + 1, s[b] == '.')])
  {
    NumberSpan(s, b + 1, s[b] == '.');
  }

  /** Value of a run of decimal digits. */
  function DigitsValue(ds: seq<char>): (v: nat)
    requires forall k :: 0 <= k < |ds| ==> IsDigit(ds[k])
  {
    if ds == [] then 0
    else
      var d := ds[|ds| - 1];
      assert IsDigit(d);
      DigitsValue(ds[..|ds| - 1]) * 10 + (d as int - '0' as int)
  }

  function Pow10(n: nat): (p: nat)
    ensures p >= 1
  {
    if n == 0 then 1 else 10 * Pow10(n - 1)
  }

  /** Decimal value of a number lexeme: digits with at most one '.'.  It
      stands for the `sscanf("%lf")` conversion restricted to the span the
      scanner consumes. */
  function DecimalValue(span: seq<char>): real
    requires IsNumberSpan(span)
  {
    if exists k :: 0 <= k < |span| && span[k] == '.' then
      var d :| 0 <= d < |span| && span[d] == '.';
      DigitsValue(span[..d]) as real
        + DigitsValue(span[d + 1..]) as real / Pow10(|span| - d - 1) as real
    else
      DigitsValue(span) as real
  }

  /** The outcome of one `yylex` call: the code returned, the token appended
      (if any) and where the input pointer is left. */
  datatype Step = Step(code: LexCode, token: Option<InfixToken>, next: nat)
  {
    /** The tokens the step appends to the buffer: its token, if any. */
    function Emitted(): seq<InfixToken>
    {
      if token.Some? then [token.value] else []
    }
  }

  /** One `yylex` call on the C string `s` with the input pointer at `pos`. */
  function Scan(s: seq<char>, pos: nat): (r: Step)
    requires IsCString(s) && pos < |s|
    ensures pos < r.next <= |s|
    ensures r.code != End ==> r.next < |s|
  {
    var b := SkipBlanks(s, pos);
    var c := s[b];
    if c == '\0' then
      Step(End, None, b + 1)
    else if c == '.' || IsDigit(c) then
      var e := NumberEnd(s, b + 1, c == '.');
      NumberSpanFrom(s, b);
      Step(Num, Some(NumberToken(DecimalValue(s[b..e]))), e)
    else if IsAlpha(c) then
      var e := NameEnd(s, b + 1);
      Step(Var, Some(VariableToken(s[b..e])), e)
    else
      Step(Char(c), Some(OperatorToken(c)), b + 1)
  }

  /** Every token the scanner produces from `pos` to the end of the text. */
  function Tokenize(s: seq<char>, pos: nat): seq<InfixToken>
    requires IsCString(s) && pos < |s|
    decreases |s| - pos
  {
    var st := Scan(s, pos);
    if st.code == End then []
    else st.Emitted() + Tokenize(s, st.next)
  }

  /** `Tokenize` after one step: the step's token and the rest, or
      nothing at the end. */
  lemma TokenizeStep(s: seq<char>, pos: nat)
    requires IsCString(s) && pos < |s|
    ensures var st := Scan(s, pos);
      && (st.code == End ==> Tokenize(s, pos) == [] && st.Emitted() == [])
      && (st.code != End ==> Tokenize(s, pos) == st.Emitted() + Tokenize(s, st.next))
  {
    ScanEndIffNul(s, pos);
  }

  lemma TokensAssoc(a: seq<InfixToken>, b: seq<InfixToken>, c: seq<InfixToken>)
    ensures a + b + c == a + (b + c)
  {
  }

  // ---------------------------------------------------------------------
  // Properties of a scanner step

  /** Blanks before a token are skipped: no token starts with, and no
      operator token is, a space or a tab. */
  lemma ScanSkipsBlanks(s: seq<char>, pos: nat)
    requires IsCString(s) && pos < |s|
    ensures var st := Scan(s, pos);
      st.token.Some? && st.token.value.OperatorToken? ==> !IsBlank(st.token.value.oper)
    ensures var st := Scan(s, pos);
      st.token.Some? && st.token.value.VariableToken? ==> !IsBlank(st.token.value.variableName[0])
  {
  }

  /** At the terminating NUL the scanner returns 0 and appends no token;
      anywhere else it appends exactly one token. */
  lemma ScanEndIffNul(s: seq<char>, pos: nat)
    requires IsCString(s) && pos < |s|
    ensures Scan(s, pos).code == End <==> s[SkipBlanks(s, pos)] == '\0'
    ensures Scan(s, pos).code == End <==> Scan(s, pos).token == None
  {
  }

  /** A digit or '.' starts one NUMBER token whose span is the maximal run of
      digits holding at most one '.'; the first other character is left for
      the next call. */
  lemma ScanNumberSpan(s: seq<char>, pos: nat)
    requires IsCString(s) && pos < |s|
    requires var c := s[SkipBlanks(s, pos)]; c == '.' || IsDigit(c)
    ensures var b, st := SkipBlanks(s, pos), Scan(s, pos);
      && st.code == Num && st.token.Some? && st.token.value.NumberToken?
      && b < st.next
      && (forall k :: b <= k < st.next ==> IsDigit(s[k]) || s[k] == '.')
      && (forall k, l :: b <= k < l < st.next && s[k] == '.' ==> s[l] != '.')
      && !IsDigit(s[st.next])
      && (s[st.next] == '.' ==> exists k :: b <= k < st.next && s[k] == '.')
  {
    var b := SkipBlanks(s, pos);
    NumberSpan(s, b + 1, s[b] == '.');
  }

  /** A letter starts one VARIABLE token whose name is the maximal run of
      letters and digits. */
  lemma ScanNameSpan(s: seq<char>, pos: nat)
    requires IsCString(s) && pos < |s|
    requires IsAlpha(s[SkipBlanks(s, pos)])
    ensures var b, st := SkipBlanks(s, pos), Scan(s, pos);
      && st.code == Var && st.token == Some(VariableToken(s[b..st.next]))
      && IsAlpha(st.token.value.variableName[0])
      && (forall k :: b <= k < st.next ==> IsAlnum(s[k]))
      && !IsAlnum(s[st.next])
  {
    NameSpan(s, SkipBlanks(s, pos) + 1);
  }

  /** Any other character is an OPERATOR token on its own, and it is also the
      code returned. */
  lemma ScanOperator(s: seq<char>, pos: nat)
    requires IsCString(s) && pos < |s|
    requires var c := s[SkipBlanks(s, pos)];
      c != '\0' && c != '.' && !IsDigit(c) && !IsAlpha(c)
    ensures var c, st := s[SkipBlanks(s, pos)], Scan(s, pos);
      st == Step(Char(c), Some(OperatorToken(c)), SkipBlanks(s, pos) + 1)
  {
  }

  /** The name of a VARIABLE token is as long as the letter/digit run in the
      text: a run of forty or more characters does not fit, with its
      terminating NUL, into the token's `variableName` field. */
  lemma {:induction false} LongNameOverflowsField(n: nat)
    requires n >= VariableNameCapacity
    ensures var s := seq(n, _ => 'a') + ['\0'];
      IsCString(s) && Scan(s, 0).token == Some(VariableToken(seq(n, _ => 'a')))
      && |Scan(s, 0).token.value.variableName| + 1 > VariableNameCapacity
  {
    var s := seq(n, _ => 'a') + ['\0'];
    assert IsCString(s);
    NameRunEnd(s, 1, n);
    assert s[0..n] == seq(n, _ => 'a');
  }

  lemma {:induction false} NameRunEnd(s: seq<char>, i: nat, n: nat)
    requires IsCString(s) && i <= n < |s|
    requires forall k :: i <= k < n ==> IsAlnum(s[k])
    requires !IsAlnum(s[n])
    ensures NameEnd(s, i) == n
    decreases n - i
  {
    if i < n { NameRunEnd(s, i + 1, n); }
  }

  // Each branch of `Scan` on its own, for the scanner's loops to meet.

  lemma ScanAtEnd(s: seq<char>, pos: nat, b: nat)
    requires IsCString(s) && pos < |s| && b == SkipBlanks(s, pos) && s[b] == '\0'
    ensures Scan(s, pos) == Step(End, None, b + 1)
  {
  }

  lemma ScanAtNumber(s: seq<char>, pos: nat, b: nat, e: nat)
    requires IsCString(s) && pos < |s| && b == SkipBlanks(s, pos)
    requires s[b] == '.' || IsDigit(s[b])
    requires b + 1 < |s| && e == NumberEnd(s, b + 1, s[b] == '.')
    ensures b < e && IsNumberSpan(s[b..e])
    ensures Scan(s, pos) == Step(Num, Some(NumberToken(DecimalValue(s[b..e]))), e)
  {
    NumberSpanFrom(s, b);
  }

  lemma ScanAtName(s: seq<char>, pos: nat, b: nat, e: nat)
    requires IsCString(s) && pos < |s| && b == SkipBlanks(s, pos)
    requires IsAlpha(s[b]) && b + 1 < |s| && e == NameEnd(s, b + 1)
    ensures b < e && Scan(s, pos) == Step(Var, Some(VariableToken(s[b..e])), e)
  {
  }

  lemma ScanAtOperator(s: seq<char>, pos: nat, b: nat)
    requires IsCString(s) && pos < |s| && b == SkipBlanks(s, pos)
    requires s[b] != '\0' && s[b] != '.' && !IsDigit(s[b]) && !IsAlpha(s[b])
    ensures Scan(s, pos) == Step(Char(s[b]), Some(OperatorToken(s[b])), b + 1)
  {
  }

  // The scanner's three loops, each on its own.

  /** The blank-skipping loop of `yylex`: the first character that is not
      a blank, and where it stands. */
  method SkipBlankRun(s: seq<char>, pos: nat) returns (c: char, b: nat)
    requires IsCString(s) && pos < |s|
    ensures b == SkipBlanks(s, pos) && c == s[b]
  {
    var p := pos;
    c := s[p];
    p := p + 1;
    while IsBlank(c)
      invariant pos < p <= |s| && c == s[p - 1]
      invariant SkipBlanks(s, pos) == SkipBlanks(s, p - 1)
      decreases |s| - p
    {
      c := s[p];
      p := p + 1;
    }
    b := p - 1;
  }

  /** The number loop of `yylex`: digits, and one '.' unless the number
      started with one. */
  method NumberRun(s: seq<char>, start: nat) returns (e: nat)
    requires IsCString(s) && start < |s| && s[start] != '\0' && (s[start] == '.' || IsDigit(s[start]))
    ensures start + 1 < |s| && e == NumberEnd(s, start + 1, s[start] == '.')
  {
    var dotFlag := s[start] == '.';
    var p := start + 1;
    var c := s[p];
    p := p + 1;
    while IsDigit(c) || (!dotFlag && c == '.')
      invariant start + 1 < p <= |s| && c == s[p - 1]
      invariant NumberEnd(s, start + 1, s[start] == '.') == NumberEnd(s, p - 1, dotFlag)
      decreases |s| - p
    {
      if c == '.' { dotFlag := true; }
      c := s[p];
      p := p + 1;
    }
    e := p - 1;
  }

  /** The name loop of `yylex`: letters and digits. */
  method NameRun(s: seq<char>, start: nat) returns (e: nat)
    requires IsCString(s) && start < |s| && IsAlpha(s[start])
    ensures start + 1 < |s| && e == NameEnd(s, start + 1)
  {
    var p := start + 1;
    var c := s[p];
    p := p + 1;
    while IsAlnum(c)
      invariant start + 1 < p <= |s| && c == s[p - 1]
      invariant NameEnd(s, start + 1) == NameEnd(s, p - 1)
      decreases |s| - p
    {
      c := s[p];
      p := p + 1;
    }
    e := p - 1;
  }

  // ---------------------------------------------------------------------
  // The scanner state: the global input pointer, token buffer and error flag

  class Scanner {
    /** The C string being scanned, NUL included. */
    var input: seq<char>
    /** The `input` pointer: index of the next character to read. */
    var pos: nat
    /** The `tokens` buffer; its length is `tokenCount`. */
    var tokens: seq<InfixToken>
    /** Set by `yyerror`. */
    var errorFlag: bool

    ghost predicate Valid()
      reads this
    {
      IsCString(input) && pos <= |input|
    }

    constructor ()
      ensures Valid() && input == ['\0'] && pos == 0 && tokens == [] && !errorFlag
    {
      input, pos, tokens, errorFlag := ['\0'], 0, [], false;
    }

    /** `yylex`: skip blanks, then scan one number, name or operator. */
    method Lex() returns (code: LexCode)
      requires Valid() && pos < |input|
      modifies this`pos, this`tokens
      ensures Valid()
      ensures var st := Scan(input, old(pos));
        && code == st.code && pos == st.next
        && tokens == old(tokens) + st.Emitted()
    {
      var s := input;
      var c, start := SkipBlankRun(s, pos);
      if c == '\0' {
        ScanAtEnd(s, old(pos), start);
        pos := start + 1;
        return End;
      }
      if c == '.' || IsDigit(c) {
        var e := NumberRun(s, start);
        ScanAtNumber(s, old(pos), start, e);
        pos := e;
        tokens := tokens + [NumberToken(DecimalValue(s[start..e]))];
        return Num;
      }
      if IsAlpha(c) {
        var e := NameRun(s, start);
        ScanAtName(s, old(pos), start, e);
        pos := e;
        tokens := tokens + [VariableToken(s[start..e])];
        return Var;
      }
      ScanAtOperator(s, old(pos), start);
      pos := start + 1;
      tokens := tokens + [OperatorToken(c)];
      return Char(c);
    }

    /** One `yylex` call seen from the grammar: the tokens still to come
        shrink by the ones appended. */
    method Pull() returns (code: LexCode)
      requires Valid() && pos < |input|
      modifies this`pos, this`tokens
      ensures Valid() && old(pos) < pos
      ensures code != End ==> pos < |input| && tokens + Tokenize(input, pos) == old(tokens) + Tokenize(input, old(pos))
      ensures code == End ==> tokens == old(tokens) + Tokenize(input, old(pos))
    {
      ghost var p0, t0 := pos, tokens;
      code := Lex();
      ghost var st := Scan(input, p0);
      TokenizeStep(input, p0);
      if code == End {
        assert t0 + Tokenize(input, p0) == t0;
      } else {
        TokensAssoc(t0, st.Emitted(), Tokenize(input, pos));
      }
    }

    /** The grammar pulling tokens until `yylex` returns 0.  The grammar's
        own reductions do not change the scanner state. */
    method PullTokens()
      requires Valid() && pos < |input|
      modifies this`pos, this`tokens
      ensures Valid() && tokens == old(tokens) + Tokenize(input, old(pos))
    {
      var code := Pull();
      while code != End
        invariant Valid() && input == old(input)
        invariant code != End ==> pos < |input| && tokens + Tokenize(input, pos) == old(tokens) + Tokenize(input, old(pos))
        invariant code == End ==> tokens == old(tokens) + Tokenize(input, old(pos))
        decreases |input| - pos
      {
        code := Pull();
      }
    }

    /** `parse`: reset the error flag and the count, let the grammar pull
        every token (and rewrite signs and commas in the buffer), and return
        -1 with the message if `yyerror` fired, otherwise the number of
        tokens. */
    method Parse(text: string, verdict: GrammarVerdict) returns (result: int, errString: Option<string>)
      requires '\0' !in text
      requires verdict.Accepted? ==> Rewrites(Tokenize(text + ['\0'], 0), verdict.rewritten)
      modifies this
      ensures Valid() && input == text + ['\0']
      ensures Rewrites(Tokenize(input, 0), tokens)
      ensures verdict.Accepted? ==> tokens == verdict.rewritten
      ensures verdict.Rejected? ==> tokens == Tokenize(input, 0)
      ensures errorFlag <==> verdict.Rejected?
      ensures verdict.Rejected? ==> result == -1 && errString == Some(verdict.message)
      ensures verdict.Accepted? ==> result == |tokens| && errString == None
    {
      errorFlag := false;
      input := text + ['\0'];
      pos := 0;
      tokens := [];
      TextIsCString(text);
      PullTokens();
      if verdict.Rejected? {
        errorFlag := true;
        result := -1;
        errString := Some(verdict.message);
      } else {
        tokens := verdict.rewritten;
        result := |tokens|;
        errString := None;
      }
    }
  }
}
