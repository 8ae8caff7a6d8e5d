# dip2 scalar-field engine, modelled in Dafny

dip2 draws implicit surfaces. The user types formulas in x, y and z. Each
formula becomes a *meta-object*: it is compiled into a postfix (reverse Polish)
token list, evaluated at every point of a cubic grid, and kept in a pair of
ping/pong grids. The *field* owns a grid of its own that holds the sum of its
members' grids. A marching-cubes *poligonizator* cuts the field's grid into
cells and extracts the triangles of the iso-level surface. It gives them flat
normals or vertex-averaged (smooth) normals.

The model follows the program's own layers, one Dafny module per source unit:

- `InfixLexer` (`infix_lexer.dfy`) is the hand-written scanner `yylex` and its
  `parse` entry point. `Scanner` is a class over the scanner's global input
  pointer, token buffer and error flag. Each `yylex` call is specified by the
  pure `Scan` step, and the whole input by `Tokenize`.
- `PostfixTokens` (`postfix_token.dfy`) holds the token kinds and the priority
  table. It has each token's shunting-yard step (`ParseEffect`), its
  value-stack step (`Effect`) and its printed form.
- `Variables` (`variables_manager.dfy`) is the name-to-shared-cell registry.
  `VariablesManager` is a class whose map points at `Cell` objects, so copies
  share values.
- `PostfixExpression` (`postfix_expr.dfy`) is `PostfixExpr`: token creation,
  `makePostfix`, `execute` and `infixString`. It also holds a proof that
  converting a bracketed expression gives the postfix list whose execution
  yields the expression's value.
- `Grids` (`grid.dfy`) has `Grid`, a class over an `array<real>` with x-fastest
  indexing, and the `Lattice` value that describes its axes.
- `FieldObjects`, `MetaObjects` and `Fields` (`field_object.dfy`,
  `meta_object.dfy`, `field.dfy`) hold the double-buffered field objects, the
  expression meta-object, and the field. The field keeps its current grid
  equal to the sum of its members' current grids (`Field.Summed`).
- `Normalization`, `GridCells` and `Poligonization` (`normalization.dfy`,
  `grid_cell.dfy`, `poligonizator.dfy`) hold the vector helpers, one
  marching-cubes cell, and the tiling with its flat and smooth triangle lists.

Field values and coordinates are `real`. The host math library (sin, cos,
acos, atan, sqrt, exp, pow, atan2f, and the IEEE value of a division by zero)
is a record of functions, `PostfixTokens.MathLibrary`, passed to evaluation.
The marching-cubes tables `kEdgeTable`/`kTriTable` are a parameter,
`GridCells.CubeTables`, with a stated shape: 256 rows, triples of edge
numbers ended by -1, and only edges that the edge mask marks as cut.
`marchingcubes_tables.h` is not part of this model. The bison grammar is not
part of this model either. Its verdict is a parameter, `InfixLexer.GrammarVerdict`:
either `yyerror` fired with a message, or the grammar accepted and left the token
buffer rewritten through `yylval`. The rewrites allowed are stated by
`InfixLexer.Rewrites`: a sign '-' may become '$' and a comma may become '@'. A function `Point -> real` stands for
`valueAtPoint` when a grid is filled.

## Model

| member | source | states |
|---|---|---|
| InfixLexer.TextIsCString | infix/infixlex_funcs.c:55-60 | the text followed by its terminating NUL is a C string with no earlier NUL |
| InfixLexer.SkipBlanks | infix/infixlex_funcs.c:84-87 | the scanner stops, inside the string, at the first character that is not a space or tab |
| InfixLexer.SkippedAreBlanks | infix/infixlex_funcs.c:84-87 | every character skipped before a token is a space or a tab |
| InfixLexer.NumberEnd | infix/infixlex_funcs.c:96-113 | a number span ends, inside the string, at a character that is not a digit |
| InfixLexer.NumberSpan | infix/infixlex_funcs.c:96-113 | a number span holds only digits and '.', has at most one '.', and stops at a second '.' |
| InfixLexer.NameEnd | infix/infixlex_funcs.c:116-155 | a name span ends, inside the string, at a character that is not a letter or digit |
| InfixLexer.NameSpan | infix/infixlex_funcs.c:116-155 | every character of a name span is a letter or a digit |
| InfixLexer.NumberSpanFrom | infix/infixlex_funcs.c:96-113 | the characters a number token consumes form a well-formed decimal |
| InfixLexer.Scan | infix/infixlex_funcs.c:79-164 | one `yylex` call always advances the input pointer, and stays inside the text unless it reached the end |
| InfixLexer.TokenizeStep | infix/infixlex_funcs.c:79-164 | at the end no token is appended and the stream ends; otherwise the stream is the step's token followed by the rest |
| InfixLexer.ScanSkipsBlanks | infix/infixlex_funcs.c:84-87 | no operator token is a blank, and no name starts with one |
| InfixLexer.ScanEndIffNul | infix/infixlex_funcs.c:90-93 | `yylex` returns 0 exactly when the first non-blank character is NUL, and exactly then appends no token |
| InfixLexer.ScanNumberSpan | infix/infixlex_funcs.c:96-113 | a digit or '.' starts one NUMBER token over the maximal span of digits with at most one '.'; the next character is not a digit |
| InfixLexer.ScanNameSpan | infix/infixlex_funcs.c:116-155 | a letter starts one VARIABLE token whose name is the maximal letter/digit run from that letter |
| InfixLexer.ScanOperator | infix/infixlex_funcs.c:158-163 | any other character becomes a one-character OPERATOR token and is also the return code |
| InfixLexer.LongNameOverflowsField | infix/infixlex_types.h:36 | a name of 40 or more letters is scanned whole, so with its NUL it does not fit the 40-byte `variableName` field |
| InfixLexer.NameRunEnd | infix/infixlex_funcs.c:116-155 | the name span ends at the first non-alphanumeric character |
| InfixLexer.ScanAtEnd | infix/infixlex_funcs.c:90-93 | at NUL the step returns 0, appends nothing, and moves past the NUL |
| InfixLexer.ScanAtNumber | infix/infixlex_funcs.c:96-113 | a number step returns NUM with the decimal value of the consumed span |
| InfixLexer.ScanAtName | infix/infixlex_funcs.c:116-155 | a name step returns VAR with the consumed span as the name |
| InfixLexer.ScanAtOperator | infix/infixlex_funcs.c:158-163 | an operator step returns the character and consumes exactly it |
| InfixLexer.SkipBlankRun | infix/infixlex_funcs.c:84-87 | the blank-skipping loop stops where `SkipBlanks` says |
| InfixLexer.NumberRun | infix/infixlex_funcs.c:96-113 | the number-reading loop stops where `NumberEnd` says |
| InfixLexer.NameRun | infix/infixlex_funcs.c:116-155 | the name-reading loop stops where `NameEnd` says |
| InfixLexer.Scanner.constructor | infix/infixlex_funcs.c:55-60 | a scanner starts on an empty C string with no tokens and the error flag clear |
| InfixLexer.Scanner.Lex | infix/infixlex_funcs.c:79-164 | one `yylex` call returns the step's code, moves the pointer to the step's end and appends exactly the step's token |
| InfixLexer.Scanner.Pull | infix/infixlex_funcs.c:79-164 | after one call, the tokens so far followed by what is left to scan are the same stream as before |
| InfixLexer.Scanner.PullTokens | infix/infixlex_funcs.c:79-164 | pulling until the end appends exactly `Tokenize` of the rest of the input |
| InfixLexer.Scanner.Parse | infix/infixlex_funcs.c:55-76 | when the grammar accepted, the token buffer is the whole tokenization with only its sign and comma rewrites applied, and the result is the token count; when it rejected, the result is -1 with the message (the buffer is then the model's, see Left out) |
| PostfixTokens.PriorityOf | postfix/postfixtoken.h:77-279 | only the brackets have the base priority LOWEST; every unary operator and function is HIGH, and so are `^` and `@`; `*` and `/` are MIDDLE; `+` and `-` are LOW |
| PostfixTokens.ApplyUnary | postfix/postfixtoken.cpp:139-212 | unary minus negates; `abs` returns a non-negative value equal to the operand or its negation; each named function is the library's function of the operand |
| PostfixTokens.ApplyBinary | postfix/postfixtoken.cpp:219-273 | the left operand comes first: sum, difference and product of left and right, the quotient left/right for a non-zero right operand and the library's value otherwise, the library's pow(left, right) and atan2f(left, right) |
| PostfixTokens.Effect | postfix/postfixtoken.cpp:35-38 | an operand adds one value, a unary operator none, a binary operator removes one; the values below the operands are untouched |
| PostfixTokens.Run | postfix/postfixtoken.cpp:120-137 | running a list succeeds exactly when no operator pops an empty stack, and leaves the height the token counts predict |
| PostfixTokens.RunAppend | postfix/postfixexpr.cpp:92-106 | running two lists in a row is running their concatenation |
| PostfixTokens.PopCount | postfix/postfixtoken.cpp:40-48 | an operator pops exactly the operators on top whose priority is at least its own, and stops at the first lower one |
| PostfixTokens.OpenDepth | postfix/postfixtoken.cpp:66-74 | a close bracket pops exactly the operators above the nearest LOWEST-priority entry |
| PostfixTokens.OperatorEffect | postfix/postfixtoken.cpp:40-48 | an operator's parse step leaves only operators on the operator stack |
| PostfixTokens.CloseEffect | postfix/postfixtoken.cpp:66-74 | a close bracket's parse step leaves only operators on the stack, and fails when there is no open bracket to discard |
| PostfixTokens.ParseEffect | postfix/postfixtoken.cpp:29-74 | the corrected parse step keeps the operator stack free of operands |
| PostfixTokens.ParseEffectAsWritten | postfix/postfixtoken.cpp:40-48 | the parse step as written keeps the operator stack free of operands |
| PostfixTokens.Convert | postfix/postfixexpr.cpp:281-292 | converting a token list keeps the operator stack free of operands |
| PostfixTokens.ConvertAsWritten | postfix/postfixexpr.cpp:281-292 | the as-written conversion keeps the operator stack free of operands |
| PostfixTokens.PopsAtLeastAsHigh | postfix/postfixtoken.cpp:40-48 | a binary operator pops a stacked operator of equal or higher priority before pushing itself, so equal priorities associate left |
| PostfixTokens.PushesOverLower | postfix/postfixtoken.cpp:40-48 | a binary operator is pushed directly over a lower-priority one |
| PostfixTokens.NothingPopsOpenBracket | postfix/postfixtoken.cpp:40-59 | every token except ')' is pushed over '(' without popping it |
| PostfixTokens.OperandsAppend | postfix/postfixexpr.cpp:281-298 | the operands and the non-bracket tokens of a concatenation are those of its parts |
| PostfixTokens.OperatorsHaveNoOperands | postfix/postfixtoken.cpp:29-33 | the operator stack holds no operands |
| PostfixTokens.PopKeeps | postfix/postfixtoken.cpp:40-48 | popping to the output changes neither the operand order nor the multiset of non-bracket tokens |
| PostfixTokens.OperatorEffectKeeps | postfix/postfixtoken.cpp:40-48 | an operator's parse step keeps the operand order and loses no operator |
| PostfixTokens.CloseEffectKeeps | postfix/postfixtoken.cpp:66-74 | a close bracket's parse step keeps the operand order and loses no operator |
| PostfixTokens.ParseEffectKeeps | postfix/postfixtoken.cpp:29-74 | every parse step keeps the operand order and loses no operator |
| PostfixTokens.ConvertStep | postfix/postfixexpr.cpp:287-293 | a successful conversion is the first token's parse step followed by the conversion of the rest |
| PostfixTokens.ConvertKeeps | postfix/postfixexpr.cpp:281-292 | after conversion the operands appear in input order, and the output plus the stack hold every non-bracket token once |
| PostfixTokens.ToPostfixKeepsTokens | postfix/postfixexpr.cpp:281-298 | the postfix list has the input's operands in the same order and the same non-bracket tokens, brackets dropped |
| PostfixTokens.ToPostfixBound | postfix/postfixexpr.cpp:281-298 | the postfix list reads no variable the infix list does not |
| PostfixTokens.StripValue | postfix/postfixexpr.cpp:65-81 | the stripped text is a prefix of the token string with no '='; a string with no '=' is kept |
| PostfixTokens.StripVariable | postfix/postfixtoken.cpp:110-118 | a variable printed as `name=value` is shown as its name |
| PostfixTokens.StripOther | postfix/postfixtoken.cpp:50-79 | non-variable tokens are shown as printed |
| PostfixTokens.StripBefore | postfix/postfixexpr.cpp:65-81 | everything from the first '=' on is removed |
| Variables.Cell.constructor | postfix/variablesmanager.cpp:36-40 | a new shared cell holds the given value |
| Variables.VariablesManager.constructor | postfix/variablesmanager.h:63 | a new manager has no variables |
| Variables.VariablesManager.Copy | postfix/variablesmanager.cpp:69-72 | a copy maps every name to the same shared cell |
| Variables.VariablesManager.VariableValue | postfix/variablesmanager.cpp:164-167 | a registered name gives its cell's value; an unknown name gives 0.0 |
| Variables.VariablesManager.VariableValuePtr | postfix/variablesmanager.cpp:169-173 | a cell is returned exactly for a registered name, and it is that name's cell; an unknown name gives null |
| Variables.VariablesManager.VariableNames | postfix/variablesmanager.cpp:182-185 | the list holds every registered name exactly once and nothing else, in ascending key order |
| Variables.NameLessIrreflexive | postfix/variablesmanager.cpp:182-185 | no name sorts before itself |
| Variables.NameLessTotal | postfix/variablesmanager.cpp:182-185 | of two different names one sorts before the other |
| Variables.NameLessTransitive | postfix/variablesmanager.cpp:182-185 | the key order is transitive |
| Variables.LeastNameExists | postfix/variablesmanager.cpp:182-185 | every non-empty set of names has a least one, so the keys can be listed in order |
| Variables.VariablesManager.SetVariableValue | postfix/variablesmanager.cpp:74-86 | returns true exactly for a registered name; only that name's value changes, and an unknown name is not inserted |
| Variables.VariablesManager.SetVariableValues | postfix/variablesmanager.cpp:88-99 | returns how many given names are registered; registered names take the given values, the others keep theirs |
| Variables.VariablesManager.AddVariable | postfix/variablesmanager.cpp:192-200 | always returns true and binds the name to a fresh cell with the value, replacing any old binding; no other binding changes |
| Variables.VariablesManager.RemoveVariable | postfix/variablesmanager.cpp:213-216 | returns true exactly when the name was present; afterwards it is absent and the other bindings are kept |
| Variables.OverwrittenIs | postfix/variablesmanager.cpp:88-99 | any environment that agrees point-wise with the overwrite rule is the overwrite |
| Variables.SharedValues | postfix/variablesmanager.cpp:58-72 | two managers that share the name-to-cell map see the same values |
| Variables.ValuesUnchanged | postfix/variablesmanager.cpp:164-167 | the values do not change while the manager and its cells are untouched |
| Variables.CountStep | postfix/variablesmanager.cpp:88-99 | the count of registered names grows by one exactly for a registered name |
| PostfixExpression.FunctionToken | postfix/postfixexpr.cpp:247-279 | a function name never produces the unary minus |
| PostfixExpression.OperatorFor | postfix/postfixexpr.cpp:177-233 | an operator character yields an operator token, never an operand |
| PostfixExpression.NameTokenKind | postfix/postfixexpr.cpp:141-279 | an identifier becomes a function token exactly when it is one of the seven built-in names; otherwise it is a variable |
| PostfixExpression.OperatorCharacters | postfix/postfixexpr.cpp:177-233 | exactly the characters `^ @ + - * / $ ( )` yield a token; any other gives null |
| PostfixExpression.CreatedTokenSpellsLexeme | postfix/postfixexpr.cpp:65-81 | the printed form of a created token, with any value removed, spells its lexeme |
| PostfixExpression.ConvertAppend | postfix/postfixexpr.cpp:281-292 | converting a concatenation converts the first part, then the second from where the first left off |
| PostfixExpression.PrefixConverts | postfix/postfixexpr.cpp:281-292 | every prefix of a convertible list converts |
| PostfixExpression.PendingIsHigh | postfix/postfixtoken.cpp:40-48 | what a sub-expression leaves on the stack is all HIGH priority and completes its postfix form |
| PostfixExpression.ConvertStep | postfix/postfixexpr.cpp:287-293 | one token's parse step, then the rest |
| PostfixExpression.ConvertTokens | postfix/postfixexpr.cpp:281-292 | converting an expression's tokens outputs its written part and stacks the rest above the old stack |
| PostfixExpression.ConvertApply | postfix/postfixtoken.cpp:40-74 | converting `f(a)` outputs `a`'s postfix form and leaves `f` on the stack |
| PostfixExpression.ApplyHead | postfix/postfixtoken.cpp:55-59 | the function token and its open bracket are stacked before the argument |
| PostfixExpression.OpenCall | postfix/postfixtoken.cpp:55-59 | a function followed by '(' pushes both without popping |
| PostfixExpression.ApplyTail | postfix/postfixtoken.cpp:66-74 | the call's ')' outputs the argument's pending operators and drops the '(' |
| PostfixExpression.ConvertInfix | postfix/postfixtoken.cpp:40-74 | converting a bracketed binary expression outputs exactly its postfix form |
| PostfixExpression.ConvertRight | postfix/postfixtoken.cpp:66-74 | the right operand and the closing bracket output the right operand, then the operator |
| PostfixExpression.ConvertLeft | postfix/postfixtoken.cpp:40-59 | '(' and the left operand, then the operator, output the left operand and stack the operator over '(' |
| PostfixExpression.ConvertOpen | postfix/postfixtoken.cpp:55-59 | an open bracket shields what is below it while its contents convert |
| PostfixExpression.CloseAfter | postfix/postfixtoken.cpp:66-74 | ')' outputs every operator above the '(' in stack order and discards the '(' |
| PostfixExpression.BinaryAfter | postfix/postfixtoken.cpp:40-48 | a binary operator pops every HIGH operator above '(' and stops at it |
| PostfixExpression.RunPostfixOf | postfix/postfixtoken.cpp:120-137 | running an expression's postfix form pushes exactly the expression's value |
| PostfixExpression.RunApply | postfix/postfixtoken.cpp:120-126 | running `a f` pushes `f` applied to `a`'s value |
| PostfixExpression.RunInfix | postfix/postfixtoken.cpp:128-137 | running `l r op` pushes `op(l, r)`, with the right operand popped first |
| PostfixExpression.RunBinary | postfix/postfixtoken.cpp:128-137 | a binary operator replaces the top two values x, y by op(x, y) |
| PostfixExpression.ConversionCorrect | postfix/postfixexpr.cpp:88-298 | converting a bracketed expression gives its postfix form, and running it leaves exactly the expression's value |
| PostfixExpression.ToPostfixOfTokens | postfix/postfixexpr.cpp:281-298 | the infix tokens of an expression convert to its postfix form |
| PostfixExpression.AsWrittenLosesOperand | postfix/postfixtoken.cpp:40-48 | as written, `(x^sin(y))` converts to `x ^ y sin`, which pops an empty stack |
| PostfixExpression.AsWrittenConverts | postfix/postfixtoken.cpp:40-74 | the as-written conversion of `(x^sin(y))` |
| PostfixExpression.CorrectedKeepsOperand | postfix/postfixtoken.cpp:40-48 | with prefix operators pushed without popping, `(x^sin(y))` converts to `x y sin ^`, which leaves one value |
| PostfixExpression.NegationBeforePower | postfix/postfixtoken.cpp:40-48 | `$ x ^ 2` converts to `x $ 2 ^`, that is (-x)^2, under both rules |
| PostfixExpression.NegationConverts | postfix/postfixtoken.cpp:40-48 | the corrected conversion of `$ x ^ 2` |
| PostfixExpression.NegationConvertsAsWritten | postfix/postfixtoken.cpp:40-48 | the as-written conversion of `$ x ^ 2` |
| PostfixExpression.ValueOfExpression | postfix/postfixexpr.cpp:88-113 | executing a compiled bracketed expression returns the expression's value |
| PostfixTokens.RulesAgreeWithoutPrefix | postfix/postfixtoken.cpp:40-48 | on a token list without unary minus or named functions, the source's rule and the corrected rule convert alike |
| PostfixExpression.UnappliedHasNoPrefix | postfix/postfixexpr.cpp:281-298 | the tokens of a bracketed expression without functions hold no unary token |
| PostfixExpression.AsWrittenCorrectWithoutPrefix | postfix/postfixtoken.cpp:40-48 | the source's own rule converts every bracketed expression without functions or unary minus to its postfix form |
| PostfixExpression.BothRulesStep | postfix/postfixtoken.cpp:40-48 | a token that is not a prefix operator takes the same parse step under both rules |
| PostfixExpression.FirstOperatorPushed | postfix/postfixtoken.cpp:40-48 | an operator arriving at an empty stack pops nothing and is pushed |
| PostfixExpression.SecondOperator | postfix/postfixtoken.cpp:40-48 | an operator pushes over a stacked operator of strictly lower priority and otherwise outputs it first |
| PostfixExpression.ThreeOperandsConvert | postfix/postfixtoken.cpp:40-48 | both rules convert `a o1 b o2 c` to the same final output and stack |
| PostfixExpression.ConvertFive | postfix/postfixexpr.cpp:281-298 | the conversion of `a o1 b o2 c` is its five parse steps in turn |
| PostfixExpression.UnbracketedPrecedence | postfix/postfixtoken.cpp:40-48 | for every two binary operators, `a o1 b o2 c` converts to the postfix form of `a o1 (b o2 c)` when o2 ranks strictly higher and of `(a o1 b) o2 c` otherwise, under both rules |
| PostfixExpression.UnbracketedValue | postfix/postfixexpr.cpp:88-113 | executing that list gives the value of the grouping the priorities select |
| PostfixExpression.ProductBeforeSum | postfix/postfixtoken.cpp:40-48 | `a + b * c` compiles to `a b c * +` and evaluates to a + b*c |
| PostfixExpression.ProductThenSum | postfix/postfixtoken.cpp:40-48 | `a * b + c` compiles to `a b * c +` and evaluates to a*b + c |
| PostfixExpression.SubtractionFromLeft | postfix/postfixtoken.cpp:40-48 | `a - b - c` compiles to `a b - c -` and evaluates to (a - b) - c |
| PostfixExpression.SignRewritten | infix/infixlex_funcs.c:157-160 | the grammar's rewrite of the sign in `-x` gives `x $`, the negation of x, where the lexemes as scanned would give `x -`, which pops an empty stack |
| PostfixExpression.SignLexemes | infix/infixlex_funcs.c:157-160 | `$ x` is an allowed rewrite of `- x`, and the tokens each creates |
| PostfixExpression.SignConverts | postfix/postfixtoken.cpp:40-48 | `$ x` converts to `x $` and `- x` to `x -` |
| PostfixExpression.SignExecutes | postfix/postfixexpr.cpp:88-113 | `x $` executes to -x, while `x -` cannot be executed |
| PostfixExpression.DescriptionIgnoresValues | postfix/postfixexpr.cpp:65-81 | the infix string never shows variable values |
| PostfixExpression.RegisteredTrans | postfix/postfixexpr.cpp:235-245 | registering names in two rounds registers their union, keeping earlier cells |
| PostfixExpression.PostfixExpr.constructor | postfix/postfixexpr.cpp:47-130 | parsed iff the grammar accepted a non-empty token list; then the infix list is the tokens created from the grammar's rewritten buffer, compiled with the corrected prefix-operator rule, and each variable is registered once with 0.0; otherwise the error text replaces the infix string |
| PostfixExpression.PostfixExpr.CreateVariableAware | postfix/postfixexpr.cpp:141-245 | the created token is `createToken`'s; a new variable name gets a cell holding 0.0, and an existing one keeps its cell |
| PostfixExpression.PostfixExpr.AddToken | postfix/postfixexpr.cpp:284-293 | one loop step appends the created token to the infix list and performs its parse step under the corrected prefix-operator rule |
| PostfixExpression.PostfixExpr.MakePostfix | postfix/postfixexpr.cpp:281-298 | the infix list is the created tokens, the postfix list is their conversion under the corrected prefix-operator rule with the stack flushed, and every variable is registered |
| PostfixExpression.PostfixExpr.Execute | postfix/postfixexpr.cpp:88-113 | returns the top of the value stack after every effect, or the smallest double for an empty list |
| PostfixExpression.PostfixExpr.InfixString | postfix/postfixexpr.cpp:65-81 | the infix string is the tokens' printed forms in input order with `=value` removed |
| PostfixExpression.PostfixExpr.VariablesManagerCopy | postfix/postfixexpr.cpp:83-86 | the copy shares the expression's cells |
| PostfixExpression.ParseEffectStep | postfix/postfixtoken.cpp:29-74 | the step's stack loop computes `ParseEffect`, the corrected prefix-operator rule |
| PostfixExpression.Flush | postfix/postfixexpr.cpp:294-297 | the final flush appends the stacked operators, top first |
| PostfixExpression.PopToOpen | postfix/postfixtoken.cpp:69-72 | the close-bracket loop pops exactly down to the nearest '(' |
| PostfixExpression.PopWhileAtLeast | postfix/postfixtoken.cpp:43-46 | the operator loop pops exactly the operators of priority at least its own |
| PostfixExpression.Evaluate | postfix/postfixexpr.cpp:88-113 | the evaluation loop returns `Value` |
| PostfixExpression.RunAt | postfix/postfixexpr.cpp:94-98 | a successful run from token i is token i's effect followed by the run from i+1 |
| PostfixExpression.RunStep | postfix/postfixtoken.cpp:35-137 | a successful run is the first token's effect followed by the run of the rest |
| PostfixExpression.ConvertNext | postfix/postfixexpr.cpp:284-293 | extending the converted prefix by one token is one parse step |
| PostfixExpression.NamesNext | postfix/postfixexpr.cpp:235-245 | one more token adds at most its own variable name |
| PostfixExpression.DescriptionNext | postfix/postfixexpr.cpp:70-78 | one more token appends its stripped string |
| PostfixExpression.DescriptionAppend | postfix/postfixexpr.cpp:65-81 | the description of a concatenation is the concatenation of the descriptions |
| Grids.MaxDimension | grid/grid.cpp:36-40 | the maximum is one of the three and at least each of them |
| Grids.SideStep | grid/grid.cpp:237-240 | the step is positive, and the maximal dimension times the step spans the range from -50 to 50 |
| Grids.AxisMin | grid/grid.cpp:42-45 | the lower end is minus the half-span, rounded toward zero |
| Grids.AxisMax | grid/grid.cpp:47-50 | the upper end is the half-span rounded up |
| Grids.Lattice.PointCountPositive | grid/grid.h:58 | a lattice with a point has every dimension positive |
| Grids.Lattice.PositionOfIndex | grid/grid.h:64-74 | an in-range position has an index below `pointCount`, and the index gives back the position and its coordinates |
| Grids.Lattice.RowEnd | grid/grid.h:64-66 | one past the end of an x row is the start of the next row |
| Grids.Lattice.PlaneEnd | grid/grid.h:64-66 | one past the last row of a plane is the start of the next plane |
| Grids.Lattice.LatticeEnd | grid/grid.h:58-66 | one past the last plane is `pointCount` |
| Grids.Lattice.IndexOfPosition | grid/grid.h:64-66 | every index below `pointCount` is the index of exactly one in-range position, so `pointIndex` is a bijection |
| Grids.Uniform | grid/grid.cpp:55-83 | a new lattice has the requested dimensions and the same step on all three axes |
| Grids.PlusThenMinus | grid/grid.cpp:164-200 | adding then subtracting the same grid restores the original |
| Grids.Grid.constructor | grid/grid.cpp:55-63 | a new grid has the requested dimensions, one step on all axes, and `pointCount` zero values |
| Grids.Grid.CalculateSteps | grid/grid.cpp:70-83 | every axis gets the common step and centred bounds for its dimension |
| Grids.Grid.ZeroizePoints | grid/grid.cpp:202-212 | every value becomes zero |
| Grids.Grid.AllocatePoints | grid/grid.cpp:214-220 | a fresh array of `pointCount` zero values |
| Grids.Grid.SetSidesDimention | grid/grid.cpp:85-95 | all three sides take the dimension with one common step, and the values are reset to zero |
| Grids.Grid.SetXDimention | grid/grid.cpp:97-106 | only the x axis is recomputed; the y and z steps stay stale; the values are reset to zero |
| Grids.Grid.SetYDimention | grid/grid.cpp:108-117 | only the y axis is recomputed; the values are reset to zero |
| Grids.Grid.SetZDimention | grid/grid.cpp:119-128 | only the z axis is recomputed; the values are reset to zero |
| Grids.Grid.Fill | grid/grid.cpp:130-162 | the value at `pointIndex(x,y,z)` is the function at `(xCoord(x), yCoord(y), zCoord(z))` |
| Grids.Grid.FillRow | grid/grid.cpp:146-158 | one x row is filled, and the filled prefix extends to the row's end |
| Grids.Grid.AddGrid | grid/grid.cpp:164-181 | adds element-wise when the point counts match and changes nothing otherwise |
| Grids.Grid.SubtractGrid | grid/grid.cpp:183-200 | subtracts element-wise when the point counts match and changes nothing otherwise |
| FieldObjects.Flipped | field/fieldobject.cpp:60-70 | the other index of the pair |
| FieldObjects.FlipTwice | field/fieldobject.cpp:60-70 | two swaps are the identity |
| FieldObjects.FieldObject.constructor | field/fieldobject.cpp:35-126 | two separate zero grids of the requested dimensions, current index 0 |
| FieldObjects.FieldObject.SwapGrid | field/fieldobject.cpp:60-70 | flips the current index and exchanges the current and other buffers |
| FieldObjects.FieldObject.Recalculate | field/fieldobject.cpp:48-51 | fills only the current buffer from `valueAtPoint` |
| FieldObjects.FieldObject.AddFieldObject | field/fieldobject.cpp:72-78 | adds the other object's current buffer into this one's current buffer only |
| FieldObjects.FieldObject.SubtractFieldObject | field/fieldobject.cpp:80-86 | subtracts the other object's current buffer from this one's current buffer only |
| FieldObjects.FieldObject.SetGridSidesDimention | field/fieldobject.cpp:88-95 | both buffers are resized, the index flips once, the new current buffer is refilled and the other is zero |
| FieldObjects.FieldObject.SetGridXDimention | field/fieldobject.cpp:97-103 | as above along x only |
| FieldObjects.FieldObject.SetGridYDimention | field/fieldobject.cpp:105-111 | as above along y only |
| FieldObjects.FieldObject.SetGridZDimention | field/fieldobject.cpp:113-119 | as above along z only |
| MetaObjects.Bind | field/metaobject.cpp:88-96 | binding sets x, y and z to the point's coordinates where they are registered, and keeps every other variable |
| MetaObjects.BindForgetsCoordinates | field/metaobject.cpp:88-96 | the old coordinate values play no part after binding |
| MetaObjects.PointValueWithoutCoordinates | field/metaobject.cpp:88-96 | an expression without x, y and z has the same value at every point |
| MetaObjects.PointValueOfExpression | field/metaobject.cpp:88-96 | a meta-object's value at a point is its formula evaluated with the coordinates bound |
| MetaObjects.CylinderValue | field/metaobject.cpp:157-165 | the value is 900/d², where d² is clamped below at 0.0001 |
| MetaObjects.CylinderCapped | field/metaobject.cpp:157-165 | near the origin the value is capped at 9000000 |
| MetaObjects.CylinderSymmetric | field/metaobject.cpp:157-165 | the value is symmetric about the origin |
| MetaObjects.OverwriteCoordinates | field/metaobject.cpp:88-96 | setting x, y and z in the manager is binding the point |
| MetaObjects.CoordinatesOverwriteAll | field/metaobject.cpp:88-96 | the temporary coordinate map covers exactly x, y and z |
| MetaObjects.RemoveCoordinates | field/metaobject.cpp:146-149 | removing x, y and z one at a time removes the coordinate set |
| MetaObjects.PostfixExprMetaObject.constructor | field/metaobject.cpp:39-49 | valid iff the expression parsed; the grid is computed from the formula only when valid, and is zero otherwise |
| MetaObjects.PostfixExprMetaObject.SetPostfixExpression | field/metaobject.cpp:136-155 | accepts only a parsed expression, sharing its cells, with user variables excluding x, y and z; on failure nothing changes |
| MetaObjects.PostfixExprMetaObject.Recalculate | field/fieldobject.cpp:48-51 | the current buffer is the formula sampled on the grid; the other is kept |
| MetaObjects.PostfixExprMetaObject.ValueAtPoint | field/metaobject.cpp:88-96 | binds x, y and z to the point, then returns the expression's value |
| MetaObjects.PostfixExprMetaObject.BindCoordinates | field/metaobject.cpp:90-93 | the coordinate values are written into the shared cells |
| MetaObjects.PostfixExprMetaObject.UserVariables | field/metaobject.cpp:98-101 | the user variables are the expression's, minus x, y and z, sharing the same cells |
| MetaObjects.PostfixExprMetaObject.Description | field/metaobject.cpp:103-106 | the description is the expression's infix string |
| Fields.GridSumEmpty | field/field.cpp:43-51 | the sum of no grids is zero |
| Fields.GridSumAppend | field/field.cpp:144-148 | appending a member adds its grid to the sum |
| Fields.ColumnSumRemove | field/field.cpp:150-154 | dropping one member takes its value out of a point's sum |
| Fields.GridSumRemove | field/field.cpp:150-154 | removing a member takes its grid out of the sum |
| Fields.GridSumReplace | field/field.cpp:83-92 | replacing a member's grid changes the sum by the new grid minus the old |
| Fields.SumAfterAdd | field/field.cpp:144-148 | adding a member's grid to a sum grid gives the sum with that member appended |
| Fields.SumAfterRemove | field/field.cpp:150-154 | subtracting a member's grid gives the sum without that member |
| Fields.SumAfterReplace | field/field.cpp:83-92 | subtracting the old grid and adding the new gives the sum with the member replaced |
| Fields.TotalIsColumnSum | field/field.cpp:70-81 | summing sampled grids at an index is sampling the total at that point |
| Fields.SampledSum | field/field.cpp:100-142 | sampling the total gives the sum of the sampled grids |
| Fields.FirstIndex | field/field.cpp:150-154 | the first position of an element |
| Fields.OccursOnceAt | field/field.cpp:83-92 | a member listed once is found at no other position |
| Fields.RemoveFirstCount | field/field.cpp:150-154 | removing one occurrence lowers the element's count by one and keeps the rest |
| Fields.RemoveFirstWithin | field/field.cpp:150-154 | removing adds no element |
| Fields.Resized | field/fieldobject.cpp:88-119 | resizing all sides sets a uniform lattice; resizing one side keeps the other two axes |
| Fields.ResizedTwice | field/field.cpp:100-142 | resizing twice to the same dimension is resizing once |
| Fields.ResizeObject | field/fieldobject.cpp:88-119 | resizes both buffers, flips once, refills the current buffer and zeroes the other |
| Fields.SeparatedAfterSwap | field/field.cpp:83-92 | swapping a member's buffers keeps the grids separate |
| Fields.SeparatedAppend | field/field.cpp:144-148 | a new member with separate grids keeps the grids separate |
| Fields.SeparatedRemove | field/field.cpp:150-154 | removing a member keeps the grids separate |
| Fields.CurrentsAppend | field/field.cpp:144-148 | appending a member appends its current grid |
| Fields.CurrentsRemove | field/field.cpp:150-154 | removing a member removes its current grid at the same position |
| Fields.ProgressStart | field/field.cpp:100-142 | before the loop no member has been resized |
| Fields.Untouched | field/field.cpp:100-142 | an object the loop does not touch keeps its lattice and values |
| Fields.ResizingDone | field/field.cpp:100-142 | after the loop the field and every member are resized and refilled |
| Fields.ListsIndexed | field/field.cpp:100-142 | the member, lattice and sampler lists line up |
| Fields.ResizeBase | field/field.cpp:100-104 | the field resizes first |
| Fields.ResizeMember | field/field.cpp:105-108 | one loop step resizes the next member |
| Fields.ProgressAfterResize | field/field.cpp:105-108 | one loop step keeps the already resized members and advances by one |
| Fields.ApartAfterResize | field/field.cpp:105-108 | fresh buffers keep the grids separate |
| Fields.ResizedIsSum | field/field.cpp:100-142 | after full recalculation the field's grid is the sum of its members' grids |
| Fields.RefillOther | field/field.cpp:85-87 | swap, recalculate, swap leaves the current buffer and refills the other one |
| Fields.AddMember | field/field.cpp:144-148 | the field's current grid gains the member's current grid; no member's grid changes |
| Fields.SubtractMember | field/field.cpp:150-154 | the field's current grid loses the member's current grid; no other member's grid changes |
| Fields.RemoveMember | field/field.cpp:150-154 | the field subtracts the member's grid; when it was the sum of all members it becomes the sum without the removed one |
| Fields.ReplaceMember | field/field.cpp:83-92 | the member's new grid becomes current, its old one other, and the field changes by new minus old |
| Fields.UpdateMember | field/field.cpp:83-92 | as `ReplaceMember`, and no other member's grid changes |
| Fields.Exchange | field/field.cpp:88-91 | the member swaps its buffers, and the field changes by its new current grid minus its old |
| Fields.Field.constructor | field/field.cpp:43-51 | no members, iso level 0, and the field's grid is the (zero) sum of no members |
| Fields.Field.AddMetaObject | field/field.cpp:144-148 | the member's grid is added and the member is appended last; with equal point counts the sum invariant is kept |
| Fields.Field.RemoveMetaObject | field/field.cpp:150-154 | the member's grid is subtracted (even for a non-member) and its first occurrence removed; the sum invariant is kept when the object was a member |
| Fields.Field.UpdateMetaObject | field/field.cpp:83-92 | the member's fresh grid becomes current and the field changes by new minus old; the sum invariant is kept |
| Fields.Field.SetGridDimention | field/field.cpp:100-142 | the field and then every member are resized and fully recalculated; the field's grid samples the members' total |
| Fields.Field.ValueAtPoint | field/field.cpp:70-81 | the sum of the members' values at the point, 0 for no members |
| Fields.AddKeepsSum | field/field.cpp:144-148 | after adding, the field's grid is the sum of its members' grids |
| Fields.UpdateKeepsSum | field/field.cpp:83-92 | after updating, the field's grid is the sum of its members' grids |
| Normalization.Vector | poligonization/normalization.cpp:27-35 | the vector from b to a: moving b by it gives a |
| Normalization.VectorZero | poligonization/normalization.cpp:27-35 | the vector is zero exactly for equal points |
| Normalization.Normal | poligonization/normalization.cpp:37-45 | the cross product is orthogonal to both arguments |
| Normalization.NormalAntisymmetric | poligonization/normalization.cpp:37-45 | swapping the arguments negates the normal |
| Normalization.NormalOfParallel | poligonization/normalization.cpp:37-45 | a vector crossed with itself is zero |
| Normalization.FlatNormal | poligonization/normalization.cpp:57-71 | the flat normal is orthogonal to the two edges from the first vertex |
| Normalization.FlatNormalPerpendicular | poligonization/normalization.cpp:57-71 | it is orthogonal to the third edge too |
| Normalization.FlatNormalRotated | poligonization/normalization.cpp:57-71 | rotating the vertices keeps the flat normal |
| Normalization.FlatNormalReversed | poligonization/normalization.cpp:57-71 | reversing the vertex order negates the flat normal |
| Normalization.NormalizeTrianglePositions | poligonization/normalization.cpp:57-71 | dropping the normals gives back the triangle |
| Normalization.EqualFloatReflexive | poligonization/normalization.cpp:123-126 | tolerance equality is reflexive |
| Normalization.EqualFloatSymmetric | poligonization/normalization.cpp:123-126 | tolerance equality is symmetric |
| Normalization.EqualFloatNotTransitive | poligonization/normalization.cpp:123-126 | tolerance equality is not transitive |
| Normalization.EqualPointsReflexive | poligonization/normalization.cpp:128-132 | point equality is reflexive |
| Normalization.EqualPointsSymmetric | poligonization/normalization.cpp:128-132 | point equality is symmetric |
| Normalization.CornersAreVertices | poligonization/normalization.cpp:134-144 | every corner of a triangle is a vertex of it, with or without normals |
| Normalization.IsVertexMeansNear | poligonization/normalization.cpp:140-144 | a point is a vertex exactly when it tolerance-equals one of the three corners |
| Normalization.NormalSumOfEqual | poligonization/normalization.cpp:103-113 | k equal normals sum to k times the normal |
| Normalization.MeanOfEqualNormals | poligonization/normalization.cpp:98-121 | when every listed normal is n, the mean is n |
| Normalization.NormalizeVertex | poligonization/normalization.cpp:98-121 | keeps the position and takes the mean of the triangles' first-vertex normals |
| GridCells.EdgesAreCubeEdges | poligonization/gridcell.cpp:176-235 | each of the 12 corner pairs is an edge of the cube: the corners differ along one axis |
| GridCells.RowEnd | poligonization/gridcell.cpp:238-250 | a table row is read in whole triples, and the loop stops at a -1 unless the row ran out |
| GridCells.RowEndIsFirst | poligonization/gridcell.cpp:238-247 | every entry the triangle loop looks at before its end is in the row and is not -1, so the end is the first -1 the loop meets |
| GridCells.CrossFraction | poligonization/gridcell.cpp:34-66 | when the level lies between the two values, the fraction lies in [0, 1] |
| GridCells.CrossFractionMeetsLevel | poligonization/gridcell.cpp:34-66 | the interpolated value meets the level, exactly unless a tie-break snapped to an end |
| GridCells.InterpolateCrossPoint | poligonization/gridcell.cpp:34-66 | the crossing lies on the segment at the crossing fraction |
| GridCells.CrossPointAtCorner | poligonization/gridcell.cpp:34-66 | a level equal to the first value gives p1, else one equal to the second gives p2 |
| GridCells.DefaultCell | poligonization/gridcell.cpp:71-81 | a default cell has iso level 2, no triangles and zero corners |
| GridCells.CornerIndex | poligonization/gridcell.cpp:270-291 | every corner of an in-range cell is a grid point |
| GridCells.CornerPoints | poligonization/gridcell.cpp:293-326 | eight corner positions, corner i at the lattice coordinates of the cell's i-th corner |
| GridCells.CornerValuesAtPoints | poligonization/gridcell.cpp:270-326 | values and positions use the same corner order, so each value samples its corner |
| GridCells.RecalculatePointValues | poligonization/gridcell.cpp:270-291 | rereads the eight values, clears the triangles and sets `hasTriangles` |
| GridCells.CellAt | poligonization/gridcell.cpp:83-91 | a new cell at a position is valid, has iso level 2, no cached triangles, each corner value read from the grid at that corner's index and each corner point at that corner's lattice coordinates |
| GridCells.NewCell | poligonization/gridcell.cpp:83-91 | builds `CellAt` |
| GridCells.CubeIndex | poligonization/gridcell.cpp:153-167 | bit i of the cube index is set exactly when corner i is below the level |
| GridCells.RowTriangles | poligonization/gridcell.cpp:238-250 | at most five triangles per row |
| GridCells.CubeTriangles | poligonization/gridcell.cpp:147-253 | at most five triangles, and none when the edge mask is 0 |
| GridCells.RowVertices | poligonization/gridcell.cpp:238-250 | each vertex of triangle t is the crossing point at the row's entry 3t+j |
| GridCells.VerticesOnCutEdges | poligonization/gridcell.cpp:176-250 | every triangle vertex is the crossing point of a cut edge |
| GridCells.UniformCubeIsEmpty | poligonization/gridcell.cpp:170-173 | a cube entirely below or entirely at or above the level has no triangles |
| GridCells.ReadRow | poligonization/gridcell.cpp:238-250 | the reading loop computes `RowTriangles` |
| GridCells.TrianglesMarchingCubes | poligonization/gridcell.cpp:147-253 | computes `CubeTriangles` |
| GridCells.TetraIndex | poligonization/gridcell.cpp:335-360 | a tetrahedron's case index is below 16 |
| GridCells.TetraCountComplement | poligonization/gridcell.cpp:335-492 | a case and its complement give the same number of triangles |
| GridCells.CornersBelow | poligonization/gridcell.cpp:335-360 | at most four corners are below the level |
| GridCells.TetraCountByCorners | poligonization/gridcell.cpp:335-492 | 0 triangles when 0 or 4 corners are below, 2 when exactly 2 are, 1 otherwise |
| GridCells.TetrahedronTriangles | poligonization/gridcell.cpp:335-492 | a tetrahedron gives its case's count of triangles, at most 2 |
| GridCells.TrianglesMarchingTetrahedrons | poligonization/gridcell.cpp:255-268 | six tetrahedra give at most 12 triangles |
| GridCells.UniformCellHasNoTetrahedronTriangles | poligonization/gridcell.cpp:255-492 | a cell entirely on one side of the level has no tetrahedron triangles |
| GridCells.Triangulated | poligonization/gridcell.cpp:113-138 | `hasTriangles` holds iff a triangle was produced; each stored triangle carries its flat normal; the position and level are kept |
| GridCells.TriangulatedTriangles | poligonization/gridcell.cpp:113-138 | the stored triangles are the marching-cubes triangles, in order, with flat normals |
| GridCells.NormalizeAll | poligonization/gridcell.cpp:128-133 | the normalizing loop computes `NormalizedAll` |
| GridCells.RecalculateTriangles | poligonization/gridcell.cpp:113-138 | computes `Triangulated` |
| Poligonization.CellLattice | poligonization/poligonizator.cpp:198-214 | the cell lattice has `cellCount` positions, exactly the in-range cells |
| Poligonization.GridCellIndex | poligonization/poligonizator.cpp:198-214 | -1 exactly outside the cell range; otherwise the x-fastest cell index |
| Poligonization.CellAtIndex | poligonization/poligonizator.cpp:59-83 | the cell stored at an index sits at the position with that index |
| Poligonization.TilingShaped | poligonization/poligonizator.cpp:59-83 | the tiling has the shape the later steps need |
| Poligonization.TilingSamples | poligonization/poligonizator.cpp:59-83 | every cell's corner values sample the field at its corner positions |
| Poligonization.PlaneWithin | poligonization/poligonizator.cpp:59-83 | a plane's start index is within the cells |
| Poligonization.RowWithin | poligonization/poligonizator.cpp:59-83 | a row ends before the next plane starts |
| Poligonization.TileRow | poligonization/poligonizator.cpp:68-79 | one row of cells is stored at consecutive indices |
| Poligonization.Tile | poligonization/poligonizator.cpp:59-83 | the nested loops build `Tiling` |
| Poligonization.RetriangulatedShaped | poligonization/poligonizator.cpp:85-94 | retriangulating keeps the tiling's shape |
| Poligonization.RetriangulatedSamples | poligonization/poligonizator.cpp:85-94 | after retriangulation every cell's values still sample the field, at the new level |
| Poligonization.TriangulateCells | poligonization/poligonizator.cpp:85-94 | the loop computes `Retriangulated` |
| Poligonization.FlatMembers | poligonization/poligonizator.cpp:121-150 | a triangle is in the flat list exactly when some cell has it |
| Poligonization.FlatCount | poligonization/poligonizator.cpp:121-150 | the flat list has at most five triangles per cell |
| Poligonization.FlatOfFlatCells | poligonization/poligonizator.cpp:121-150 | the flat list keeps the cells' flat normals |
| Poligonization.FlatListIsFlat | poligonization/poligonizator.cpp:121-150 | every flat triangle carries its own flat normal |
| Poligonization.FlatNormalized | poligonization/poligonizator.cpp:121-150 | the cells' triangles concatenated in cell order |
| Poligonization.Offset | poligonization/poligonizator.cpp:222-230 | each neighbour offset lies in {-1, 0, 1} on each axis |
| Poligonization.OffsetNumber | poligonization/poligonizator.cpp:222-230 | the 27 offsets are numbered z, then y, then x, each once |
| Poligonization.FilterMembers | poligonization/poligonizator.cpp:236-247 | the filter keeps exactly the triangles that have the point as a vertex |
| Poligonization.BlockInAdjacent | poligonization/poligonizator.cpp:216-259 | triangles from any visited block are in the result |
| Poligonization.AdjacentHaveVertex | poligonization/poligonizator.cpp:216-259 | every adjacent triangle has the point as a vertex |
| Poligonization.AdjacentHasOwn | poligonization/poligonizator.cpp:216-259 | the list includes the vertex's own triangle, so smooth averaging never divides by zero |
| Poligonization.FilterVertex | poligonization/poligonizator.cpp:236-247 | the filtering loop computes `Filter` |
| Poligonization.AdjacentStep | poligonization/poligonizator.cpp:222-250 | one neighbour adds its matching triangles when it is a valid cell with triangles |
| Poligonization.AdjacentRow | poligonization/poligonizator.cpp:226-250 | the innermost loop visits three neighbours |
| Poligonization.AdjacentTrianglesForVertex | poligonization/poligonizator.cpp:216-259 | the three nested loops compute `Adjacent` |
| Poligonization.AdjacentPlane | poligonization/poligonizator.cpp:224-252 | the middle loop visits nine neighbours |
| Poligonization.SmoothVertex | poligonization/poligonizator.cpp:152-196 | a smooth vertex keeps the flat vertex's position |
| Poligonization.SmoothTriangle | poligonization/poligonizator.cpp:152-196 | a smooth triangle has the flat triangle's positions |
| Poligonization.SmoothMatchesFlat | poligonization/poligonizator.cpp:121-196 | the smooth list has the flat list's count, order and positions |
| Poligonization.SmoothOfEqualNormals | poligonization/poligonizator.cpp:152-196 | when all adjacent triangles share a normal, the smooth vertex has it |
| Poligonization.SmoothTriangleAt | poligonization/poligonizator.cpp:164-190 | the per-triangle loop computes `SmoothTriangle` |
| Poligonization.SmoothNormalized | poligonization/poligonizator.cpp:152-196 | the smooth list of all cells |
| Poligonization.Poligonizator.constructor | poligonization/poligonizator.cpp:32-42 | flat mode, level 2, cells tiled and triangulated, both lists empty |
| Poligonization.Poligonizator.SetIsoLevel | poligonization/poligonizator.h:47 | the level is set |
| Poligonization.Poligonizator.RecalculateGridCells | poligonization/poligonizator.cpp:59-83 | the cells are the tiling of the current grid |
| Poligonization.Poligonizator.RecalculateTrianglesInGridCells | poligonization/poligonizator.cpp:85-94 | every cell is retriangulated at the current level |
| Poligonization.Poligonizator.RecalculateNormalizedTriangles | poligonization/poligonizator.cpp:109-119 | only the current mode's list is rebuilt, and `trianglesPtr` gives it |
| Poligonization.Poligonizator.SetNormalMode | poligonization/poligonizator.cpp:44-51 | no-op for the same mode; otherwise the new mode's list is rebuilt |
| Poligonization.Poligonizator.RecalculateTriangles | poligonization/poligonizator.cpp:96-107 | re-tiles only when the grid changed, retriangulates at the level, and rebuilds only the current mode's list |

## Left out

- XML reading and writing of fields, meta-objects and variable managers is not modelled. It is text I/O through a foreign library.
- Floating point is not modelled. Values are reals, and the libm functions are parameters. The NaN check in the crossing-point interpolation has no counterpart, because reals have no NaN.
- `sscanf` numeric conversion is not modelled. A number lexeme's value is its exact decimal value.
- `marchingcubes_tables.h` is not part of this model. The tables are a parameter with a stated shape.
- The bison grammar is not part of this model. Its verdict and its rewritten token buffer are a parameter. `InfixLexer.Rewrites` bounds the rewrites to '-' becoming '$' and ',' becoming '@'; which minus signs the grammar rewrites is not modelled.
- InfixLexer.Scanner.Parse: on a rejection the model lets the grammar read the whole input before it gives up, so the buffer is the whole unrewritten tokenization. The grammar itself is not part of this model; a bison parser without error rules stops reading at the first syntax error, leaving only the tokens read up to it. Nothing observes that buffer: `parse` does not hand it out on an error (infix/infixlex_funcs.c:64-68), and `PostfixExpr::parse` does not read it (postfix/postfixexpr.cpp:117-129).
- PostfixExpression.PostfixExpr.constructor: requires that an accepted, rewritten token list converts (`Compilable`). The accepted-language guarantee of the grammar is not shown.
- PostfixExpression.PostfixExpr.constructor: compiles with the corrected prefix-operator rule (see Findings), as do `MakePostfix`, `AddToken` and `ParseEffectStep`. The source's rule, `ToPostfixAsWritten`, first pops stacked HIGH operators, so `x^sin(y)` gives `x ^ y sin` in the source. The two rules agree on every list without unary minus or named functions (`RulesAgreeWithoutPrefix`).
- PostfixExpression.PostfixExpr.MakePostfix: uses the corrected prefix-operator rule, not the source's (postfix/postfixtoken.cpp:40-48).
- PostfixExpression.PostfixExpr.AddToken: uses the corrected prefix-operator rule, not the source's (postfix/postfixtoken.cpp:40-48).
- PostfixExpression.ParseEffectStep: computes the corrected prefix-operator rule, not the source's generic operator rule for unary tokens (postfix/postfixtoken.cpp:40-48).
- InfixLexer.Scan: a name of 40 or more characters is kept whole. The source copies it with `strcpy` into the 40-byte `variableName` field (infix/infixlex_types.h:36), which overflows the field; that undefined behaviour is not modelled, and `LongNameOverflowsField` records the length that triggers it.
- Variables.VariablesManager.VariableNames: names are ordered by character. The source's `QString` order compares UTF-16 code units, which is the same order for characters of the Basic Multilingual Plane.
- Grid cells read the field's current grid when they are evaluated, not the grid pointer stored when the cells were tiled. The two agree because every change of the field's grid dimensions is followed by a re-tiling (widgets/metaobjectscontroller.cpp:343-369).
- PostfixExpression.PostfixExpr.Execute: requires a postfix list that never pops an empty stack. The source pops an empty `QStack` there, which is undefined.
- Creating a token from an unknown operator character gives `None`. The source returns null and stops at `Q_CHECK_PTR`.
- Other meta-object kinds, and `CylinderMetaObject::variables`, are not modelled. Only the cylinder's value function is.
- `useExternalGrid` and `useGridOfMetaObject` are not modelled. They alias grids and are never called.
- The copy constructors of `Field`, `FieldObject` and `GridCell` are not modelled. A grid cell is a value here.
- Unsigned wrap-around of the dimensions is not modelled. Dimensions are naturals, and a grid needs one positive dimension (`MaxDimension(...) > 0`).
- Poligonization.Poligonizator.constructor: requires at least one point along every side. Otherwise `cellCount` wraps in unsigned arithmetic.
- `normalizeVector` and the `Triangle` overload of `normalizeVertex` are not modelled. Neither is called by the core.
- Normalization.NormalizeVertex: requires a non-empty list. The source divides by the count.
- Fields.Field.SetGridDimention: requires the members' grids to be pairwise separate objects, as they are when each member owns its grids.
- Fields.Field.UpdateMetaObject: the sum invariant is proved only when the members' grids are separate and the member is listed once. Otherwise the source double-counts.
- Fields.Field.AddMetaObject: the sum invariant is kept only when the new member has the field's point count. With a different count `addGrid` does nothing, and the source does the same.
- Poligonization.Poligonizator.constructor: the source also fills both triangle caches before emptying them. The model states only the emptied caches, because the discarded fills cannot be observed.
- MetaObjects.PostfixExprMetaObject.Recalculate: fills the grid from a pure sampler and leaves the coordinate cells as they were. The source fills it by calling `valueAtPoint` at every point (grid/grid.cpp:152-157), which writes each point into `fTemporaryVariables` and the shared x, y and z cells (field/metaobject.cpp:88-96), so afterwards those cells hold the last point's coordinates. Those final cell values are not modelled; nothing in the core reads them before the next evaluation binds them again. The same holds for the refills inside Fields.Field.UpdateMetaObject, Fields.RefillOther and Fields.Field.SetGridDimention.
- Fields.Field.ValueAtPoint: evaluates each member through its pure sampler and changes nothing. The source calls each member's `valueAtPoint` (field/field.cpp:70-81), which also leaves that point's coordinates in the member's x, y and z cells; those writes are not modelled.
- Memory management (token `new`/`delete`, temporaries, lexer buffers), the inactive OpenMP pragmas, `qDebug`/`printf` and Qt signals are not modelled.

## Findings

| source | as written | input that shows it | evidently intended | confidence | as-written member | corrected member |
|---|---|---|---|---|---|---|
| postfix/postfixtoken.cpp:40-48 | unary minus and the named functions use the generic operator rule, popping every stacked operator of priority HIGH before being pushed | `(x^sin(y))` converts to `x ^ y sin`, which pops an empty stack | a prefix operator has no left operand, so it is pushed without popping, giving `x y sin ^` | not executed | PostfixExpression.AsWrittenLosesOperand | PostfixExpression.CorrectedKeepsOperand |
