/** The concrete syntax tree and the recursive-descent grammar as functions
    of the cursor state.

    Each function here is one parsing method (or one of the closures inside
    `parse_expression`) written as a map from the state before the call to
    the outcome and the state after it. The parser class in `Parsing`
    performs the same steps on its mutable cursor and is proved to agree
    with these functions. */
module Grammar {
  import opened Lexer
  import opened Cursor

  /** The tuple-shaped nodes the parser builds, one constructor per shape. */
  datatype Node =
    | FunDecl(rtype: string, name: string, params: Node, body: Node)  // (NFUNDECL, type, name, plist, block)
    | FwdDecl(rtype: string, name: string, params: Node)              // (NFWDDECL, type, name, plist)
    | PList(names: seq<string>)                                       // (NPLIST, names...)
    | Block(stmts: seq<Node>)                                         // (NBLOCK, statements...)
    | Decl(name: string)                                              // (NDECL, name)
    | DeclInit(name: string, init: Node)                              // ((NDECL, name), init)
    | IfBare(cond: Node)                                              // (NIF, cond)
    | If(cond: Node, body: Node, tail: Option<Node>)                  // (NIF, cond, block[, tail])
    | Else(body: Node)                                                // (NELSE, block)
    | For(first: Option<Node>, test: Option<Node>, step: Option<Node>, loopBody: Option<Node>)
                                                                      // (NFOR, e1, e2, e3[, block]); None for an omitted clause
    | While(guard: Node, whileBody: Option<Node>)                        // (NWHILE, cond[, block])
    | Return(value: Option<Node>)                                     // (NRETURN[, e])
    | Call(fun: string, args: seq<Node>)                              // (NCALL, name, args...)
    | LUnary(op: string, operand: Node)                               // (NLUNARY, op, e)
    | RUnary(op: string, operand: Node)                               // (NRUNARY, op, e)
    | Binary(op: string, left: Node, right: Node)                     // (NBINARY, op, e1, e2)
    | Term(tok: Token)                                                // (type_, value) of an operand token

  /** The kinds after which a statement takes no `;` of its own:
      NIF, NELIF, NELSE, NFOR and NWHILE. */
  predicate SkipsSemicolon(n: Node) {
    n.IfBare? || n.If? || n.Else? || n.For? || n.While?
  }

  /** `precedence(v) >= n` under Python 2, where None is below every number. */
  predicate AtLeast(p: Option<nat>, n: nat) {
    p.Some? && p.value >= n
  }

  /** The text of an operator, keyword, type or identifier token. */
  function Text(tok: Token): string {
    match tok
    case Number(_) => ""
    case Character(c) => c
    case String(s) => s
    case Type(t) => t
    case Keyword(k) => k
    case Operator(op) => op
    case Identifier(name) => name
  }

  /** The precedence-climbing loop of `binary(e1, mp)` will run: the current
      token is an operator whose level is at least `mp`. */
  predicate Climbs(st: State, mp: nat)
    requires st.Valid()
  {
    st.cursor < |st.tokens| && st.tokens[st.cursor].Operator? &&
    AtLeast(Precedence(Text(st.tokens[st.cursor])), mp)
  }

  /** The postfix alternatives, in the order `primary` lists them. */
  const PostfixOps: seq<string> := ["--", "++"]
  /** The prefix alternatives, in the order `primary` lists them. */
  const PrefixOps: seq<string> := ["!", "~", "&", "+", "-", "--", "++"]
  /** The operand alternatives, in the order `primary` lists them. */
  const TermTypes: seq<TokenType> := [IDENTIFIER, NUMBER, CHARACTER, STRING]

  /** The number of alternatives of `primary`. */
  const PrimaryCount: nat := 15

  /** An operator token is in `BINARY_OPERATORS` exactly when it has a
      precedence. */
  lemma BinaryOperatorToken(tok: Token)
    ensures MatchesSome(tok, OPERATOR, BinaryOperators()) <==> tok.Operator? && Precedence(Text(tok)).Some?
  {
    PrecedenceDefinedIffBinary(Text(tok));
  }

  // ---------------------------------------------------------------------
  // Expressions

  /** `require(type_, value, move)`: move, then check the token; on a
      mismatch move back and raise Continue. */
  function Require(st: State, type_: TokenType, value: Option<string>, move: nat): (s: Step<()>)
    requires st.Valid() && st.cursor + move <= |st.tokens|
    ensures s.st.Valid()
    ensures s.r.Ok? <==> st.cursor + move < |st.tokens| && Matches(st.tokens[st.cursor + move], type_, value)
    ensures s.r.Ok? ==> s.st == State(st.tokens, st.cursor + move)
    ensures s.r.Err? ==> s.r.error == Continue || s.r.error == IndexError
    ensures s.r.Err? && s.r.error == Continue ==> s.st == st && st.cursor + move < |st.tokens|
    ensures s.r.Err? && s.r.error == IndexError ==> st.cursor + move == |st.tokens|
  {
    var moved := Move(st, move);
    match IsA(moved, type_, value)
    case Err(e) => Step(Err(e), moved)
    case Ok(matches) =>
      if matches then Step(Ok(()), moved) else Step(Err(Continue), Move(moved, -(move as int)))
  }

  /** `term(type_)`: an operand token of the given type. */
  function ParseTerm(type_: TokenType, st: State): (s: Step<Node>)
    requires st.Valid()
    ensures Advances(st, s)
    ensures s.r.Err? ==> s.r.error != KeyError
    ensures s.r.Ok? ==> s.r.value == Term(st.tokens[st.cursor]) && st.tokens[st.cursor].TypeOf() == type_
  {
    var (_, st1) :- Require(st, type_, None, 0);
    var (_, st2) := Consume(st1, type_, None).Extract();
    Step(Ok(Term(st1.tokens[st1.cursor])), st2)
  }

  /** `parse_paren_expression`: `(`, an expression, `)`. */
  function ParseParenExpression(st: State): (s: Step<Node>)
    requires st.Valid()
    ensures Advances(st, s)
    ensures s.r.Err? ==> s.r.error != KeyError
    decreases st.Measure(), 1, 0
  {
    var (_, st1) :- Consume(st, OPERATOR, Some("("));
    var (e, st2) :- ParseExpression(st1);
    var (_, st3) :- Consume(st2, OPERATOR, Some(")"));
    Step(Ok(e), st3)
  }

  /** `parse_expression`: `binary(primary(), 0)`. */
  function ParseExpression(st: State): (s: Step<Node>)
    requires st.Valid()
    ensures Advances(st, s)
    ensures s.r.Err? ==> s.r.error != Continue && s.r.error != KeyError
    decreases st.Measure(), 6, 0
  {
    var (e, st1) :- ParsePrimary(st);
    ParseBinary(e, 0, st1)
  }

  /** `paren`: the alternative for a parenthesised expression. */
  function ParseParen(st: State): (s: Step<Node>)
    requires st.Valid()
    ensures Advances(st, s)
    ensures s.r.Err? ==> s.r.error != KeyError
    decreases st.Measure(), 2, 0
  {
    var (_, st1) :- Require(st, OPERATOR, Some("("), 0);
    ParseParenExpression(st1)
  }

  /** `funcall`: an identifier directly followed by `(`, then arguments up
      to `)`, each optionally followed by a comma. */
  function ParseFuncall(st: State): (s: Step<Node>)
    requires st.Valid() && st.cursor < |st.tokens|
    ensures Advances(st, s)
    ensures s.r.Err? ==> s.r.error != KeyError
    decreases st.Measure(), 1, 0
  {
    var (_, st1) :- Require(st, IDENTIFIER, None, 0);
    var (_, st2) :- Require(st1, OPERATOR, Some("("), 1);
    var st3 := Move(st2, -1);
    var (_, st4) := Consume(st3, IDENTIFIER, None).Extract();
    var (_, st5) := Consume(st4, OPERATOR, Some("(")).Extract();
    var (args, st6) :- FuncallArgs([], st5);
    var (_, st7) :- Consume(st6, OPERATOR, Some(")"));
    Step(Ok(Call(Text(st3.tokens[st3.cursor]), args)), st7)
  }

  /** The argument loop of `funcall`: until the current token is `)`, an
      expression and an optional comma. */
  function FuncallArgs(args: seq<Node>, st: State): (s: Step<seq<Node>>)
    requires st.Valid()
    ensures Keeps(st, s)
    ensures s.r.Err? ==> s.r.error != Continue && s.r.error != KeyError
    ensures s.r.Ok? ==> |s.r.value| >= |args| && s.r.value[..|args|] == args
    decreases st.Measure(), 7, 0
  {
    var (closing, _) :- Step(IsA(st, OPERATOR, Some(")")), st);
    if closing then Step(Ok(args), st)
    else
      var (e, st1) :- ParseExpression(st);
      var (_, st2) :- Ignore(st1, OPERATOR, Some(","));
      FuncallArgs(args + [e], st2)
  }

  /** `runary(value)`: when the token after the current one is `value`, that
      token is deleted and the operand is parsed from the current token. */
  function ParseRUnary(op: string, st: State): (s: Step<Node>)
    requires st.Valid() && st.cursor < |st.tokens|
    ensures Advances(st, s)
    ensures s.r.Err? ==> s.r.error != KeyError
    decreases st.Measure(), 1, 0
  {
    var (_, st1) :- Require(st, OPERATOR, Some(op), 1);
    var st2 := Drop(st1, 0, 1);
    var st3 := Move(st2, -1);
    var (e, st4) :- ParsePrimary(st3);
    Step(Ok(RUnary(op, e)), st4)
  }

  /** `lunary(value)`: the prefix operator, then a primary. */
  function ParseLUnary(op: string, st: State): (s: Step<Node>)
    requires st.Valid()
    ensures Advances(st, s)
    ensures s.r.Err? ==> s.r.error != KeyError
    decreases st.Measure(), 1, 0
  {
    var (_, st1) :- Require(st, OPERATOR, Some(op), 0);
    var (_, st2) := Consume(st1, OPERATOR, None).Extract();
    var (e, st3) :- ParsePrimary(st2);
    Step(Ok(LUnary(op, e)), st3)
  }

  /** The `i`-th alternative of `primary`. Every alternative after the first
      is only tried once the first has read the current token. */
  function PrimaryAlt(i: nat, st: State): (s: Step<Node>)
    requires st.Valid() && i < PrimaryCount && (i > 0 ==> st.cursor < |st.tokens|)
    ensures Advances(st, s)
    ensures s.r.Err? ==> s.r.error != KeyError
    decreases st.Measure(), 3, 0
  {
    if i == 0 then ParseParen(st)
    else if i == 1 then ParseFuncall(st)
    else if i < 4 then ParseRUnary(PostfixOps[i - 2], st)
    else if i < 11 then ParseLUnary(PrefixOps[i - 4], st)
    else ParseTerm(TermTypes[i - 11], st)
  }

  /** `alternative` over the alternatives of `primary` from the `i`-th on. */
  function PrimaryFrom(i: nat, st: State): (s: Step<Node>)
    requires st.Valid() && i <= PrimaryCount && (i > 0 ==> st.cursor < |st.tokens|)
    ensures Advances(st, s)
    ensures s.r.Err? ==> s.r.error != Continue && s.r.error != KeyError
    decreases st.Measure(), 4, PrimaryCount - i
  {
    if i == PrimaryCount then NoAlternative(st)
    else
      var s := PrimaryAlt(i, st);
      if s.r.Err? && s.r.error == Continue then PrimaryFrom(i + 1, s.st) else s
  }

  /** `primary`. */
  function ParsePrimary(st: State): (s: Step<Node>)
    requires st.Valid()
    ensures Advances(st, s)
    ensures s.r.Err? ==> s.r.error != Continue && s.r.error != KeyError
    decreases st.Measure(), 5, 0
  {
    PrimaryFrom(0, st)
  }

  /** `binary(e1, mp)`: while the current token is a binary operator of
      level at least `mp`, consume it and a primary, let the inner loop
      (`RightOperand`) absorb into that primary every following operator of
      at least the consumed one's level, and make the result the new left
      operand. */
  function ParseBinary(e1: Node, mp: nat, st: State): (s: Step<Node>)
    requires st.Valid()
    ensures Keeps(st, s)
    ensures s.r.Err? ==> s.r.error != Continue && s.r.error != KeyError
    ensures s.r.Ok? && Climbs(st, mp) ==> s.st.Measure() < st.Measure()
    decreases st.Measure(), 0
  {
    var (binary, _) :- Step(IsIn(st, OPERATOR, BinaryOperators()), st);
    var tok := st.tokens[st.cursor];
    BinaryOperatorToken(tok);
    assert binary <==> tok.Operator? && Precedence(Text(tok)).Some?;
    if binary && AtLeast(Precedence(Text(tok)), mp) then
      var (_, st1) := Consume(st, OPERATOR, None).Extract();
      var (e2, st2) :- ParsePrimary(st1);
      var (e2', st3) :- RightOperand(Text(tok), e2, st2);
      ParseBinary(Binary(Text(tok), e1, e2'), mp, st3)
    else Step(Ok(e1), st)
  }

  /** The inner loop of `binary`: while the current token is an operator
      whose level is at least that of `op`, the right operand `e2` becomes
      `binary(e2, that level)`. */
  function RightOperand(op: string, e2: Node, st: State): (s: Step<Node>)
    requires st.Valid() && Precedence(op).Some?
    ensures Keeps(st, s)
    ensures s.r.Err? ==> s.r.error != Continue && s.r.error != KeyError
    decreases st.Measure(), 1
  {
    var (isOp, _) :- Step(IsA(st, OPERATOR, None), st);
    var tok := st.tokens[st.cursor];
    if isOp && AtLeast(Precedence(Text(tok)), Precedence(op).value) then
      var (e2', st1) :- ParseBinary(e2, Precedence(Text(tok)).value, st);
      RightOperand(op, e2', st1)
    else Step(Ok(e2), st)
  }

  // ---------------------------------------------------------------------
  // Statements

  /** An optional clause of `for`: an expression unless the current token
      is the operator `stop`. */
  function OptionalExpr(stop: string, st: State): (s: Step<Option<Node>>)
    requires st.Valid()
    ensures Keeps(st, s)
    ensures s.r.Err? ==> s.r.error != Continue && s.r.error != KeyError
    ensures s.r.Ok? && s.r.value.None? ==> s.st == st && st.cursor < |st.tokens| && Matches(st.tokens[st.cursor], OPERATOR, Some(stop))
  {
    var (absent, _) :- Step(IsA(st, OPERATOR, Some(stop)), st);
    if absent then Step(Ok(None), st)
    else
      var (e, st1) :- ParseExpression(st);
      Step(Ok(Some(e)), st1)
  }

  /** `parse_if`, entered at an `if` or `else if` keyword. The node kind is
      looked up by the keyword's upper-cased text: `if` names NIF, but
      `else if` names nothing and the lookup raises KeyError once the keyword
      has been consumed. A condition followed by `;` is a bare `if`, whose
      `;` is left in place. */
  function ParseIf(st: State): (s: Step<Node>)
    requires st.Valid() && st.cursor < |st.tokens|
    requires st.tokens[st.cursor] == Keyword("if") || st.tokens[st.cursor] == Keyword("else if")
    ensures Advances(st, s)
    ensures s.r.Err? ==> s.r.error != Continue
    ensures s.r.Ok? ==> st.tokens[st.cursor] == Keyword("if") && (s.r.value.IfBare? || s.r.value.If?)
    decreases st.Measure(), 8, 0
  {
    var (_, st1) := Consume(st, KEYWORD, None).Extract();
    if st.tokens[st.cursor] != Keyword("if") then Step(Err(KeyError), st1)
    else
      var (cond, st2) :- ParseParenExpression(st1);
      var (bare, _) :- Step(IsA(st2, OPERATOR, Some(";")), st2);
      if bare then Step(Ok(IfBare(cond)), st2)
      else
        var (body, st3) :- ParseBlock(st2);
        assert st3.Valid() && st3.Measure() < st.Measure();
        var (elseIf, _) :- Step(IsA(st3, KEYWORD, Some("else if")), st3);
        if elseIf then
          assert st3.tokens[st3.cursor] == Keyword("else if");
          var s4 := ParseIf(st3);
          match s4.r
          case Ok(tail) => Step(Ok(If(cond, body, Some(tail))), s4.st)
          case Err(e) => Step(Err(e), s4.st)
        else
          var (els, st4) := Ignore(st3, KEYWORD, Some("else")).Extract();
          if els.Some? then
            var (elseBody, st5) :- ParseBlock(st4);
            Step(Ok(If(cond, body, Some(Else(elseBody)))), st5)
          else Step(Ok(If(cond, body, None)), st3)
  }

  /** `parse_for`: `for (e1; e2; e3)` with every clause optional, then a
      block unless the next token is `;` (which is left in place). */
  function ParseFor(st: State): (s: Step<Node>)
    requires st.Valid()
    ensures Advances(st, s)
    ensures s.r.Err? ==> s.r.error != Continue
    ensures s.r.Ok? ==> s.r.value.For?
    decreases st.Measure(), 8, 0
  {
    var (_, st1) :- Consume(st, KEYWORD, Some("for"));
    var (_, st2) :- Consume(st1, OPERATOR, Some("("));
    var (e1, st3) :- OptionalExpr(";", st2);
    var (_, st4) :- Consume(st3, OPERATOR, Some(";"));
    var (e2, st5) :- OptionalExpr(";", st4);
    var (_, st6) :- Consume(st5, OPERATOR, Some(";"));
    var (e3, st7) :- OptionalExpr(")", st6);
    var (_, st8) :- Consume(st7, OPERATOR, Some(")"));
    var (bare, _) :- Step(IsA(st8, OPERATOR, Some(";")), st8);
    if bare then Step(Ok(For(e1, e2, e3, None)), st8)
    else
      var (body, st9) :- ParseBlock(st8);
      Step(Ok(For(e1, e2, e3, Some(body))), st9)
  }

  /** `parse_while`: `while (cond)`, then either `;` (consumed) or a block. */
  function ParseWhile(st: State): (s: Step<Node>)
    requires st.Valid()
    ensures Advances(st, s)
    ensures s.r.Err? ==> s.r.error != Continue
    ensures s.r.Ok? ==> s.r.value.While?
    decreases st.Measure(), 8, 0
  {
    var (_, st1) :- Consume(st, KEYWORD, Some("while"));
    var (_, st2) :- Consume(st1, OPERATOR, Some("("));
    var (cond, st3) :- ParseExpression(st2);
    var (_, st4) :- Consume(st3, OPERATOR, Some(")"));
    var (semi, st5) :- Ignore(st4, OPERATOR, Some(";"));
    if semi.Some? then Step(Ok(While(cond, None)), st5)
    else
      var (body, st6) :- ParseBlock(st5);
      Step(Ok(While(cond, Some(body))), st6)
  }

  /** `parse_return`: `return`, then either `;` (consumed here, so the
      statement still needs a `;` of its own) or an expression. */
  function ParseReturn(st: State): (s: Step<Node>)
    requires st.Valid()
    ensures Advances(st, s)
    ensures s.r.Err? ==> s.r.error != Continue && s.r.error != KeyError
    ensures s.r.Ok? ==> s.r.value.Return?
  {
    var (_, st1) :- Consume(st, KEYWORD, Some("return"));
    var (done, st2) :- Ignore(st1, OPERATOR, Some(";"));
    if done.Some? then Step(Ok(Return(None)), st2)
    else
      var (e, st3) :- ParseExpression(st2);
      Step(Ok(Return(Some(e))), st3)
  }

  /** Every token of `ts` is the operator `*`. */
  predicate OnlyStars(ts: seq<Token>) {
    forall i :: 0 <= i < |ts| ==> ts[i] == Operator("*")
  }

  /** The stars of a pointer type: every `*` operator from the cursor on. */
  function Stars(st: State): (s: Step<()>)
    requires st.Valid()
    ensures s.st.Valid() && s.st.tokens == st.tokens && s.st.cursor >= st.cursor
    ensures s.r.Err? ==> s.r.error == IndexError
    ensures s.r.Ok? ==> s.st.cursor < |s.st.tokens| && s.st.tokens[s.st.cursor] != Operator("*")
    ensures OnlyStars(st.tokens[st.cursor..s.st.cursor])
    decreases st.Measure()
  {
    var (star, _) :- Step(IsA(st, OPERATOR, Some("*")), st);
    if star then
      var (_, st1) := Consume(st, OPERATOR, Some("*")).Extract();
      Stars(st1)
    else Step(Ok(()), st)
  }

  /** The part of `parse_variable` up to the name: an optional `const`, a
      type, its stars and the name, which stands just before the new
      cursor. */
  function VariableName(st: State): (s: Step<string>)
    requires st.Valid()
    ensures s.st.Valid() && s.st.tokens == st.tokens && s.st.cursor >= st.cursor
    ensures s.r.Err? ==> s.r.error != Continue && s.r.error != KeyError
    ensures s.r.Ok? ==> s.st.cursor >= st.cursor + 2 && s.st.tokens[s.st.cursor - 1] == Identifier(s.r.value)
  {
    var (_, st1) :- Ignore(st, KEYWORD, Some("const"));
    var (_, st2) :- Consume(st1, TYPE, None);
    var (_, st3) :- Stars(st2);
    var (_, st4) :- Consume(st3, IDENTIFIER, None);
    Step(Ok(Text(st3.tokens[st3.cursor])), st4)
  }

  /** `parse_variable`: the name, then an optional `[NUMBER]` suffix; the
      result is the name, and `parse_declaration` can rewind from where it
      stops. */
  function ParseVariable(st: State): (s: Step<string>)
    requires st.Valid()
    ensures s.st.Valid() && s.st.tokens == st.tokens && s.st.cursor >= st.cursor
    ensures s.r.Err? ==> s.r.error != Continue && s.r.error != KeyError
    ensures s.r.Ok? ==> s.st.cursor >= st.cursor + 2
    ensures s.r.Ok? ==> Restartable(s.st)
  {
    var (name, st1) :- VariableName(st);
    var (bracket, _) :- Step(IsA(st1, OPERATOR, Some("[")), st1);
    if bracket then
      var (_, st2) := Consume(st1, OPERATOR, Some("[")).Extract();
      var (_, st3) :- Consume(st2, NUMBER, None);
      var (_, st4) :- Consume(st3, OPERATOR, Some("]"));
      Step(Ok(name), st4)
    else Step(Ok(name), st1)
  }

  /** A state `InitStart` can rewind: two tokens have been read, and four
      when the last of them is `]`. */
  predicate Restartable(st: State)
    requires st.Valid()
  {
    st.cursor >= 2 && (st.tokens[st.cursor - 1] == Operator("]") ==> st.cursor >= 4)
  }

  /** The state from which `parse_declaration` parses an initialiser: one
      token back, at the name, or, when the declaration has an array
      suffix, with `[NUMBER]` deleted and three more tokens back, again at
      the name. */
  function InitStart(st: State): (s: State)
    requires st.Valid() && Restartable(st)
    ensures s.Valid() && s.Measure() == st.Measure() + 1
  {
    var back := Move(st, -1);
    if back.tokens[back.cursor] == Operator("]") then Move(Drop(back, 2, 1), -3)
    else back
  }

  /** `parse_declaration`: a variable, then, when `=` follows, the whole
      assignment re-parsed as an expression starting at the name. */
  function ParseDeclaration(st: State): (s: Step<Node>)
    requires st.Valid()
    ensures Advances(st, s)
    ensures s.r.Err? ==> s.r.error != Continue && s.r.error != KeyError
    ensures s.r.Ok? ==> s.r.value.Decl? || s.r.value.DeclInit?
  {
    var (name, st1) :- ParseVariable(st);
    var (assign, _) :- Step(IsA(st1, OPERATOR, Some("=")), st1);
    if !assign then Step(Ok(Decl(name)), st1)
    else
      var (init, st2) :- ParseExpression(InitStart(st1));
      Step(Ok(DeclInit(name, init)), st2)
  }

  /** The error the keyword dispatcher raises in place of a KeyError: it
      reads the current value, which raises IndexError past the end and
      TypeError when the value is a number (it is added to a string). */
  function KeywordFailure(st: State): (e: Exception)
    requires st.Valid()
    ensures st.cursor == |st.tokens| <==> e == IndexError
    ensures e.TypeError? <==> st.cursor < |st.tokens| && st.tokens[st.cursor].Number?
    ensures e.UnexpectedToken? ==> e == UnexpectedToken(st.tokens[st.cursor], StatementKeyword)
    ensures e != KeyError && e != Continue
  {
    if st.cursor == |st.tokens| then IndexError
    else if st.tokens[st.cursor].Number? then TypeError
    else UnexpectedToken(st.tokens[st.cursor], StatementKeyword)
  }

  /** The `keyword` alternative of `parse_statement`: Continue unless the
      current token is a keyword; otherwise dispatch on its text, and turn
      any KeyError raised by the lookup or by the chosen parser into the
      dispatcher's own error. */
  function KeywordStatement(st: State): (s: Step<Node>)
    requires st.Valid()
    ensures Advances(st, s)
    ensures s.r.Err? ==> s.r.error != KeyError
    decreases st.Measure(), 9, 0
  {
    var (isKeyword, _) :- Step(IsA(st, KEYWORD, None), st);
    if !isKeyword then Step(Err(Continue), st)
    else
      var k := Text(st.tokens[st.cursor]);
      var s :=
        if k == "if" then ParseIf(st)
        else if k == "for" then ParseFor(st)
        else if k == "while" then ParseWhile(st)
        else if k == "return" then ParseReturn(st)
        else Step(Err(KeyError), st);
      if s.r.Err? && s.r.error == KeyError then Step(Err(KeywordFailure(s.st)), s.st) else s
  }

  /** The number of alternatives of `parse_statement`. */
  const StatementCount: nat := 3

  /** The `i`-th alternative of `parse_statement`: a declaration (Continue
      unless the current token is a type), a keyword statement, or an
      expression. */
  function StatementAlt(i: nat, st: State): (s: Step<Node>)
    requires st.Valid() && i < StatementCount && (i > 0 ==> st.cursor < |st.tokens|)
    ensures Advances(st, s)
    ensures s.r.Err? ==> s.r.error != KeyError
    decreases st.Measure(), 10, 0
  {
    if i == 0 then
      var (isType, _) :- Step(IsA(st, TYPE, None), st);
      if isType then ParseDeclaration(st) else Step(Err(Continue), st)
    else if i == 1 then KeywordStatement(st)
    else ParseExpression(st)
  }

  /** `alternative` over the alternatives of `parse_statement` from the
      `i`-th on. */
  function StatementFrom(i: nat, st: State): (s: Step<Node>)
    requires st.Valid() && i <= StatementCount && (i > 0 ==> st.cursor < |st.tokens|)
    ensures Advances(st, s)
    ensures s.r.Err? ==> s.r.error != Continue && s.r.error != KeyError
    decreases st.Measure(), 11, StatementCount - i
  {
    if i == StatementCount then NoAlternative(st)
    else
      var s := StatementAlt(i, st);
      if s.r.Err? && s.r.error == Continue then StatementFrom(i + 1, s.st) else s
  }

  /** `parse_statement`: the first alternative that applies, followed by a
      `;` unless the statement is an `if`, `else`, `for` or `while`. */
  function ParseStatement(st: State): (s: Step<Node>)
    requires st.Valid()
    ensures Advances(st, s)
    ensures s.r.Err? ==> s.r.error != Continue && s.r.error != KeyError
    decreases st.Measure(), 12, 0
  {
    var (n, st1) :- StatementFrom(0, st);
    if SkipsSemicolon(n) then Step(Ok(n), st1)
    else
      var (_, st2) :- Consume(st1, OPERATOR, Some(";"));
      Step(Ok(n), st2)
  }

  /** `parse_block`: a single statement, or statements between braces. */
  function ParseBlock(st: State): (s: Step<Node>)
    requires st.Valid()
    ensures Advances(st, s)
    ensures s.r.Err? ==> s.r.error != Continue && s.r.error != KeyError
    ensures s.r.Ok? ==> s.r.value.Block?
    decreases st.Measure(), 13, 1
  {
    var (brace, _) :- Step(IsA(st, OPERATOR, Some("{")), st);
    if !brace then
      var (stmt, st1) :- ParseStatement(st);
      Step(Ok(Block([stmt])), st1)
    else
      var (_, st1) := Consume(st, OPERATOR, Some("{")).Extract();
      var (stmts, st2) :- BlockItems([], st1);
      var (_, st3) :- Consume(st2, OPERATOR, Some("}"));
      Step(Ok(Block(stmts)), st3)
  }

  /** The statement loop of `parse_block`: statements until `}`. */
  function BlockItems(stmts: seq<Node>, st: State): (s: Step<seq<Node>>)
    requires st.Valid()
    ensures Keeps(st, s)
    ensures s.r.Err? ==> s.r.error != Continue && s.r.error != KeyError
    ensures s.r.Ok? ==> |s.r.value| >= |stmts| && s.r.value[..|stmts|] == stmts
    decreases st.Measure(), 13, 0
  {
    var (closing, _) :- Step(IsA(st, OPERATOR, Some("}")), st);
    if closing then Step(Ok(stmts), st)
    else
      var (stmt, st1) :- ParseStatement(st);
      BlockItems(stmts + [stmt], st1)
  }

  // ---------------------------------------------------------------------
  // Top level

  /** The loop of `parse_parameter_list`: variables, each optionally
      followed by a comma, until `)`. */
  function Parameters(names: seq<string>, st: State): (s: Step<seq<string>>)
    requires st.Valid()
    ensures s.st.Valid() && s.st.tokens == st.tokens && s.st.cursor >= st.cursor
    ensures s.r.Err? ==> s.r.error != Continue && s.r.error != KeyError
    ensures s.r.Ok? ==> s.st.cursor < |s.st.tokens| && Matches(s.st.tokens[s.st.cursor], OPERATOR, Some(")"))
    decreases st.Measure()
  {
    var (closing, _) :- Step(IsA(st, OPERATOR, Some(")")), st);
    if closing then Step(Ok(names), st)
    else
      var (name, st1) :- ParseVariable(st);
      var (_, st2) :- Ignore(st1, OPERATOR, Some(","));
      Parameters(names + [name], st2)
  }

  /** `parse_parameter_list`: `(`, the parameters, `)`. */
  function ParameterList(st: State): (s: Step<Node>)
    requires st.Valid()
    ensures s.st.Valid() && s.st.tokens == st.tokens && s.st.cursor >= st.cursor
    ensures s.r.Err? ==> s.r.error != Continue && s.r.error != KeyError
    ensures s.r.Ok? ==> s.r.value.PList? && s.st.cursor >= st.cursor + 2
  {
    var (_, st1) :- Consume(st, OPERATOR, Some("("));
    var (names, st2) :- Parameters([], st1);
    var (_, st3) := Consume(st2, OPERATOR, Some(")")).Extract();
    Step(Ok(PList(names)), st3)
  }

  /** `parse_toplevel`: a type, a name and a parameter list, then either `;`
      (a forward declaration) or the body. */
  function ParseToplevel(st: State): (s: Step<Node>)
    requires st.Valid()
    ensures Advances(st, s)
    ensures s.r.Err? ==> s.r.error != Continue && s.r.error != KeyError
    ensures s.r.Ok? ==> s.r.value.FunDecl? || s.r.value.FwdDecl?
    ensures st.cursor == |st.tokens| ==> s == Step(Err(IndexError), st)
  {
    var (_, st1) :- Consume(st, TYPE, None);
    var (_, st2) :- Consume(st1, IDENTIFIER, None);
    var (params, st3) :- ParameterList(st2);
    var rtype := Text(st.tokens[st.cursor]);
    var name := Text(st1.tokens[st1.cursor]);
    var (semi, st4) :- Ignore(st3, OPERATOR, Some(";"));
    if semi.Some? then Step(Ok(FwdDecl(rtype, name, params)), st4)
    else
      var (body, st5) :- ParseBlock(st4);
      Step(Ok(FunDecl(rtype, name, params, body)), st5)
  }

  /** What `parse` yields before it stops: the top-level nodes, and the
      exception that ended it unless that was the IndexError it swallows. */
  datatype Parsed = Parsed(nodes: seq<Node>, error: Option<Exception>)

  /** The loop of `parse` from the given state. */
  function ParseFrom(st: State): (p: Parsed)
    requires st.Valid()
    ensures forall k :: 0 <= k < |p.nodes| ==> p.nodes[k].FunDecl? || p.nodes[k].FwdDecl?
    ensures p.error.Some? ==> p.error.value != Continue && p.error.value != IndexError && p.error.value != KeyError
    decreases st.Measure()
  {
    var s := ParseToplevel(st);
    if s.r.Ok? then
      var rest := ParseFrom(s.st);
      Parsed([s.r.value] + rest.nodes, rest.error)
    else if s.r.error == IndexError then Parsed([], None)
    else Parsed([], Some(s.r.error))
  }

  /** `parse`: every top-level declaration from the start of the tokens. */
  function Parse(tokens: seq<Token>): (p: Parsed)
    ensures forall k :: 0 <= k < |p.nodes| ==> p.nodes[k].FunDecl? || p.nodes[k].FwdDecl?
    ensures tokens == [] ==> p == Parsed([], None)
  {
    ParseFrom(State(tokens, 0))
  }
}
