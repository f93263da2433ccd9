/** Properties of statement parsing: which statements take a `;` of their
    own, the `else` branch, the `else if` keyword that never parses, and
    keywords the dispatcher does not know. Each property fixes the tokens
    from position `c` of the list `t` on and states the whole outcome; the
    step lemmas before them take the states they relate as parameters. */
module StatementProperties {
  import opened Lexer
  import opened Cursor
  import opened Grammar
  import opened ParserProperties

  // ---------------------------------------------------------------------
  // The statement choice

  /** The declaration alternative passes over a token that is not a type. */
  lemma {:induction false} NotDeclaration(st: State)
    requires st.Valid() && st.cursor < |st.tokens| && !st.tokens[st.cursor].Type?
    ensures StatementAlt(0, st) == Step(Err(Continue), st)
  {
  }

  /** The keyword alternative passes over a token that is not a keyword. */
  lemma {:induction false} NotKeywordStatement(st: State)
    requires st.Valid() && st.cursor < |st.tokens| && !st.tokens[st.cursor].Keyword?
    ensures StatementAlt(1, st) == Step(Err(Continue), st)
  {
    assert StatementAlt(1, st) == KeywordStatement(st);
  }

  /** On a keyword, the statement choice is the keyword dispatcher. */
  lemma {:induction false} KeywordChosen(st: State, res: Step<Node>)
    requires st.Valid() && st.cursor < |st.tokens| && st.tokens[st.cursor].Keyword?
    requires KeywordStatement(st) == res && res.r != Err(Continue)
    ensures StatementFrom(0, st) == res
  {
    NotDeclaration(st);
    assert StatementAlt(1, st) == KeywordStatement(st);
    StatementFirstApplicable(st, 1);
  }

  /** The dispatcher on `if`, `for`, `while` or `return` gives what the
      chosen parser gives, unless that is a KeyError. */
  lemma {:induction false} KeywordDispatch(st: State, res: Step<Node>)
    requires st.Valid() && st.cursor < |st.tokens| && st.tokens[st.cursor].Keyword?
    requires res.r != Err(Continue) && res.r != Err(KeyError)
    requires var k := Text(st.tokens[st.cursor]);
      (k == "if" && ParseIf(st) == res) || (k == "for" && ParseFor(st) == res) ||
      (k == "while" && ParseWhile(st) == res) || (k == "return" && ParseReturn(st) == res)
    ensures StatementFrom(0, st) == res
  {
    assert KeywordStatement(st) == res;
    KeywordChosen(st, res);
  }

  /** On a token that is neither a type nor a keyword, the statement
      choice is the expression. */
  lemma {:induction false} ExpressionChosen(st: State, res: Step<Node>)
    requires st.Valid() && st.cursor < |st.tokens|
    requires !st.tokens[st.cursor].Type? && !st.tokens[st.cursor].Keyword?
    requires ParseExpression(st) == res && res.r != Err(Continue)
    ensures StatementFrom(0, st) == res
  {
    NotDeclaration(st);
    NotKeywordStatement(st);
    assert StatementAlt(2, st) == ParseExpression(st);
    StatementFirstApplicable(st, 2);
  }

  /** An `if`, `else`, `for` or `while` is the whole statement. */
  lemma {:induction false} StatementSkips(st: State, n: Node, st1: State)
    requires st.Valid() && StatementFrom(0, st) == Step(Ok(n), st1) && SkipsSemicolon(n)
    ensures ParseStatement(st) == Step(Ok(n), st1)
  {
  }

  /** Any other statement must be followed by a `;`, which it takes. */
  lemma {:induction false} StatementTakesSemicolon(st: State, n: Node, st1: State, st2: State)
    requires st.Valid() && StatementFrom(0, st) == Step(Ok(n), st1) && !SkipsSemicolon(n)
    requires st1.Valid() && st1.cursor < |st1.tokens| && st1.tokens[st1.cursor] == Operator(";")
    requires st2 == State(st1.tokens, st1.cursor + 1)
    ensures ParseStatement(st) == Step(Ok(n), st2)
  {
    ConsumeOperator(st1, ";", st2);
  }

  /** A failing statement choice fails the statement. */
  lemma {:induction false} StatementFails(st: State, e: Exception, st1: State)
    requires st.Valid() && StatementFrom(0, st) == Step(Err(e), st1)
    ensures ParseStatement(st) == Step(Err(e), st1)
  {
  }

  /** A keyword statement that ends without a `;` of its own. */
  lemma {:induction false} KeywordSkips(st: State, res: Step<Node>)
    requires st.Valid() && st.cursor < |st.tokens| && st.tokens[st.cursor].Keyword?
    requires res.r.Ok? && SkipsSemicolon(res.r.value)
    requires var k := Text(st.tokens[st.cursor]);
      (k == "if" && ParseIf(st) == res) || (k == "for" && ParseFor(st) == res) ||
      (k == "while" && ParseWhile(st) == res)
    ensures ParseStatement(st) == res
  {
    KeywordDispatch(st, res);
    StatementSkips(st, res.r.value, res.st);
  }

  /** A block without braces is its one statement. */
  lemma {:induction false} BlockOfStatement(st: State, n: Node, st1: State)
    requires st.Valid() && st.cursor < |st.tokens| && st.tokens[st.cursor] != Operator("{")
    requires ParseStatement(st) == Step(Ok(n), st1)
    ensures ParseBlock(st) == Step(Ok(Block([n])), st1)
  {
  }

  // ---------------------------------------------------------------------
  // Operands

  /** An operand followed by an ending token is the whole expression, and
      the cursor stops at the ending token (`st1`). */
  lemma {:induction false} Operand(st: State, st1: State)
    requires st.Valid() && st.cursor < |st.tokens| && IsOperand(st.tokens[st.cursor])
    requires st1 == State(st.tokens, st.cursor + 1) && st1.cursor < |st1.tokens| && Ends(st1.tokens[st1.cursor])
    ensures ParseExpression(st) == Step(Ok(Term(st.tokens[st.cursor])), st1)
  {
    OperandExpression(st);
  }

  /** `( a )`: the operand at `st1`, and the cursor after the `)` (`st3`). */
  lemma {:induction false} ParenOperand(st: State, st1: State, st2: State, st3: State)
    requires st.Valid() && st.cursor < |st.tokens| && st.tokens[st.cursor] == Operator("(")
    requires st1 == State(st.tokens, st.cursor + 1) && st1.cursor < |st1.tokens| && IsOperand(st1.tokens[st1.cursor])
    requires st2 == State(st1.tokens, st1.cursor + 1) && st2.cursor < |st2.tokens| && st2.tokens[st2.cursor] == Operator(")")
    requires st3 == State(st2.tokens, st2.cursor + 1)
    ensures ParseParenExpression(st) == Step(Ok(Term(st1.tokens[st1.cursor])), st3)
  {
    Operand(st1, st2);
    ParenStep(st, st1, Term(st1.tokens[st1.cursor]), st2, st3);
  }

  // ---------------------------------------------------------------------
  // Semicolons

  /** `a ;` is an expression statement, which takes its `;`: from `st` the
      statement ends at `st2`, after the `;` at `st1`. */
  lemma {:induction false} ExpressionStatement(st: State, st1: State, st2: State)
    requires st.Valid() && st.cursor < |st.tokens| && IsOperand(st.tokens[st.cursor])
    requires st1 == State(st.tokens, st.cursor + 1) && st1.cursor < |st1.tokens| && st1.tokens[st1.cursor] == Operator(";")
    requires st2 == State(st1.tokens, st1.cursor + 1)
    ensures ParseStatement(st) == Step(Ok(Term(st.tokens[st.cursor])), st2)
  {
    var a := Term(st.tokens[st.cursor]);
    Operand(st, st1);
    ExpressionChosen(st, Step(Ok(a), st1));
    StatementTakesSemicolon(st, a, st1, st2);
  }

  /** A block without braces is the one statement: `a ;` gives a block of
      that statement alone. */
  lemma {:induction false} SingleStatementBlock(st: State, st1: State, st2: State)
    requires st.Valid() && st.cursor < |st.tokens| && IsOperand(st.tokens[st.cursor])
    requires st1 == State(st.tokens, st.cursor + 1) && st1.cursor < |st1.tokens| && st1.tokens[st1.cursor] == Operator(";")
    requires st2 == State(st1.tokens, st1.cursor + 1)
    ensures ParseBlock(st) == Step(Ok(Block([Term(st.tokens[st.cursor])])), st2)
  {
    ExpressionStatement(st, st1, st2);
    BlockOfStatement(st, Term(st.tokens[st.cursor]), st2);
  }

  /** `return ;` takes the `;` while parsing the return. */
  lemma {:induction false} ReturnEmpty(t: seq<Token>, c: nat)
    requires c + 1 < |t| && t[c] == Keyword("return") && t[c + 1] == Operator(";")
    ensures ParseReturn(State(t, c)) == Step(Ok(Return(None)), State(t, c + 2))
  {
    ConsumeKeyword(State(t, c), "return", State(t, c + 1));
    ConsumeOperator(State(t, c + 1), ";", State(t, c + 2));
  }

  /** `return ;` consumes its `;` while parsing the return, and the
      statement then demands a second one: with it the statement is
      `Return(None)`, without it the parse fails on whatever follows, and
      at the end of the tokens it fails with IndexError. */
  lemma {:induction false} ReturnNeedsTwoSemicolons(t: seq<Token>, c: nat)
    requires c + 1 < |t| && t[c] == Keyword("return") && t[c + 1] == Operator(";")
    ensures ParseStatement(State(t, c)) ==
      if c + 2 == |t| then Step(Err(IndexError), State(t, c + 2))
      else if t[c + 2] == Operator(";") then Step(Ok(Return(None)), State(t, c + 3))
      else Step(Err(UnexpectedToken(t[c + 2], Expect(OPERATOR, Some(";")))), State(t, c + 2))
  {
    ReturnEmpty(t, c);
    KeywordDispatch(State(t, c), Step(Ok(Return(None)), State(t, c + 2)));
  }

  /** An `if` whose parenthesised condition is followed by `;` is a bare
      `if`, ending before the `;`. */
  lemma {:induction false} IfBareRound(st: State, st1: State, cond: Node, st2: State)
    requires st.Valid() && st.cursor < |st.tokens| && st.tokens[st.cursor] == Keyword("if")
    requires st1 == State(st.tokens, st.cursor + 1) && ParseParenExpression(st1) == Step(Ok(cond), st2)
    requires st2.Valid() && st2.cursor < |st2.tokens| && st2.tokens[st2.cursor] == Operator(";")
    ensures ParseIf(st) == Step(Ok(IfBare(cond)), st2)
  {
    ConsumeAny(st, KEYWORD, st1);
  }

  /** `if (a);` is a bare `if` whose `;` is left in place: the statement
      ends just before it. */
  lemma {:induction false} BareIfLeavesSemicolon(t: seq<Token>, c: nat)
    requires c + 4 < |t| && t[c] == Keyword("if") && t[c + 1] == Operator("(")
    requires IsOperand(t[c + 2]) && t[c + 3] == Operator(")") && t[c + 4] == Operator(";")
    ensures ParseStatement(State(t, c)) == Step(Ok(IfBare(Term(t[c + 2]))), State(t, c + 4))
  {
    ParenOperand(State(t, c + 1), State(t, c + 2), State(t, c + 3), State(t, c + 4));
    IfBareRound(State(t, c), State(t, c + 1), Term(t[c + 2]), State(t, c + 4));
    KeywordSkips(State(t, c), Step(Ok(IfBare(Term(t[c + 2]))), State(t, c + 4)));
  }

  /** An optional clause is absent when its stop token comes first. */
  lemma {:induction false} ClauseAbsent(stop: string, st: State)
    requires st.Valid() && st.cursor < |st.tokens| && st.tokens[st.cursor] == Operator(stop)
    ensures OptionalExpr(stop, st) == Step(Ok(None), st)
  {
  }

  /** `for (;;)` followed by `;`: every clause is absent and there is no
      body. */
  lemma {:induction false} ForBareRound(t: seq<Token>, c: nat)
    requires c + 5 < |t| && t[c] == Keyword("for") && t[c + 1] == Operator("(")
    requires t[c + 2] == Operator(";") && t[c + 3] == Operator(";")
    requires t[c + 4] == Operator(")") && t[c + 5] == Operator(";")
    ensures ParseFor(State(t, c)) == Step(Ok(For(None, None, None, None)), State(t, c + 5))
  {
    ConsumeKeyword(State(t, c), "for", State(t, c + 1));
    ConsumeOperator(State(t, c + 1), "(", State(t, c + 2));
    ClauseAbsent(";", State(t, c + 2));
    ConsumeOperator(State(t, c + 2), ";", State(t, c + 3));
    ClauseAbsent(";", State(t, c + 3));
    ConsumeOperator(State(t, c + 3), ";", State(t, c + 4));
    ClauseAbsent(")", State(t, c + 4));
    ConsumeOperator(State(t, c + 4), ")", State(t, c + 5));
  }

  /** `for (;;);` is a bare `for` with every clause omitted, and its `;` is
      left in place too. */
  lemma {:induction false} BareForLeavesSemicolon(t: seq<Token>, c: nat)
    requires c + 5 < |t| && t[c] == Keyword("for") && t[c + 1] == Operator("(")
    requires t[c + 2] == Operator(";") && t[c + 3] == Operator(";")
    requires t[c + 4] == Operator(")") && t[c + 5] == Operator(";")
    ensures ParseStatement(State(t, c)) == Step(Ok(For(None, None, None, None)), State(t, c + 5))
  {
    ForBareRound(t, c);
    KeywordSkips(State(t, c), Step(Ok(For(None, None, None, None)), State(t, c + 5)));
  }

  /** A `while` whose parenthesised condition is followed by `;` takes the
      `;` and has no body. */
  lemma {:induction false} WhileBareRound(st: State, st1: State, st2: State, cond: Node, st3: State,
                                          st4: State, st5: State)
    requires st.Valid() && st.cursor < |st.tokens| && st.tokens[st.cursor] == Keyword("while")
    requires st1 == State(st.tokens, st.cursor + 1) && st1.cursor < |st1.tokens| && st1.tokens[st1.cursor] == Operator("(")
    requires st2 == State(st1.tokens, st1.cursor + 1) && ParseExpression(st2) == Step(Ok(cond), st3)
    requires st3.Valid() && st3.cursor < |st3.tokens| && st3.tokens[st3.cursor] == Operator(")")
    requires st4 == State(st3.tokens, st3.cursor + 1) && st4.cursor < |st4.tokens| && st4.tokens[st4.cursor] == Operator(";")
    requires st5 == State(st4.tokens, st4.cursor + 1)
    ensures ParseWhile(st) == Step(Ok(While(cond, None)), st5)
  {
    ConsumeKeyword(st, "while", st1);
    ConsumeOperator(st1, "(", st2);
    ConsumeOperator(st3, ")", st4);
    ConsumeOperator(st4, ";", st5);
  }

  /** `while (a);` consumes its `;` itself: the bare `while` ends after
      it, unlike the bare `if` and `for`. */
  lemma {:induction false} BareWhileTakesSemicolon(t: seq<Token>, c: nat)
    requires c + 4 < |t| && t[c] == Keyword("while") && t[c + 1] == Operator("(")
    requires IsOperand(t[c + 2]) && t[c + 3] == Operator(")") && t[c + 4] == Operator(";")
    ensures ParseStatement(State(t, c)) == Step(Ok(While(Term(t[c + 2]), None)), State(t, c + 5))
  {
    Operand(State(t, c + 2), State(t, c + 3));
    WhileBareRound(State(t, c), State(t, c + 1), State(t, c + 2), Term(t[c + 2]), State(t, c + 3),
                   State(t, c + 4), State(t, c + 5));
    KeywordSkips(State(t, c), Step(Ok(While(Term(t[c + 2]), None)), State(t, c + 5)));
  }

  /** An optional clause is present when its stop token does not come
      first: it is the expression parsed there. */
  lemma {:induction false} ClausePresent(stop: string, st: State, e: Node, st1: State)
    requires st.Valid() && st.cursor < |st.tokens| && st.tokens[st.cursor] != Operator(stop)
    requires ParseExpression(st) == Step(Ok(e), st1)
    ensures OptionalExpr(stop, st) == Step(Ok(Some(e)), st1)
  {
  }

  /** `for (` clause `;` clause `;` clause `)` followed by a block: the three
      clauses as `OptionalExpr` reads them (from `st2`, `st4` and `st6`),
      and the block (from `st8`) as the body. */
  lemma {:induction false} ForRound(st: State, st1: State, st2: State, o1: Option<Node>, st3: State,
                                    st4: State, o2: Option<Node>, st5: State, st6: State, o3: Option<Node>,
                                    st7: State, st8: State, body: Node, st9: State)
    requires st.Valid() && st.cursor < |st.tokens| && st.tokens[st.cursor] == Keyword("for")
    requires st1 == State(st.tokens, st.cursor + 1) && st1.cursor < |st1.tokens| && st1.tokens[st1.cursor] == Operator("(")
    requires st2 == State(st1.tokens, st1.cursor + 1) && OptionalExpr(";", st2) == Step(Ok(o1), st3)
    requires st3.Valid() && st3.cursor < |st3.tokens| && st3.tokens[st3.cursor] == Operator(";")
    requires st4 == State(st3.tokens, st3.cursor + 1) && OptionalExpr(";", st4) == Step(Ok(o2), st5)
    requires st5.Valid() && st5.cursor < |st5.tokens| && st5.tokens[st5.cursor] == Operator(";")
    requires st6 == State(st5.tokens, st5.cursor + 1) && OptionalExpr(")", st6) == Step(Ok(o3), st7)
    requires st7.Valid() && st7.cursor < |st7.tokens| && st7.tokens[st7.cursor] == Operator(")")
    requires st8 == State(st7.tokens, st7.cursor + 1) && st8.cursor < |st8.tokens| && st8.tokens[st8.cursor] != Operator(";")
    requires ParseBlock(st8) == Step(Ok(body), st9)
    ensures ParseFor(st) == Step(Ok(For(o1, o2, o3, Some(body))), st9)
  {
    ConsumeKeyword(st, "for", st1);
    ConsumeOperator(st1, "(", st2);
    ConsumeOperator(st3, ";", st4);
    ConsumeOperator(st5, ";", st6);
    ConsumeOperator(st7, ")", st8);
  }

  /** An operand followed by the stop token is a present clause (`st`),
      ending at the stop token (`st1`). */
  lemma {:induction false} ClauseOperand(stop: string, st: State, st1: State)
    requires stop == ";" || stop == ")"
    requires st.Valid() && st.cursor < |st.tokens| && IsOperand(st.tokens[st.cursor])
    requires st1 == State(st.tokens, st.cursor + 1) && st1.cursor < |st1.tokens| && st1.tokens[st1.cursor] == Operator(stop)
    ensures OptionalExpr(stop, st) == Step(Ok(Some(Term(st.tokens[st.cursor]))), st1)
  {
    Operand(st, st1);
    ClausePresent(stop, st, Term(st.tokens[st.cursor]), st1);
  }

  /** `for (a; b; c) d;`: every clause present, and the block of the one
      statement `d` as the body. */
  lemma {:induction false} ForWithBody(t: seq<Token>, c: nat)
    requires c + 9 < |t| && t[c] == Keyword("for") && t[c + 1] == Operator("(")
    requires IsOperand(t[c + 2]) && t[c + 3] == Operator(";") && IsOperand(t[c + 4]) && t[c + 5] == Operator(";")
    requires IsOperand(t[c + 6]) && t[c + 7] == Operator(")") && IsOperand(t[c + 8]) && t[c + 9] == Operator(";")
    ensures ParseFor(State(t, c)) ==
      Step(Ok(For(Some(Term(t[c + 2])), Some(Term(t[c + 4])), Some(Term(t[c + 6])), Some(Block([Term(t[c + 8])])))),
           State(t, c + 10))
  {
    ClauseOperand(";", State(t, c + 2), State(t, c + 3));
    ClauseOperand(";", State(t, c + 4), State(t, c + 5));
    ClauseOperand(")", State(t, c + 6), State(t, c + 7));
    SingleStatementBlock(State(t, c + 8), State(t, c + 9), State(t, c + 10));
    ForRound(State(t, c), State(t, c + 1), State(t, c + 2), Some(Term(t[c + 2])), State(t, c + 3),
             State(t, c + 4), Some(Term(t[c + 4])), State(t, c + 5), State(t, c + 6), Some(Term(t[c + 6])),
             State(t, c + 7), State(t, c + 8), Block([Term(t[c + 8])]), State(t, c + 10));
  }

  /** A `while` whose parenthesised condition is followed by anything but
      `;` has the block there as its body. */
  lemma {:induction false} WhileRound(st: State, st1: State, st2: State, cond: Node, st3: State,
                                      st4: State, body: Node, st5: State)
    requires st.Valid() && st.cursor < |st.tokens| && st.tokens[st.cursor] == Keyword("while")
    requires st1 == State(st.tokens, st.cursor + 1) && st1.cursor < |st1.tokens| && st1.tokens[st1.cursor] == Operator("(")
    requires st2 == State(st1.tokens, st1.cursor + 1) && ParseExpression(st2) == Step(Ok(cond), st3)
    requires st3.Valid() && st3.cursor < |st3.tokens| && st3.tokens[st3.cursor] == Operator(")")
    requires st4 == State(st3.tokens, st3.cursor + 1) && st4.cursor < |st4.tokens| && st4.tokens[st4.cursor] != Operator(";")
    requires ParseBlock(st4) == Step(Ok(body), st5)
    ensures ParseWhile(st) == Step(Ok(While(cond, Some(body))), st5)
  {
    ConsumeKeyword(st, "while", st1);
    ConsumeOperator(st1, "(", st2);
    ConsumeOperator(st3, ")", st4);
    IgnoreAbsent(st4, ";");
  }

  /** `while (a) b;` is a `while` whose body is the block of `b`, and the
      statement takes no `;` after it. */
  lemma {:induction false} WhileWithBody(t: seq<Token>, c: nat)
    requires c + 5 < |t| && t[c] == Keyword("while") && t[c + 1] == Operator("(")
    requires IsOperand(t[c + 2]) && t[c + 3] == Operator(")") && IsOperand(t[c + 4]) && t[c + 5] == Operator(";")
    ensures ParseStatement(State(t, c)) == Step(Ok(While(Term(t[c + 2]), Some(Block([Term(t[c + 4])])))), State(t, c + 6))
  {
    var n := While(Term(t[c + 2]), Some(Block([Term(t[c + 4])])));
    Operand(State(t, c + 2), State(t, c + 3));
    SingleStatementBlock(State(t, c + 4), State(t, c + 5), State(t, c + 6));
    WhileRound(State(t, c), State(t, c + 1), State(t, c + 2), Term(t[c + 2]), State(t, c + 3),
               State(t, c + 4), Block([Term(t[c + 4])]), State(t, c + 6));
    KeywordSkips(State(t, c), Step(Ok(n), State(t, c + 6)));
  }

  /** `return` followed by anything but `;` returns the expression there. */
  lemma {:induction false} ReturnRound(st: State, st1: State, e: Node, st2: State)
    requires st.Valid() && st.cursor < |st.tokens| && st.tokens[st.cursor] == Keyword("return")
    requires st1 == State(st.tokens, st.cursor + 1) && st1.cursor < |st1.tokens| && st1.tokens[st1.cursor] != Operator(";")
    requires ParseExpression(st1) == Step(Ok(e), st2)
    ensures ParseReturn(st) == Step(Ok(Return(Some(e))), st2)
  {
    ConsumeKeyword(st, "return", st1);
    IgnoreAbsent(st1, ";");
  }

  /** `return a ;` returns `a` and takes its one `;` as a statement. */
  lemma {:induction false} ReturnValue(t: seq<Token>, c: nat)
    requires c + 2 < |t| && t[c] == Keyword("return") && IsOperand(t[c + 1]) && t[c + 2] == Operator(";")
    ensures ParseStatement(State(t, c)) == Step(Ok(Return(Some(Term(t[c + 1])))), State(t, c + 3))
  {
    var n := Return(Some(Term(t[c + 1])));
    Operand(State(t, c + 1), State(t, c + 2));
    ReturnRound(State(t, c), State(t, c + 1), Term(t[c + 1]), State(t, c + 2));
    KeywordDispatch(State(t, c), Step(Ok(n), State(t, c + 2)));
    StatementTakesSemicolon(State(t, c), n, State(t, c + 2), State(t, c + 3));
  }

  // ---------------------------------------------------------------------
  // `else` and `else if`

  /** `ignore` of a keyword that is there takes it. */
  lemma {:induction false} IgnoreKeyword(st: State, k: string, st1: State)
    requires st.Valid() && st.cursor < |st.tokens| && st.tokens[st.cursor] == Keyword(k)
    requires st1 == State(st.tokens, st.cursor + 1)
    ensures Ignore(st, KEYWORD, Some(k)) == Step(Ok(Some(TextV(k))), st1)
  {
    ConsumeKeyword(st, k, st1);
  }

  /** An `if` with a body and a plain `else`: the else block is the tail. */
  lemma {:induction false} IfElseRound(st: State, st1: State, cond: Node, st2: State, body: Node, st3: State,
                                       st4: State, els: Node, st5: State)
    requires st.Valid() && st.cursor < |st.tokens| && st.tokens[st.cursor] == Keyword("if")
    requires st1 == State(st.tokens, st.cursor + 1) && ParseParenExpression(st1) == Step(Ok(cond), st2)
    requires st2.Valid() && st2.cursor < |st2.tokens| && st2.tokens[st2.cursor] != Operator(";")
    requires ParseBlock(st2) == Step(Ok(body), st3)
    requires st3.Valid() && st3.cursor < |st3.tokens| && st3.tokens[st3.cursor] == Keyword("else")
    requires st4 == State(st3.tokens, st3.cursor + 1) && ParseBlock(st4) == Step(Ok(els), st5)
    ensures ParseIf(st) == Step(Ok(If(cond, body, Some(Else(els)))), st5)
  {
    ConsumeAny(st, KEYWORD, st1);
    assert IsA(st2, OPERATOR, Some(";")) == Ok(false);
    assert IsA(st3, KEYWORD, Some("else if")) == Ok(false);
    IgnoreKeyword(st3, "else", st4);
  }

  /** `if (a) b; else d;` is an `if` whose tail is the `else` block. */
  lemma {:induction false} IfElse(t: seq<Token>, c: nat)
    requires c + 8 < |t| && t[c] == Keyword("if") && t[c + 1] == Operator("(")
    requires IsOperand(t[c + 2]) && t[c + 3] == Operator(")")
    requires IsOperand(t[c + 4]) && t[c + 5] == Operator(";") && t[c + 6] == Keyword("else")
    requires IsOperand(t[c + 7]) && t[c + 8] == Operator(";")
    ensures ParseStatement(State(t, c)) ==
      Step(Ok(If(Term(t[c + 2]), Block([Term(t[c + 4])]), Some(Else(Block([Term(t[c + 7])]))))), State(t, c + 9))
  {
    var body, els := Block([Term(t[c + 4])]), Block([Term(t[c + 7])]);
    ParenOperand(State(t, c + 1), State(t, c + 2), State(t, c + 3), State(t, c + 4));
    SingleStatementBlock(State(t, c + 4), State(t, c + 5), State(t, c + 6));
    SingleStatementBlock(State(t, c + 7), State(t, c + 8), State(t, c + 9));
    IfElseRound(State(t, c), State(t, c + 1), Term(t[c + 2]), State(t, c + 4), body, State(t, c + 6),
                State(t, c + 7), els, State(t, c + 9));
    KeywordSkips(State(t, c), Step(Ok(If(Term(t[c + 2]), body, Some(Else(els)))), State(t, c + 9)));
  }

  /** An `if` with a body followed by neither `else` nor `else if`: the
      `if` has no tail and the cursor stays after the body. */
  lemma {:induction false} IfRound(st: State, st1: State, cond: Node, st2: State, body: Node, st3: State)
    requires st.Valid() && st.cursor < |st.tokens| && st.tokens[st.cursor] == Keyword("if")
    requires st1 == State(st.tokens, st.cursor + 1) && ParseParenExpression(st1) == Step(Ok(cond), st2)
    requires st2.Valid() && st2.cursor < |st2.tokens| && st2.tokens[st2.cursor] != Operator(";")
    requires ParseBlock(st2) == Step(Ok(body), st3)
    requires st3.Valid() && st3.cursor < |st3.tokens|
    requires st3.tokens[st3.cursor] != Keyword("else") && st3.tokens[st3.cursor] != Keyword("else if")
    ensures ParseIf(st) == Step(Ok(If(cond, body, None)), st3)
  {
    ConsumeAny(st, KEYWORD, st1);
    assert IsA(st2, OPERATOR, Some(";")) == Ok(false);
    assert IsA(st3, KEYWORD, Some("else if")) == Ok(false);
    assert IsA(st3, KEYWORD, Some("else")) == Ok(false);
  }

  /** An `if` whose body ends the input: looking for `else if` reads past
      the end and raises IndexError. */
  lemma {:induction false} IfAtEnd(st: State, st1: State, cond: Node, st2: State, body: Node, st3: State)
    requires st.Valid() && st.cursor < |st.tokens| && st.tokens[st.cursor] == Keyword("if")
    requires st1 == State(st.tokens, st.cursor + 1) && ParseParenExpression(st1) == Step(Ok(cond), st2)
    requires st2.Valid() && st2.cursor < |st2.tokens| && st2.tokens[st2.cursor] != Operator(";")
    requires ParseBlock(st2) == Step(Ok(body), st3)
    requires st3.Valid() && st3.cursor == |st3.tokens|
    ensures ParseIf(st) == Step(Err(IndexError), st3)
  {
    ConsumeAny(st, KEYWORD, st1);
    assert IsA(st2, OPERATOR, Some(";")) == Ok(false);
    assert IsA(st3, KEYWORD, Some("else if")) == Err(IndexError);
  }

  /** `if (a) b; c`: the statement is the `if` without a tail, and the
      cursor stops at `c`, which starts the next statement. */
  lemma {:induction false} IfThenNext(t: seq<Token>, c: nat)
    requires c + 6 < |t| && t[c] == Keyword("if") && t[c + 1] == Operator("(")
    requires IsOperand(t[c + 2]) && t[c + 3] == Operator(")")
    requires IsOperand(t[c + 4]) && t[c + 5] == Operator(";") && IsOperand(t[c + 6])
    ensures ParseStatement(State(t, c)) == Step(Ok(If(Term(t[c + 2]), Block([Term(t[c + 4])]), None)), State(t, c + 6))
  {
    var body := Block([Term(t[c + 4])]);
    ParenOperand(State(t, c + 1), State(t, c + 2), State(t, c + 3), State(t, c + 4));
    SingleStatementBlock(State(t, c + 4), State(t, c + 5), State(t, c + 6));
    IfRound(State(t, c), State(t, c + 1), Term(t[c + 2]), State(t, c + 4), body, State(t, c + 6));
    KeywordSkips(State(t, c), Step(Ok(If(Term(t[c + 2]), body, None)), State(t, c + 6)));
  }

  /** `if (a) b;` at the end of the input raises IndexError: the statement
      fails where the `else if` lookup read past the end. */
  lemma {:induction false} IfLastRaises(t: seq<Token>, c: nat)
    requires c + 6 == |t| && t[c] == Keyword("if") && t[c + 1] == Operator("(")
    requires IsOperand(t[c + 2]) && t[c + 3] == Operator(")")
    requires IsOperand(t[c + 4]) && t[c + 5] == Operator(";")
    ensures ParseStatement(State(t, c)) == Step(Err(IndexError), State(t, c + 6))
  {
    var body := Block([Term(t[c + 4])]);
    ParenOperand(State(t, c + 1), State(t, c + 2), State(t, c + 3), State(t, c + 4));
    SingleStatementBlock(State(t, c + 4), State(t, c + 5), State(t, c + 6));
    IfAtEnd(State(t, c), State(t, c + 1), Term(t[c + 2]), State(t, c + 4), body, State(t, c + 6));
    KeywordDispatch(State(t, c), Step(Err(IndexError), State(t, c + 6)));
    StatementFails(State(t, c), IndexError, State(t, c + 6));
  }

  /** `parse_if` entered at `else if` consumes the keyword and then fails
      to find a node kind for it. */
  lemma {:induction false} ElseIfRaises(st: State, st1: State)
    requires st.Valid() && st.cursor < |st.tokens| && st.tokens[st.cursor] == Keyword("else if")
    requires st1 == State(st.tokens, st.cursor + 1)
    ensures ParseIf(st) == Step(Err(KeyError), st1)
  {
  }

  /** An `if` whose body is followed by `else if` raises the KeyError of
      the nested `parse_if`, after its keyword. */
  lemma {:induction false} IfElseIfRound(st: State, st1: State, cond: Node, st2: State, body: Node,
                                         st3: State, st4: State)
    requires st.Valid() && st.cursor < |st.tokens| && st.tokens[st.cursor] == Keyword("if")
    requires st1 == State(st.tokens, st.cursor + 1) && ParseParenExpression(st1) == Step(Ok(cond), st2)
    requires st2.Valid() && st2.cursor < |st2.tokens| && st2.tokens[st2.cursor] != Operator(";")
    requires ParseBlock(st2) == Step(Ok(body), st3)
    requires st3.Valid() && st3.cursor < |st3.tokens| && st3.tokens[st3.cursor] == Keyword("else if")
    requires st4 == State(st3.tokens, st3.cursor + 1)
    ensures ParseIf(st) == Step(Err(KeyError), st4)
  {
    ConsumeAny(st, KEYWORD, st1);
    ElseIfRaises(st3, st4);
  }

  /** The dispatcher turns a KeyError raised inside `parse_if` into its own
      error, read at the state the KeyError left. */
  lemma {:induction false} KeyErrorCaught(st: State, st1: State)
    requires st.Valid() && st.cursor < |st.tokens| && st.tokens[st.cursor] == Keyword("if")
    requires ParseIf(st) == Step(Err(KeyError), st1)
    ensures ParseStatement(st) == Step(Err(KeywordFailure(st1)), st1)
  {
    assert KeywordStatement(st) == Step(Err(KeywordFailure(st1)), st1);
    KeywordChosen(st, Step(Err(KeywordFailure(st1)), st1));
    StatementFails(st, KeywordFailure(st1), st1);
  }

  /** `if (a) b; else if ...` never parses: the statement fails with the
      dispatcher's error on the token after `else if` (IndexError at the end
      of the tokens, TypeError on a number, UnexpectedToken otherwise). */
  lemma {:induction false} ElseIfFails(t: seq<Token>, c: nat)
    requires c + 6 < |t| && t[c] == Keyword("if") && t[c + 1] == Operator("(")
    requires IsOperand(t[c + 2]) && t[c + 3] == Operator(")")
    requires IsOperand(t[c + 4]) && t[c + 5] == Operator(";") && t[c + 6] == Keyword("else if")
    ensures ParseStatement(State(t, c)) == Step(Err(KeywordFailure(State(t, c + 7))), State(t, c + 7))
  {
    ParenOperand(State(t, c + 1), State(t, c + 2), State(t, c + 3), State(t, c + 4));
    SingleStatementBlock(State(t, c + 4), State(t, c + 5), State(t, c + 6));
    IfElseIfRound(State(t, c), State(t, c + 1), Term(t[c + 2]), State(t, c + 4), Block([Term(t[c + 4])]),
                  State(t, c + 6), State(t, c + 7));
    KeyErrorCaught(State(t, c), State(t, c + 7));
  }

  /** The dispatcher on an unlisted keyword fails on that keyword. */
  lemma {:induction false} KeywordUnlisted(st: State)
    requires st.Valid() && st.cursor < |st.tokens| && st.tokens[st.cursor].Keyword?
    requires var k := st.tokens[st.cursor].k; k != "if" && k != "for" && k != "while" && k != "return"
    ensures KeywordStatement(st) == Step(Err(KeywordFailure(st)), st)
  {
    assert IsA(st, KEYWORD, None) == Ok(true);
    assert Text(st.tokens[st.cursor]) == st.tokens[st.cursor].k;
  }

  /** A keyword other than `if`, `for`, `while` and `return` cannot start a
      statement: `const`, `else`, and `else if` itself fail with
      UnexpectedToken on that keyword, and nothing is consumed. */
  lemma {:induction false} UnlistedKeyword(t: seq<Token>, c: nat)
    requires c < |t| && t[c].Keyword?
    requires t[c].k != "if" && t[c].k != "for" && t[c].k != "while" && t[c].k != "return"
    ensures ParseStatement(State(t, c)) == Step(Err(UnexpectedToken(t[c], StatementKeyword)), State(t, c))
  {
    var st := State(t, c);
    KeywordUnlisted(st);
    KeywordChosen(st, Step(Err(KeywordFailure(st)), st));
    StatementFails(st, KeywordFailure(st), st);
  }
}
