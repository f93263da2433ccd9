/** Properties of function calls: a name directly followed by `(` is a
    call, whose arguments run up to `)`, with or without commas between
    them. */
module CallProperties {
  import opened Lexer
  import opened Cursor
  import opened Grammar
  import opened ParserProperties
  import opened StatementProperties

  /** The argument loop ends at `)`, which it leaves in place. */
  lemma {:induction false} ArgsClose(args: seq<Node>, st: State)
    requires st.Valid() && st.cursor < |st.tokens| && st.tokens[st.cursor] == Operator(")")
    ensures FuncallArgs(args, st) == Step(Ok(args), st)
  {
  }

  /** One argument, then whatever `ignore(",")` makes of the token after
      it, then the rest of the loop. */
  lemma {:induction false} ArgStep(args: seq<Node>, st: State, e: Node, st1: State, comma: Option<Value>,
                                   st2: State, args2: seq<Node>, res: Step<seq<Node>>)
    requires st.Valid() && st.cursor < |st.tokens| && st.tokens[st.cursor] != Operator(")")
    requires ParseExpression(st) == Step(Ok(e), st1)
    requires st1.Valid() && Ignore(st1, OPERATOR, Some(",")) == Step(Ok(comma), st2)
    requires args2 == args + [e] && st2.Valid() && FuncallArgs(args2, st2) == res
    ensures FuncallArgs(args, st) == res
  {
  }

  /** `ignore(",")` on a comma takes it. */
  lemma {:induction false} TakesComma(st: State, st1: State)
    requires st.Valid() && st.cursor < |st.tokens| && st.tokens[st.cursor] == Operator(",")
    requires st1 == State(st.tokens, st.cursor + 1)
    ensures Ignore(st, OPERATOR, Some(",")) == Step(Ok(Some(TextV(","))), st1)
  {
    ConsumeOperator(st, ",", st1);
  }

  /** `f (` arguments `)`: the call of `f` on the arguments, with the
      cursor after the `)`. */
  lemma {:induction false} FuncallRound(st: State, st1: State, st2: State, args: seq<Node>, st3: State, st4: State)
    requires st.Valid() && st.cursor < |st.tokens| && st.tokens[st.cursor].Identifier?
    requires st1 == State(st.tokens, st.cursor + 1) && st1.cursor < |st1.tokens| && st1.tokens[st1.cursor] == Operator("(")
    requires st2 == State(st1.tokens, st1.cursor + 1) && FuncallArgs([], st2) == Step(Ok(args), st3)
    requires st3.Valid() && st3.cursor < |st3.tokens| && st3.tokens[st3.cursor] == Operator(")")
    requires st4 == State(st3.tokens, st3.cursor + 1)
    ensures ParseFuncall(st) == Step(Ok(Call(st.tokens[st.cursor].name, args)), st4)
  {
    assert Require(st, IDENTIFIER, None, 0) == Step(Ok(()), st);
    assert Require(st, OPERATOR, Some("("), 1) == Step(Ok(()), st1);
    assert Move(st1, -1) == st;
    ConsumeOperator(st1, "(", st2);
    ConsumeOperator(st3, ")", st4);
  }

  /** A call followed by an ending token is the whole expression: `paren`
      passes over the name and `funcall` is the first alternative that
      applies. */
  lemma {:induction false} CallExpression(st: State, call: Node, st1: State)
    requires st.Valid() && st.cursor < |st.tokens| && st.tokens[st.cursor].Identifier?
    requires ParseFuncall(st) == Step(Ok(call), st1)
    requires st1.Valid() && st1.cursor < |st1.tokens| && Ends(st1.tokens[st1.cursor])
    ensures ParseExpression(st) == Step(Ok(call), st1)
  {
    ParenNeedsParenthesis(st);
    assert PrimaryAlt(0, st) == ParseParen(st);
    assert PrimaryAlt(1, st) == ParseFuncall(st);
    PrimaryFirstApplicable(st, 1);
    BinaryStops(call, 0, st1);
    ExpressionStep(st, call, st1, Step(Ok(call), st1));
  }

  /** `f ( a , b )`: the comma is taken and the call has both operands as
      arguments. */
  lemma {:induction false} FuncallWithComma(t: seq<Token>, c: nat)
    requires c + 6 < |t| && t[c].Identifier? && t[c + 1] == Operator("(")
    requires IsOperand(t[c + 2]) && t[c + 3] == Operator(",") && IsOperand(t[c + 4])
    requires t[c + 5] == Operator(")") && Ends(t[c + 6])
    ensures ParseExpression(State(t, c)) == Step(Ok(Call(t[c].name, [Term(t[c + 2]), Term(t[c + 4])])), State(t, c + 6))
  {
    var a, b := Term(t[c + 2]), Term(t[c + 4]);
    var args := Step(Ok([a, b]), State(t, c + 5));
    ArgsClose([a, b], State(t, c + 5));
    Operand(State(t, c + 4), State(t, c + 5));
    IgnoreAbsent(State(t, c + 5), ",");
    ArgStep([a], State(t, c + 4), b, State(t, c + 5), None, State(t, c + 5), [a, b], args);
    Operand(State(t, c + 2), State(t, c + 3));
    TakesComma(State(t, c + 3), State(t, c + 4));
    ArgStep([], State(t, c + 2), a, State(t, c + 3), Some(TextV(",")), State(t, c + 4), [a], args);
    FuncallRound(State(t, c), State(t, c + 1), State(t, c + 2), [a, b], State(t, c + 5), State(t, c + 6));
    CallExpression(State(t, c), Call(t[c].name, [a, b]), State(t, c + 6));
  }

  /** `f ( a b )`: without the comma the call is the same. */
  lemma {:induction false} FuncallWithoutComma(t: seq<Token>, c: nat)
    requires c + 5 < |t| && t[c].Identifier? && t[c + 1] == Operator("(")
    requires IsOperand(t[c + 2]) && IsOperand(t[c + 3])
    requires t[c + 4] == Operator(")") && Ends(t[c + 5])
    ensures ParseExpression(State(t, c)) == Step(Ok(Call(t[c].name, [Term(t[c + 2]), Term(t[c + 3])])), State(t, c + 5))
  {
    var a, b := Term(t[c + 2]), Term(t[c + 3]);
    var args := Step(Ok([a, b]), State(t, c + 4));
    ArgsClose([a, b], State(t, c + 4));
    Operand(State(t, c + 3), State(t, c + 4));
    IgnoreAbsent(State(t, c + 4), ",");
    ArgStep([a], State(t, c + 3), b, State(t, c + 4), None, State(t, c + 4), [a, b], args);
    Operand(State(t, c + 2), State(t, c + 3));
    IgnoreAbsent(State(t, c + 3), ",");
    ArgStep([], State(t, c + 2), a, State(t, c + 3), None, State(t, c + 3), [a], args);
    FuncallRound(State(t, c), State(t, c + 1), State(t, c + 2), [a, b], State(t, c + 4), State(t, c + 5));
    CallExpression(State(t, c), Call(t[c].name, [a, b]), State(t, c + 5));
  }
}
