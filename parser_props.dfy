/** Properties of the parser: ordered choice, operator grouping, the
    postfix and declaration rewrites, and the statement forms whose
    semicolons and keywords behave unusually. */
module ParserProperties {
  import opened Lexer
  import opened Cursor
  import opened Grammar

  // ---------------------------------------------------------------------
  // Ordered choice

  /** Alternatives that raise Continue are passed over without effect. */
  lemma {:induction false} PrimarySkip(i: nat, j: nat, st: State)
    requires st.Valid() && st.cursor < |st.tokens| && i <= j <= PrimaryCount
    requires forall k :: i <= k < j ==> PrimaryAlt(k, st).r == Err(Continue)
    ensures PrimaryFrom(i, st) == PrimaryFrom(j, st)
    decreases j - i
  {
    if i < j {
      PrimarySkip(i + 1, j, st);
    }
  }

  /** `primary` gives exactly what its first alternative that does not
      raise Continue gives, state included: later alternatives never run,
      and the cursor is not restored. */
  lemma PrimaryFirstApplicable(st: State, j: nat)
    requires st.Valid() && st.cursor < |st.tokens| && j < PrimaryCount
    requires forall k :: 0 <= k < j ==> PrimaryAlt(k, st).r == Err(Continue)
    requires PrimaryAlt(j, st).r != Err(Continue)
    ensures ParsePrimary(st) == PrimaryAlt(j, st)
  {
    PrimarySkip(0, j, st);
  }

  /** When every alternative of `primary` raises Continue, it raises
      UnexpectedToken on the current token. */
  lemma PrimaryNoneApplicable(st: State)
    requires st.Valid() && st.cursor < |st.tokens|
    requires forall k :: 0 <= k < PrimaryCount ==> PrimaryAlt(k, st).r == Err(Continue)
    ensures ParsePrimary(st) == Step(Err(UnexpectedToken(st.tokens[st.cursor], AnyAlternative)), st)
  {
    PrimarySkip(0, PrimaryCount, st);
  }

  /** The same ordered choice in `parse_statement`. */
  lemma StatementFirstApplicable(st: State, j: nat)
    requires st.Valid() && st.cursor < |st.tokens| && j < StatementCount
    requires forall k :: 0 <= k < j ==> StatementAlt(k, st).r == Err(Continue)
    requires StatementAlt(j, st).r != Err(Continue)
    ensures StatementFrom(0, st) == StatementAlt(j, st)
  {
    if j > 0 {
      assert StatementFrom(0, st) == StatementFrom(1, st);
      if j > 1 {
        assert StatementFrom(1, st) == StatementFrom(2, st);
      }
    }
  }

  // ---------------------------------------------------------------------
  // Operands and operators

  /** An operand token: what `term` accepts. */
  predicate IsOperand(tok: Token) {
    tok.Identifier? || tok.Number? || tok.Character? || tok.String?
  }

  /** A token that ends an expression after an operand: one that is not
      an operator, or one of the separators `;` `)` `,`. */
  predicate Ends(tok: Token) {
    !tok.Operator? || tok.op == ";" || tok.op == ")" || tok.op == ","
  }

  /** The separators have no level. */
  lemma EndsHasNoLevel(tok: Token)
    requires Ends(tok) && tok.Operator?
    ensures Precedence(tok.op) == None
  {
    PrecedenceOfSeparators();
    PrecedenceOfParentheses();
  }

  /** A binary operator never starts a call, a postfix or a group. */
  lemma BinaryOperatorIsNotPostfix(op: string)
    requires Precedence(op).Some?
    ensures op != "--" && op != "++" && op != "("
  {
    PrecedenceOfParentheses();
    PrecedenceOfSteps();
  }

  /** The conditions under which an operand is a primary on its own. */
  predicate LoneOperand(st: State)
    requires st.Valid()
  {
    st.cursor + 1 < |st.tokens| && IsOperand(st.tokens[st.cursor]) &&
    st.tokens[st.cursor + 1] != Operator("--") && st.tokens[st.cursor + 1] != Operator("++") &&
    (st.tokens[st.cursor].Identifier? ==> st.tokens[st.cursor + 1] != Operator("("))
  }

  /** The position of an operand's type among the operand alternatives. */
  function TermIndex(tok: Token): (k: nat)
    requires IsOperand(tok)
    ensures k < |TermTypes| && TermTypes[k] == tok.TypeOf()
    ensures forall j :: 0 <= j < k ==> TermTypes[j] != tok.TypeOf()
  {
    if tok.Identifier? then 0 else if tok.Number? then 1 else if tok.Character? then 2 else 3
  }

  /** Before an operand's own alternative, every alternative of `primary`
      raises Continue on it. */
  lemma {:induction false} OperandPassesOver(i: nat, st: State)
    requires st.Valid() && LoneOperand(st) && i < 11 + TermIndex(st.tokens[st.cursor])
    ensures PrimaryAlt(i, st).r == Err(Continue)
  {
    var tok := st.tokens[st.cursor];
    if i == 0 {
      assert PrimaryAlt(i, st) == ParseParen(st);
    } else if i == 1 {
      assert PrimaryAlt(i, st) == ParseFuncall(st);
    } else if i < 4 {
      assert PrimaryAlt(i, st) == ParseRUnary(PostfixOps[i - 2], st);
    } else if i < 11 {
      assert PrimaryAlt(i, st) == ParseLUnary(PrefixOps[i - 4], st);
    } else {
      assert PrimaryAlt(i, st) == ParseTerm(TermTypes[i - 11], st);
    }
  }

  /** An operand followed by a token that is neither `(` (after a name)
      nor a postfix operator is a primary on its own. */
  lemma {:induction false} PrimaryOperand(st: State)
    requires st.Valid() && st.cursor + 1 < |st.tokens| && IsOperand(st.tokens[st.cursor])
    requires st.tokens[st.cursor + 1] != Operator("--") && st.tokens[st.cursor + 1] != Operator("++")
    requires st.tokens[st.cursor].Identifier? ==> st.tokens[st.cursor + 1] != Operator("(")
    ensures ParsePrimary(st) == Step(Ok(Term(st.tokens[st.cursor])), State(st.tokens, st.cursor + 1))
  {
    var k := TermIndex(st.tokens[st.cursor]);
    forall i | 0 <= i < 11 + k
      ensures PrimaryAlt(i, st).r == Err(Continue)
    {
      OperandPassesOver(i, st);
    }
    assert PrimaryAlt(11 + k, st) == ParseTerm(TermTypes[k], st);
    PrimaryFirstApplicable(st, 11 + k);
  }

  /** An expression is `binary` from its first primary, at level 0. */
  lemma {:induction false} ExpressionStep(st: State, a: Node, st1: State, res: Step<Node>)
    requires st.Valid() && st1.Valid() && ParsePrimary(st) == Step(Ok(a), st1)
    requires ParseBinary(a, 0, st1) == res
    ensures ParseExpression(st) == res
  {
  }

  /** `binary` stops at a token that is not a binary operator. */
  lemma {:induction false} BinaryStops(e: Node, mp: nat, st: State)
    requires st.Valid() && st.cursor < |st.tokens| && Ends(st.tokens[st.cursor])
    ensures ParseBinary(e, mp, st) == Step(Ok(e), st)
  {
    BinaryOperatorToken(st.tokens[st.cursor]);
    if st.tokens[st.cursor].Operator? {
      EndsHasNoLevel(st.tokens[st.cursor]);
    }
  }

  /** The inner loop of `binary` stops at such a token too. */
  lemma {:induction false} RightStops(op: string, e: Node, st: State)
    requires st.Valid() && st.cursor < |st.tokens| && Ends(st.tokens[st.cursor]) && Precedence(op).Some?
    ensures RightOperand(op, e, st) == Step(Ok(e), st)
  {
    var tok := st.tokens[st.cursor];
    if tok.Operator? {
      EndsHasNoLevel(tok);
      assert !AtLeast(Precedence(Text(tok)), Precedence(op).value);
    } else {
      assert IsA(st, OPERATOR, None) == Ok(false);
    }
  }

  /** One round of `binary`: an operator of level at least `mp`, the
      primary after it, and what the inner loop makes of that primary,
      after which `binary` goes on from the combined node. */
  lemma {:induction false} BinaryRound(e1: Node, mp: nat, st: State, op: string, b: Node, st2: State,
                                       e2: Node, st3: State, res: Step<Node>)
    requires st.Valid() && st.cursor < |st.tokens| && st.tokens[st.cursor] == Operator(op)
    requires AtLeast(Precedence(op), mp)
    requires ParsePrimary(State(st.tokens, st.cursor + 1)) == Step(Ok(b), st2)
    requires st2.Valid() && RightOperand(op, b, st2) == Step(Ok(e2), st3)
    requires st3.Valid() && ParseBinary(Binary(op, e1, e2), mp, st3) == res
    ensures ParseBinary(e1, mp, st) == res
  {
    BinaryOperatorToken(st.tokens[st.cursor]);
  }

  /** The last round of `binary`: an operator of level at least `mp`, a
      lone operand, and an ending token. */
  lemma {:induction false} FinalRound(e1: Node, mp: nat, st: State, op: string)
    requires st.Valid() && st.cursor + 2 < |st.tokens| && st.tokens[st.cursor] == Operator(op)
    requires AtLeast(Precedence(op), mp) && LoneOperand(State(st.tokens, st.cursor + 1))
    requires Ends(st.tokens[st.cursor + 2])
    ensures ParseBinary(e1, mp, st) ==
      Step(Ok(Binary(op, e1, Term(st.tokens[st.cursor + 1]))), State(st.tokens, st.cursor + 2))
  {
    var t, c := st.tokens, st.cursor;
    var b, st2 := Term(t[c + 1]), State(t, c + 2);
    var res := Step(Ok(Binary(op, e1, b)), st2);
    PrimaryOperand(State(t, c + 1));
    RightStops(op, b, st2);
    BinaryStops(Binary(op, e1, b), mp, st2);
    BinaryRound(e1, mp, st, op, b, st2, b, st2, res);
  }

  /** One round of the inner loop: an operator at least as tight as `op`
      makes the right operand a `binary` at that operator's level. */
  lemma {:induction false} RightRound(op: string, e2: Node, st: State, o2: string, e3: Node, st1: State, res: Step<Node>)
    requires st.Valid() && st.cursor < |st.tokens| && st.tokens[st.cursor] == Operator(o2)
    requires Precedence(op).Some? && AtLeast(Precedence(o2), Precedence(op).value)
    requires ParseBinary(e2, Precedence(o2).value, st) == Step(Ok(e3), st1)
    requires st1.Valid() && RightOperand(op, e3, st1) == res
    ensures RightOperand(op, e2, st) == res
  {
  }

  /** The inner loop stops at an operator looser than `op`. */
  lemma {:induction false} RightBelow(op: string, e2: Node, st: State, o2: string)
    requires st.Valid() && st.cursor < |st.tokens| && st.tokens[st.cursor] == Operator(o2)
    requires Precedence(op).Some? && !AtLeast(Precedence(o2), Precedence(op).value)
    ensures RightOperand(op, e2, st) == Step(Ok(e2), st)
  {
  }

  /** An operand followed by an ending token is a whole expression. */
  lemma {:induction false} OperandExpression(st: State)
    requires st.Valid() && st.cursor + 1 < |st.tokens| && IsOperand(st.tokens[st.cursor])
    requires Ends(st.tokens[st.cursor + 1])
    ensures ParseExpression(st) == Step(Ok(Term(st.tokens[st.cursor])), State(st.tokens, st.cursor + 1))
  {
    var t, p := st.tokens, st.cursor;
    var a, st1 := Term(t[p]), State(t, p + 1);
    BinaryStops(a, 0, st1);
    PrimaryOperand(st);
    ExpressionStep(st, a, st1, Step(Ok(a), st1));
  }

  // ---------------------------------------------------------------------
  // Punctuation

  /** `consume` of an operator takes exactly that operator. */
  lemma {:induction false} ConsumeOperator(st: State, op: string, st1: State)
    requires st.Valid() && st.cursor < |st.tokens| && st.tokens[st.cursor] == Operator(op)
    requires st1 == State(st.tokens, st.cursor + 1)
    ensures Consume(st, OPERATOR, Some(op)) == Step(Ok(TextV(op)), st1)
  {
  }

  /** `consume` of a keyword takes exactly that keyword. */
  lemma {:induction false} ConsumeKeyword(st: State, k: string, st1: State)
    requires st.Valid() && st.cursor < |st.tokens| && st.tokens[st.cursor] == Keyword(k)
    requires st1 == State(st.tokens, st.cursor + 1)
    ensures Consume(st, KEYWORD, Some(k)) == Step(Ok(TextV(k)), st1)
  {
  }

  /** `consume` of any token of the given type takes it. */
  lemma {:induction false} ConsumeAny(st: State, type_: TokenType, st1: State)
    requires st.Valid() && st.cursor < |st.tokens| && st.tokens[st.cursor].TypeOf() == type_
    requires st1 == State(st.tokens, st.cursor + 1)
    ensures Consume(st, type_, None) == Step(Ok(st.tokens[st.cursor].ValueOf()), st1)
  {
  }

  /** `ignore` of an operator that is not there changes nothing. */
  lemma {:induction false} IgnoreAbsent(st: State, op: string)
    requires st.Valid() && st.cursor < |st.tokens| && st.tokens[st.cursor] != Operator(op)
    ensures Ignore(st, OPERATOR, Some(op)) == Step(Ok(None), st)
  {
  }

  /** A parenthesised expression is its three steps in a row. */
  lemma {:induction false} ParenRound(st: State, st1: State, e: Node, st2: State, st3: State)
    requires st.Valid() && Consume(st, OPERATOR, Some("(")) == Step(Ok(TextV("(")), st1)
    requires ParseExpression(st1) == Step(Ok(e), st2)
    requires st2.Valid() && Consume(st2, OPERATOR, Some(")")) == Step(Ok(TextV(")")), st3)
    ensures ParseParenExpression(st) == Step(Ok(e), st3)
  {
  }

  /** `( e )`: the expression between the parentheses, and the cursor after
      the `)`. */
  lemma {:induction false} ParenStep(st: State, st1: State, e: Node, st2: State, st3: State)
    requires st.Valid() && st.cursor < |st.tokens| && st.tokens[st.cursor] == Operator("(")
    requires st1 == State(st.tokens, st.cursor + 1) && ParseExpression(st1) == Step(Ok(e), st2)
    requires st2.Valid() && st2.cursor < |st2.tokens| && st2.tokens[st2.cursor] == Operator(")")
    requires st3 == State(st2.tokens, st2.cursor + 1)
    ensures ParseParenExpression(st) == Step(Ok(e), st3)
  {
    ConsumeOperator(st, "(", st1);
    ConsumeOperator(st2, ")", st3);
    ParenRound(st, st1, e, st2, st3);
  }

  /** The tokens `a op b` followed by an ending token, from the cursor on. */
  predicate TwoOperands(st: State, op: string)
    requires st.Valid()
  {
    st.cursor + 3 < |st.tokens| &&
    IsOperand(st.tokens[st.cursor]) && st.tokens[st.cursor + 1] == Operator(op) &&
    IsOperand(st.tokens[st.cursor + 2]) && Ends(st.tokens[st.cursor + 3])
  }

  /** `a op b` parses as one binary node. */
  lemma {:induction false} ClimbSingle(st: State, op: string)
    requires st.Valid() && Precedence(op).Some? && TwoOperands(st, op)
    ensures ParseExpression(st) ==
      Step(Ok(Binary(op, Term(st.tokens[st.cursor]), Term(st.tokens[st.cursor + 2]))), State(st.tokens, st.cursor + 3))
  {
    var t, p := st.tokens, st.cursor;
    var a, st1 := Term(t[p]), State(t, p + 1);
    var res := Step(Ok(Binary(op, a, Term(t[p + 2]))), State(t, p + 3));
    assert LoneOperand(State(t, p + 2)) && Ends(t[p + 3]);
    FinalRound(a, 0, st1, op);
    BinaryOperatorIsNotPostfix(op);
    PrimaryOperand(st);
    ExpressionStep(st, a, st1, res);
  }

  /** The tokens `a o1 b o2 c` followed by an ending token. */
  predicate ThreeOperands(st: State, o1: string, o2: string)
    requires st.Valid()
  {
    st.cursor + 5 < |st.tokens| &&
    IsOperand(st.tokens[st.cursor]) && st.tokens[st.cursor + 1] == Operator(o1) &&
    IsOperand(st.tokens[st.cursor + 2]) && st.tokens[st.cursor + 3] == Operator(o2) &&
    IsOperand(st.tokens[st.cursor + 4]) && Ends(st.tokens[st.cursor + 5])
  }

  /** The rounds of `binary` after a first operand, when the second
      operator binds at least as tightly as the first. */
  lemma {:induction false} TighterRounds(a: Node, st: State, o1: string, o2: string)
    requires st.Valid() && st.cursor + 4 < |st.tokens| && Precedence(o1).Some? && Precedence(o2).Some?
    requires Precedence(o2).value >= Precedence(o1).value
    requires st.tokens[st.cursor] == Operator(o1) && LoneOperand(State(st.tokens, st.cursor + 1))
    requires st.tokens[st.cursor + 2] == Operator(o2) && LoneOperand(State(st.tokens, st.cursor + 3))
    requires Ends(st.tokens[st.cursor + 4])
    ensures ParseBinary(a, 0, st) ==
      Step(Ok(Binary(o1, a, Binary(o2, Term(st.tokens[st.cursor + 1]), Term(st.tokens[st.cursor + 3])))),
           State(st.tokens, st.cursor + 4))
  {
    var t, p := st.tokens, st.cursor;
    var b, c := Term(t[p + 1]), Term(t[p + 3]);
    var st2, st4 := State(t, p + 2), State(t, p + 4);
    var inner := Binary(o2, b, c);
    var res := Step(Ok(Binary(o1, a, inner)), st4);
    PrimaryOperand(State(t, p + 1));
    // the inner `binary(b, level of o2)` takes `o2 c`, so the inner loop
    // after `o1` yields `b o2 c`
    FinalRound(b, Precedence(o2).value, st2, o2);
    RightStops(o1, inner, st4);
    RightRound(o1, b, st2, o2, inner, st4, Step(Ok(inner), st4));
    // and the outer loop takes `o1 (b o2 c)` and stops
    BinaryStops(Binary(o1, a, inner), 0, st4);
    BinaryRound(a, 0, st, o1, b, st2, inner, st4, res);
  }

  /** When the second operator binds at least as tightly as the first, the
      second pair is grouped first: `1 + 2 * 3` is `1 + (2 * 3)`, and, since
      equal levels also climb, `a - b - c` is `a - (b - c)` and `a = b = c`
      is `a = (b = c)`. */
  lemma {:induction false} ClimbTighter(st: State, o1: string, o2: string)
    requires st.Valid() && Precedence(o1).Some? && Precedence(o2).Some?
    requires Precedence(o2).value >= Precedence(o1).value
    requires ThreeOperands(st, o1, o2)
    ensures ParseExpression(st) ==
      Step(Ok(Binary(o1, Term(st.tokens[st.cursor]),
                     Binary(o2, Term(st.tokens[st.cursor + 2]), Term(st.tokens[st.cursor + 4])))),
           State(st.tokens, st.cursor + 5))
  {
    var t, p := st.tokens, st.cursor;
    BinaryOperatorIsNotPostfix(o1);
    BinaryOperatorIsNotPostfix(o2);
    PrimaryOperand(st);
    TighterRounds(Term(t[p]), State(t, p + 1), o1, o2);
  }

  /** The rounds of `binary` after a first operand, when the second
      operator binds more loosely than the first. */
  lemma {:induction false} LooserRounds(a: Node, st: State, o1: string, o2: string)
    requires st.Valid() && st.cursor + 4 < |st.tokens| && Precedence(o1).Some? && Precedence(o2).Some?
    requires Precedence(o2).value < Precedence(o1).value
    requires st.tokens[st.cursor] == Operator(o1) && LoneOperand(State(st.tokens, st.cursor + 1))
    requires st.tokens[st.cursor + 2] == Operator(o2) && LoneOperand(State(st.tokens, st.cursor + 3))
    requires Ends(st.tokens[st.cursor + 4])
    ensures ParseBinary(a, 0, st) ==
      Step(Ok(Binary(o2, Binary(o1, a, Term(st.tokens[st.cursor + 1])), Term(st.tokens[st.cursor + 3]))),
           State(st.tokens, st.cursor + 4))
  {
    var t, p := st.tokens, st.cursor;
    var b, st2 := Term(t[p + 1]), State(t, p + 2);
    var res := Step(Ok(Binary(o2, Binary(o1, a, b), Term(t[p + 3]))), State(t, p + 4));
    PrimaryOperand(State(t, p + 1));
    // the inner loop after `o1` stops at the looser `o2`
    RightBelow(o1, b, st2, o2);
    // the outer loop then takes `o2 c`
    FinalRound(Binary(o1, a, b), 0, st2, o2);
    BinaryRound(a, 0, st, o1, b, st2, b, st2, res);
  }

  /** When the second operator binds more loosely, the first pair is
      grouped first: `1 * 2 + 3` is `(1 * 2) + 3`. */
  lemma {:induction false} ClimbLooser(st: State, o1: string, o2: string)
    requires st.Valid() && Precedence(o1).Some? && Precedence(o2).Some?
    requires Precedence(o2).value < Precedence(o1).value
    requires ThreeOperands(st, o1, o2)
    ensures var t, p := st.tokens, st.cursor;
      ParseExpression(st) ==
        Step(Ok(Binary(o2, Binary(o1, Term(t[p]), Term(t[p + 2])), Term(t[p + 4]))), State(t, p + 5))
  {
    var t, p := st.tokens, st.cursor;
    var a, st1 := Term(t[p]), State(t, p + 1);
    var res := Step(Ok(Binary(o2, Binary(o1, a, Term(t[p + 2])), Term(t[p + 4]))), State(t, p + 5));
    BinaryOperatorIsNotPostfix(o1);
    BinaryOperatorIsNotPostfix(o2);
    PrimaryOperand(st);
    LooserRounds(a, st1, o1, o2);
    ExpressionStep(st, a, st1, res);
  }

  /** The tokens `o1 a1 o2 a2 ... on an` from the cursor on, followed by an
      ending token: every operator `oi` of level `p`, every `ai` an operand
      whose term is `xs[i]`. */
  predicate Chain(st: State, ops: seq<string>, xs: seq<Node>, p: nat)
    requires st.Valid()
    decreases |ops|
  {
    |xs| == |ops| &&
    if ops == [] then st.cursor < |st.tokens| && Ends(st.tokens[st.cursor])
    else
      st.cursor + 2 < |st.tokens| && st.tokens[st.cursor] == Operator(ops[0]) && Precedence(ops[0]) == Some(p) &&
      IsOperand(st.tokens[st.cursor + 1]) && Term(st.tokens[st.cursor + 1]) == xs[0] &&
      Chain(State(st.tokens, st.cursor + 2), ops[1..], xs[1..], p)
  }

  /** `e o1 (a1 o2 (a2 ... on an))`: the tree grouped from the right. */
  function RightNested(e: Node, ops: seq<string>, xs: seq<Node>): Node
    requires |xs| == |ops|
    decreases |ops|
  {
    if ops == [] then e else Binary(ops[0], e, RightNested(xs[0], ops[1..], xs[1..]))
  }

  /** A chain ends at an ending token (`end`). */
  lemma {:induction false} ChainEnd(st: State, ops: seq<string>, xs: seq<Node>, p: nat, end: State)
    requires st.Valid() && Chain(st, ops, xs, p)
    requires end == State(st.tokens, st.cursor + 2 * |ops|)
    ensures end.Valid() && end.cursor < |end.tokens| && Ends(end.tokens[end.cursor])
    decreases |ops|
  {
    if ops != [] {
      ChainEnd(State(st.tokens, st.cursor + 2), ops[1..], xs[1..], p, end);
    }
  }

  /** The first operand of a chain is a primary on its own, since what
      follows it is an ending token or a binary operator. */
  lemma {:induction false} ChainHead(st: State, ops: seq<string>, xs: seq<Node>, p: nat)
    requires st.Valid() && Chain(st, ops, xs, p) && ops != []
    ensures LoneOperand(State(st.tokens, st.cursor + 1))
  {
    if ops[1..] != [] {
      BinaryOperatorIsNotPostfix(ops[1]);
    }
  }

  /** The inner loop after an operator of level `p`, when the token after
      its primary `b` ends the expression or is another operator of level
      `p`: the right operand is `binary(b, p)`. */
  lemma {:induction false} InnerAtLevel(op: string, b: Node, st2: State, e2: Node, end: State, p: nat)
    requires Precedence(op) == Some(p)
    requires st2.Valid() && st2.cursor < |st2.tokens|
    requires Ends(st2.tokens[st2.cursor]) ||
             (st2.tokens[st2.cursor].Operator? && Precedence(st2.tokens[st2.cursor].op) == Some(p))
    requires ParseBinary(b, p, st2) == Step(Ok(e2), end)
    requires end.Valid() && end.cursor < |end.tokens| && Ends(end.tokens[end.cursor])
    ensures RightOperand(op, b, st2) == Step(Ok(e2), end)
  {
    if Ends(st2.tokens[st2.cursor]) {
      BinaryStops(b, p, st2);
      RightStops(op, b, st2);
    } else {
      RightStops(op, e2, end);
      RightRound(op, b, st2, st2.tokens[st2.cursor].op, e2, end, Step(Ok(e2), end));
    }
  }

  /** `binary(e, mp)` over a chain at one level `p >= mp`: every operator
      after the first is absorbed by the inner loop, so the whole chain
      groups from the right, and the cursor stops at the ending token
      (`end`). */
  lemma {:induction false} ChainRounds(e: Node, mp: nat, st: State, ops: seq<string>, xs: seq<Node>, p: nat, end: State)
    requires st.Valid() && Chain(st, ops, xs, p) && mp <= p
    requires end == State(st.tokens, st.cursor + 2 * |ops|)
    ensures ParseBinary(e, mp, st) == Step(Ok(RightNested(e, ops, xs)), end)
    decreases |ops|
  {
    var t, c := st.tokens, st.cursor;
    ChainEnd(st, ops, xs, p, end);
    if ops == [] {
      BinaryStops(e, mp, st);
    } else {
      var st2 := State(t, c + 2);
      var e2 := RightNested(xs[0], ops[1..], xs[1..]);
      ChainHead(st, ops, xs, p);
      PrimaryOperand(State(t, c + 1));
      ChainRounds(xs[0], p, st2, ops[1..], xs[1..], p, end);
      InnerAtLevel(ops[0], xs[0], st2, e2, end, p);
      BinaryStops(Binary(ops[0], e, e2), mp, end);
      BinaryRound(e, mp, st, ops[0], xs[0], st2, e2, end, Step(Ok(Binary(ops[0], e, e2)), end));
    }
  }

  /** An operand (at `st`) followed by a chain at one level (from `st1`) is
      one expression, grouped from the right: `a - b - c - d` is
      `a - (b - (c - d))`, and the cursor stops at the ending token (`end`). */
  lemma {:induction false} ChainExpression(st: State, st1: State, ops: seq<string>, xs: seq<Node>, p: nat, end: State)
    requires st.Valid() && st.cursor < |st.tokens| && IsOperand(st.tokens[st.cursor])
    requires st1 == State(st.tokens, st.cursor + 1) && Chain(st1, ops, xs, p)
    requires end == State(st1.tokens, st1.cursor + 2 * |ops|)
    ensures ParseExpression(st) == Step(Ok(RightNested(Term(st.tokens[st.cursor]), ops, xs)), end)
  {
    var a := Term(st.tokens[st.cursor]);
    if ops != [] {
      BinaryOperatorIsNotPostfix(ops[0]);
    }
    PrimaryOperand(st);
    ChainRounds(a, 0, st1, ops, xs, p, end);
    ExpressionStep(st, a, st1, Step(Ok(RightNested(a, ops, xs)), end));
  }

  // ---------------------------------------------------------------------
  // Prefix operators

  /** `lunary(op)`: the operator, then the primary after it. */
  lemma {:induction false} LUnaryRound(op: string, st: State, st1: State, e: Node, st2: State)
    requires st.Valid() && st.cursor < |st.tokens| && st.tokens[st.cursor] == Operator(op)
    requires st1 == State(st.tokens, st.cursor + 1) && ParsePrimary(st1) == Step(Ok(e), st2)
    ensures ParseLUnary(op, st) == Step(Ok(LUnary(op, e)), st2)
  {
    assert Require(st, OPERATOR, Some(op), 0) == Step(Ok(()), st);
    ConsumeAny(st, OPERATOR, st1);
  }

  /** The position of a prefix operator among the alternatives of
      `primary`. */
  function PrefixIndex(op: string): (j: nat)
    requires op in PrefixOps
    ensures 4 <= j < 11 && PrefixOps[j - 4] == op
    ensures forall k :: 0 <= k < j - 4 ==> PrefixOps[k] != op
  {
    if op == "!" then 4 else if op == "~" then 5 else if op == "&" then 6
    else if op == "+" then 7 else if op == "-" then 8 else if op == "--" then 9 else 10
  }

  /** Before the prefix alternative for `op`, every alternative of
      `primary` raises Continue on `op` followed by anything but a postfix
      operator. */
  lemma {:induction false} PrefixPassesOver(op: string, i: nat, st: State)
    requires st.Valid() && st.cursor + 1 < |st.tokens| && op in PrefixOps
    requires st.tokens[st.cursor] == Operator(op)
    requires st.tokens[st.cursor + 1] != Operator("--") && st.tokens[st.cursor + 1] != Operator("++")
    requires i < PrefixIndex(op)
    ensures PrimaryAlt(i, st).r == Err(Continue)
  {
    if i == 0 {
      assert PrimaryAlt(i, st) == ParseParen(st);
      ParenNeedsParenthesis(st);
    } else if i == 1 {
      assert PrimaryAlt(i, st) == ParseFuncall(st);
      FuncallNeedsParenthesis(st);
    } else if i < 4 {
      assert PrimaryAlt(i, st) == ParseRUnary(PostfixOps[i - 2], st);
      PostfixNeedsOperator(PostfixOps[i - 2], st);
    } else {
      assert PrimaryAlt(i, st) == ParseLUnary(PrefixOps[i - 4], st);
      assert PrefixOps[i - 4] != op;
    }
  }

  /** A prefix operator not followed by a postfix operator is that prefix
      operation on the primary after it. */
  lemma {:induction false} PrimaryPrefix(op: string, st: State, st1: State, e: Node, st2: State)
    requires st.Valid() && st.cursor + 1 < |st.tokens| && op in PrefixOps
    requires st.tokens[st.cursor] == Operator(op)
    requires st.tokens[st.cursor + 1] != Operator("--") && st.tokens[st.cursor + 1] != Operator("++")
    requires st1 == State(st.tokens, st.cursor + 1) && ParsePrimary(st1) == Step(Ok(e), st2)
    ensures ParsePrimary(st) == Step(Ok(LUnary(op, e)), st2)
  {
    var j := PrefixIndex(op);
    forall i | 0 <= i < j
      ensures PrimaryAlt(i, st).r == Err(Continue)
    {
      PrefixPassesOver(op, i, st);
    }
    assert PrimaryAlt(j, st) == ParseLUnary(op, st);
    LUnaryRound(op, st, st1, e, st2);
    PrimaryFirstApplicable(st, j);
  }

  /** `op a` followed by an ending token: the prefix operation on the
      operand is the whole expression. */
  lemma {:induction false} PrefixExpression(op: string, st: State)
    requires st.Valid() && st.cursor + 2 < |st.tokens| && op in PrefixOps
    requires st.tokens[st.cursor] == Operator(op) && IsOperand(st.tokens[st.cursor + 1])
    requires Ends(st.tokens[st.cursor + 2])
    ensures ParseExpression(st) ==
      Step(Ok(LUnary(op, Term(st.tokens[st.cursor + 1]))), State(st.tokens, st.cursor + 2))
  {
    var t, c := st.tokens, st.cursor;
    var n, st2 := LUnary(op, Term(t[c + 1])), State(t, c + 2);
    PrimaryOperand(State(t, c + 1));
    PrimaryPrefix(op, st, State(t, c + 1), Term(t[c + 1]), st2);
    BinaryStops(n, 0, st2);
    ExpressionStep(st, n, st2, Step(Ok(n), st2));
  }

  // ---------------------------------------------------------------------
  // Postfix operators

  /** The tokens after the postfix operator at `cursor + 1` is deleted. */
  function WithoutPostfix(st: State): (t: seq<Token>)
    requires st.Valid() && st.cursor + 2 <= |st.tokens|
    ensures |t| == |st.tokens| - 1
    ensures forall i :: 0 <= i <= st.cursor ==> t[i] == st.tokens[i]
    ensures forall i :: st.cursor + 1 <= i < |t| ==> t[i] == st.tokens[i + 1]
  {
    st.tokens[..st.cursor + 1] + st.tokens[st.cursor + 2..]
  }

  /** `runary(op)` on an operand followed by `op`: the operator token is
      deleted from the list, the cursor comes back to the operand, and the
      operand alone is parsed as the primary. */
  lemma {:induction false} PostfixDrop(op: string, st: State)
    requires st.Valid() && st.cursor + 2 < |st.tokens| && IsOperand(st.tokens[st.cursor])
    requires st.tokens[st.cursor + 1] == Operator(op) && Ends(st.tokens[st.cursor + 2])
    ensures ParseRUnary(op, st) ==
      Step(Ok(RUnary(op, Term(st.tokens[st.cursor]))), State(WithoutPostfix(st), st.cursor + 1))
  {
    var t, c := st.tokens, st.cursor;
    var t2 := WithoutPostfix(st);
    assert Require(st, OPERATOR, Some(op), 1) == Step(Ok(()), State(t, c + 1));
    assert Drop(State(t, c + 1), 0, 1) == State(t2, c + 1);
    assert ParsePrimary(State(t2, c)) == Step(Ok(Term(t[c])), State(t2, c + 1)) by {
      PrimaryOperand(State(t2, c));
    }
  }

  /** The position of a postfix operator among the alternatives of
      `primary`. */
  function PostfixIndex(op: string): (j: nat)
    requires op == "--" || op == "++"
    ensures 2 <= j < 4 && PostfixOps[j - 2] == op
  {
    if op == "--" then 2 else 3
  }

  /** `paren` passes over a token other than `(`. */
  lemma {:induction false} ParenNeedsParenthesis(st: State)
    requires st.Valid() && st.cursor < |st.tokens| && st.tokens[st.cursor] != Operator("(")
    ensures ParseParen(st).r == Err(Continue)
  {
  }

  /** `funcall` passes over anything but a name directly followed by `(`. */
  lemma {:induction false} FuncallNeedsParenthesis(st: State)
    requires st.Valid() && st.cursor + 1 < |st.tokens|
    requires !st.tokens[st.cursor].Identifier? || st.tokens[st.cursor + 1] != Operator("(")
    ensures ParseFuncall(st).r == Err(Continue)
  {
  }

  /** `runary(op)` passes over a token not followed by `op`. */
  lemma {:induction false} PostfixNeedsOperator(op: string, st: State)
    requires st.Valid() && st.cursor + 1 < |st.tokens| && st.tokens[st.cursor + 1] != Operator(op)
    ensures ParseRUnary(op, st).r == Err(Continue)
  {
  }

  /** Before the postfix alternative for `op`, every alternative of
      `primary` raises Continue on an operand followed by `op`. */
  lemma {:induction false} PostfixPassesOver(op: string, i: nat, st: State)
    requires st.Valid() && st.cursor + 2 < |st.tokens| && IsOperand(st.tokens[st.cursor])
    requires op == "--" || op == "++"
    requires st.tokens[st.cursor + 1] == Operator(op) && i < PostfixIndex(op)
    ensures PrimaryAlt(i, st).r == Err(Continue)
  {
    if i == 0 {
      assert PrimaryAlt(i, st) == ParseParen(st);
      ParenNeedsParenthesis(st);
    } else if i == 1 {
      assert PrimaryAlt(i, st) == ParseFuncall(st);
      FuncallNeedsParenthesis(st);
    } else {
      assert PrimaryAlt(i, st) == ParseRUnary("--", st);
      PostfixNeedsOperator("--", st);
    }
  }

  /** Postfix comes before every prefix alternative: an operand followed
      by `--` or `++` is that postfix operation, with the operator token
      deleted. */
  lemma {:induction false} PrimaryPostfix(op: string, st: State)
    requires st.Valid() && st.cursor + 2 < |st.tokens| && IsOperand(st.tokens[st.cursor])
    requires op == "--" || op == "++"
    requires st.tokens[st.cursor + 1] == Operator(op) && Ends(st.tokens[st.cursor + 2])
    ensures ParsePrimary(st) ==
      Step(Ok(RUnary(op, Term(st.tokens[st.cursor]))), State(WithoutPostfix(st), st.cursor + 1))
  {
    var j := PostfixIndex(op);
    forall i | 0 <= i < j
      ensures PrimaryAlt(i, st).r == Err(Continue)
    {
      PostfixPassesOver(op, i, st);
    }
    assert PrimaryAlt(j, st) == ParseRUnary(op, st);
    PostfixDrop(op, st);
    PrimaryFirstApplicable(st, j);
  }
}
