/** Properties of declarations: `parse_variable` keeps only the name, and
    `parse_declaration` rewinds to the name so that the initialiser is the
    whole assignment, after deleting an array suffix from the token list.
    As for statements, the step lemmas take every state they relate as a
    parameter, and each property fixes the tokens from position `c` of the
    list `t` on. */
module DeclarationProperties {
  import opened Lexer
  import opened Cursor
  import opened Grammar
  import opened ParserProperties
  import opened StatementProperties

  // ---------------------------------------------------------------------
  // Variables

  /** `T x`: no `const`, no stars, and the name is the identifier. */
  lemma {:induction false} VariableNameSimple(st: State, st1: State, st2: State)
    requires st.Valid() && st.cursor < |st.tokens| && st.tokens[st.cursor].Type?
    requires st1 == State(st.tokens, st.cursor + 1) && st1.cursor < |st1.tokens| && st1.tokens[st1.cursor].Identifier?
    requires st2 == State(st1.tokens, st1.cursor + 1)
    ensures VariableName(st) == Step(Ok(st1.tokens[st1.cursor].name), st2)
  {
    assert Ignore(st, KEYWORD, Some("const")) == Step(Ok(None), st);
    assert Consume(st, TYPE, None) == Step(Ok(st.tokens[st.cursor].ValueOf()), st1);
    assert Stars(st1) == Step(Ok(()), st1);
  }

  /** `n` stars followed by anything else: the loop passes them all and
      stops at the token after them (`end`). */
  lemma {:induction false} StarsRun(st: State, n: nat, end: State)
    requires st.Valid() && end == State(st.tokens, st.cursor + n) && end.cursor < |end.tokens|
    requires forall i :: st.cursor <= i < end.cursor ==> st.tokens[i] == Operator("*")
    requires end.tokens[end.cursor] != Operator("*")
    ensures Stars(st) == Step(Ok(()), end)
    decreases n
  {
    if n > 0 {
      var st1 := State(st.tokens, st.cursor + 1);
      ConsumeOperator(st, "*", st1);
      StarsRun(st1, n - 1, end);
    }
  }

  /** The name of a variable: what `ignore("const")` leaves (`st1`), a type,
      the stars from `st2` to `st3`, and the identifier at `st3`. */
  lemma {:induction false} VariableNameRound(st: State, k: Option<Value>, st1: State, st2: State, st3: State, st4: State)
    requires st.Valid() && Ignore(st, KEYWORD, Some("const")) == Step(Ok(k), st1)
    requires st1.Valid() && st1.cursor < |st1.tokens| && st1.tokens[st1.cursor].Type?
    requires st2 == State(st1.tokens, st1.cursor + 1) && Stars(st2) == Step(Ok(()), st3)
    requires st3.Valid() && st3.cursor < |st3.tokens| && st3.tokens[st3.cursor].Identifier?
    requires st4 == State(st3.tokens, st3.cursor + 1)
    ensures VariableName(st) == Step(Ok(st3.tokens[st3.cursor].name), st4)
  {
    ConsumeAny(st1, TYPE, st2);
    ConsumeAny(st3, IDENTIFIER, st4);
  }

  /** `const T * * x`: `const` and the stars are read and discarded, and the
      variable is the name `x`. */
  lemma {:induction false} ConstPointerName(t: seq<Token>, c: nat)
    requires c + 4 < |t| && t[c] == Keyword("const") && t[c + 1].Type?
    requires t[c + 2] == Operator("*") && t[c + 3] == Operator("*") && t[c + 4].Identifier?
    ensures VariableName(State(t, c)) == Step(Ok(t[c + 4].name), State(t, c + 5))
  {
    IgnoreKeyword(State(t, c), "const", State(t, c + 1));
    StarsRun(State(t, c + 2), 2, State(t, c + 4));
    VariableNameRound(State(t, c), Some(TextV("const")), State(t, c + 1), State(t, c + 2), State(t, c + 4), State(t, c + 5));
  }

  /** `T x` not followed by `[`: the variable is the name, and the cursor
      stops after it. */
  lemma {:induction false} VariableSimple(st: State, st1: State, st2: State)
    requires st.Valid() && st.cursor < |st.tokens| && st.tokens[st.cursor].Type?
    requires st1 == State(st.tokens, st.cursor + 1) && st1.cursor < |st1.tokens| && st1.tokens[st1.cursor].Identifier?
    requires st2 == State(st1.tokens, st1.cursor + 1) && st2.cursor < |st2.tokens| && st2.tokens[st2.cursor] != Operator("[")
    ensures ParseVariable(st) == Step(Ok(st1.tokens[st1.cursor].name), st2)
  {
    VariableNameSimple(st, st1, st2);
  }

  /** `T x [ N ]`: the suffix is read and discarded, the variable is still
      the name, and the cursor stops after the `]`. */
  lemma {:induction false} VariableArray(st: State, st1: State, st2: State, st3: State, st4: State, st5: State)
    requires st.Valid() && st.cursor < |st.tokens| && st.tokens[st.cursor].Type?
    requires st1 == State(st.tokens, st.cursor + 1) && st1.cursor < |st1.tokens| && st1.tokens[st1.cursor].Identifier?
    requires st2 == State(st1.tokens, st1.cursor + 1) && st2.cursor < |st2.tokens| && st2.tokens[st2.cursor] == Operator("[")
    requires st3 == State(st2.tokens, st2.cursor + 1) && st3.cursor < |st3.tokens| && st3.tokens[st3.cursor].Number?
    requires st4 == State(st3.tokens, st3.cursor + 1) && st4.cursor < |st4.tokens| && st4.tokens[st4.cursor] == Operator("]")
    requires st5 == State(st4.tokens, st4.cursor + 1)
    ensures ParseVariable(st) == Step(Ok(st1.tokens[st1.cursor].name), st5)
  {
    VariableNameSimple(st, st1, st2);
    ConsumeOperator(st2, "[", st3);
    assert Consume(st3, NUMBER, None) == Step(Ok(st3.tokens[st3.cursor].ValueOf()), st4);
    ConsumeOperator(st4, "]", st5);
  }

  // ---------------------------------------------------------------------
  // Initialisers

  /** `a op b` followed by an ending token, one state per token. */
  lemma {:induction false} SingleBinary(op: string, st: State, st1: State, st2: State, st3: State)
    requires Precedence(op).Some?
    requires st.Valid() && st.cursor < |st.tokens| && IsOperand(st.tokens[st.cursor])
    requires st1 == State(st.tokens, st.cursor + 1) && st1.cursor < |st1.tokens| && st1.tokens[st1.cursor] == Operator(op)
    requires st2 == State(st1.tokens, st1.cursor + 1) && st2.cursor < |st2.tokens| && IsOperand(st2.tokens[st2.cursor])
    requires st3 == State(st2.tokens, st2.cursor + 1) && st3.cursor < |st3.tokens| && Ends(st3.tokens[st3.cursor])
    ensures ParseExpression(st) ==
      Step(Ok(Binary(op, Term(st.tokens[st.cursor]), Term(st2.tokens[st2.cursor]))), st3)
  {
    ClimbSingle(st, op);
  }

  /** A variable followed by `=` is declared with the expression parsed
      from `InitStart`. */
  lemma {:induction false} DeclInitRound(st: State, name: string, st1: State, st2: State, init: Node, st3: State)
    requires st.Valid() && ParseVariable(st) == Step(Ok(name), st1)
    requires st1.cursor < |st1.tokens| && st1.tokens[st1.cursor] == Operator("=")
    requires InitStart(st1) == st2 && ParseExpression(st2) == Step(Ok(init), st3)
    ensures ParseDeclaration(st) == Step(Ok(DeclInit(name, init)), st3)
  {
  }

  /** A variable followed by anything but `=` is declared without an
      initialiser, and the cursor stays after the variable. */
  lemma {:induction false} DeclBareRound(st: State, name: string, st1: State)
    requires st.Valid() && ParseVariable(st) == Step(Ok(name), st1)
    requires st1.cursor < |st1.tokens| && st1.tokens[st1.cursor] != Operator("=")
    ensures ParseDeclaration(st) == Step(Ok(Decl(name)), st1)
  {
    assert IsA(st1, OPERATOR, Some("=")) == Ok(false);
  }

  /** A variable that ends the input: looking for `=` raises IndexError. */
  lemma {:induction false} DeclarationAtEnd(st: State, name: string, st1: State)
    requires st.Valid() && ParseVariable(st) == Step(Ok(name), st1)
    requires st1.cursor == |st1.tokens|
    ensures ParseDeclaration(st) == Step(Err(IndexError), st1)
  {
    assert IsA(st1, OPERATOR, Some("=")) == Err(IndexError);
  }

  /** Where `parse_declaration` restarts after a plain name (`st1`): one
      token back, at the name (`st`). */
  lemma {:induction false} InitStartPlain(st: State, st1: State)
    requires st.Valid() && st.cursor >= 1 && st.cursor < |st.tokens| && st.tokens[st.cursor] != Operator("]")
    requires st1 == State(st.tokens, st.cursor + 1)
    ensures InitStart(st1) == st
  {
    assert Move(st1, -1) == st;
  }

  /** `T x = a` (a token per state from `st` to `st3`, then an ending
      token at `st4`): the cursor is rewound to the name, so the
      initialiser is the assignment `x = a` itself. */
  lemma {:induction false} DeclarationRewinds(st: State, st1: State, st2: State, st3: State, st4: State)
    requires st.Valid() && st.cursor < |st.tokens| && st.tokens[st.cursor].Type?
    requires st1 == State(st.tokens, st.cursor + 1) && st1.cursor < |st1.tokens| && st1.tokens[st1.cursor].Identifier?
    requires st2 == State(st1.tokens, st1.cursor + 1) && st2.cursor < |st2.tokens| && st2.tokens[st2.cursor] == Operator("=")
    requires st3 == State(st2.tokens, st2.cursor + 1) && st3.cursor < |st3.tokens| && IsOperand(st3.tokens[st3.cursor])
    requires st4 == State(st3.tokens, st3.cursor + 1) && st4.cursor < |st4.tokens| && Ends(st4.tokens[st4.cursor])
    ensures ParseDeclaration(st) ==
      Step(Ok(DeclInit(st1.tokens[st1.cursor].name, Binary("=", Term(st1.tokens[st1.cursor]), Term(st3.tokens[st3.cursor])))), st4)
  {
    var x := st1.tokens[st1.cursor];
    VariableSimple(st, st1, st2);
    InitStartPlain(st1, st2);
    PrecedenceAssignment("=");
    SingleBinary("=", st1, st2, st3, st4);
    DeclInitRound(st, x.name, st2, st1, Binary("=", Term(x), Term(st3.tokens[st3.cursor])), st4);
  }

  /** The list left when the array suffix `[N]` at positions `c + 2` to
      `c + 4` is deleted. */
  function WithoutSuffix(t: seq<Token>, c: nat): (u: seq<Token>)
    requires c + 5 <= |t|
    ensures |u| == |t| - 3
    ensures forall i :: 0 <= i < c + 2 ==> u[i] == t[i]
    ensures forall i :: c + 2 <= i < |u| ==> u[i] == t[i + 3]
  {
    t[..c + 2] + t[c + 5..]
  }

  /** Where `parse_declaration` restarts after `T x [ N ]`: the suffix is
      deleted and the cursor stands at the name. */
  lemma {:induction false} InitStartArray(t: seq<Token>, c: nat)
    requires c + 5 <= |t| && t[c + 4] == Operator("]")
    ensures InitStart(State(t, c + 5)) == State(WithoutSuffix(t, c), c + 1)
  {
    assert Drop(State(t, c + 4), 2, 1) == State(WithoutSuffix(t, c), c + 4);
  }

  /** `T x [ N ] = a`: the tokens `[ N ]` are deleted from the list, and the
      initialiser is again the assignment `x = a`, parsed in the shorter
      list. */
  lemma {:induction false} ArrayDeclaration(t: seq<Token>, c: nat)
    requires c + 7 < |t| && t[c].Type? && t[c + 1].Identifier?
    requires t[c + 2] == Operator("[") && t[c + 3].Number? && t[c + 4] == Operator("]")
    requires t[c + 5] == Operator("=") && IsOperand(t[c + 6]) && Ends(t[c + 7])
    ensures ParseDeclaration(State(t, c)) ==
      Step(Ok(DeclInit(t[c + 1].name, Binary("=", Term(t[c + 1]), Term(t[c + 6])))), State(WithoutSuffix(t, c), c + 4))
  {
    var u := WithoutSuffix(t, c);
    VariableArray(State(t, c), State(t, c + 1), State(t, c + 2), State(t, c + 3), State(t, c + 4), State(t, c + 5));
    InitStartArray(t, c);
    PrecedenceAssignment("=");
    assert u[c + 1] == t[c + 1] && u[c + 2] == t[c + 5] && u[c + 3] == t[c + 6] && u[c + 4] == t[c + 7];
    SingleBinary("=", State(u, c + 1), State(u, c + 2), State(u, c + 3), State(u, c + 4));
    DeclInitRound(State(t, c), t[c + 1].name, State(t, c + 5), State(u, c + 1),
                  Binary("=", Term(t[c + 1]), Term(t[c + 6])), State(u, c + 4));
  }

  // ---------------------------------------------------------------------
  // Declarations as statements

  /** On a type, the declaration alternative is `parse_declaration`. */
  lemma {:induction false} DeclarationAlt(st: State)
    requires st.Valid() && st.cursor < |st.tokens| && st.tokens[st.cursor].Type?
    ensures StatementAlt(0, st) == ParseDeclaration(st)
  {
    assert IsA(st, TYPE, None) == Ok(true);
  }

  /** On a type, the statement choice is the declaration. */
  lemma {:induction false} DeclarationChosen(st: State, res: Step<Node>)
    requires st.Valid() && st.cursor < |st.tokens| && st.tokens[st.cursor].Type?
    requires ParseDeclaration(st) == res
    ensures StatementFrom(0, st) == res
  {
    DeclarationAlt(st);
    StatementFirstApplicable(st, 0);
  }

  /** `T x = a ;` is the statement `((NDECL, x), (=, x, a))`, which takes its
      `;`. */
  lemma {:induction false} DeclarationStatement(t: seq<Token>, c: nat)
    requires c + 4 < |t| && t[c].Type? && t[c + 1].Identifier? && t[c + 2] == Operator("=")
    requires IsOperand(t[c + 3]) && t[c + 4] == Operator(";")
    ensures ParseStatement(State(t, c)) ==
      Step(Ok(DeclInit(t[c + 1].name, Binary("=", Term(t[c + 1]), Term(t[c + 3])))), State(t, c + 5))
  {
    var n := DeclInit(t[c + 1].name, Binary("=", Term(t[c + 1]), Term(t[c + 3])));
    DeclarationRewinds(State(t, c), State(t, c + 1), State(t, c + 2), State(t, c + 3), State(t, c + 4));
    DeclarationChosen(State(t, c), Step(Ok(n), State(t, c + 4)));
    StatementTakesSemicolon(State(t, c), n, State(t, c + 4), State(t, c + 5));
  }

  /** `T x ;` declares `x` without an initialiser. */
  lemma {:induction false} BareDeclaration(t: seq<Token>, c: nat)
    requires c + 2 < |t| && t[c].Type? && t[c + 1].Identifier? && t[c + 2] == Operator(";")
    ensures ParseStatement(State(t, c)) == Step(Ok(Decl(t[c + 1].name)), State(t, c + 3))
  {
    VariableSimple(State(t, c), State(t, c + 1), State(t, c + 2));
    DeclBareRound(State(t, c), t[c + 1].name, State(t, c + 2));
    DeclarationChosen(State(t, c), Step(Ok(Decl(t[c + 1].name)), State(t, c + 2)));
    StatementTakesSemicolon(State(t, c), Decl(t[c + 1].name), State(t, c + 2), State(t, c + 3));
  }
}
