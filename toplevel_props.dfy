/** Properties of the top level: parameter lists, forward declarations
    against function bodies, and the `parse` loop, which keeps what it has
    read and ends silently at the first IndexError, even halfway through a
    declaration. */
module ToplevelProperties {
  import opened Lexer
  import opened Cursor
  import opened Grammar
  import opened ParserProperties
  import opened StatementProperties
  import opened DeclarationProperties
  import opened CallProperties

  // ---------------------------------------------------------------------
  // Parameter lists

  /** `( )` is the empty parameter list. */
  lemma {:induction false} EmptyParameterList(st: State, st1: State, st2: State)
    requires st.Valid() && st.cursor < |st.tokens| && st.tokens[st.cursor] == Operator("(")
    requires st1 == State(st.tokens, st.cursor + 1) && st1.cursor < |st1.tokens| && st1.tokens[st1.cursor] == Operator(")")
    requires st2 == State(st1.tokens, st1.cursor + 1)
    ensures ParameterList(st) == Step(Ok(PList([])), st2)
  {
    ConsumeOperator(st, "(", st1);
    assert Parameters([], st1) == Step(Ok([]), st1);
    ConsumeOperator(st1, ")", st2);
  }

  /** `( T x )` lists the name alone. */
  lemma {:induction false} OneParameter(st: State, st1: State, st2: State, st3: State, st4: State)
    requires st.Valid() && st.cursor < |st.tokens| && st.tokens[st.cursor] == Operator("(")
    requires st1 == State(st.tokens, st.cursor + 1) && st1.cursor < |st1.tokens| && st1.tokens[st1.cursor].Type?
    requires st2 == State(st1.tokens, st1.cursor + 1) && st2.cursor < |st2.tokens| && st2.tokens[st2.cursor].Identifier?
    requires st3 == State(st2.tokens, st2.cursor + 1) && st3.cursor < |st3.tokens| && st3.tokens[st3.cursor] == Operator(")")
    requires st4 == State(st3.tokens, st3.cursor + 1)
    ensures ParameterList(st) == Step(Ok(PList([st2.tokens[st2.cursor].name])), st4)
  {
    var x := st2.tokens[st2.cursor].name;
    ConsumeOperator(st, "(", st1);
    VariableSimple(st1, st2, st3);
    IgnoreAbsent(st3, ",");
    assert Parameters([x], st3) == Step(Ok([x]), st3);
    assert [] + [x] == [x];
    assert Parameters([], st1) == Step(Ok([x]), st3);
    ConsumeOperator(st3, ")", st4);
  }

  /** One parameter, then whatever `ignore(",")` makes of the token after
      it, then the rest of the loop. */
  lemma {:induction false} ParamStep(names: seq<string>, st: State, name: string, st1: State, comma: Option<Value>,
                                     st2: State, names2: seq<string>, res: Step<seq<string>>)
    requires st.Valid() && st.cursor < |st.tokens| && st.tokens[st.cursor] != Operator(")")
    requires ParseVariable(st) == Step(Ok(name), st1)
    requires st1.Valid() && Ignore(st1, OPERATOR, Some(",")) == Step(Ok(comma), st2)
    requires st2.Valid() && names2 == names + [name] && Parameters(names2, st2) == res
    ensures Parameters(names, st) == res
  {
  }

  /** A list is its head followed by its tail, after any prefix. */
  lemma SplitHead<T>(a: seq<T>, b: seq<T>)
    requires b != []
    ensures a + [b[0]] + b[1..] == a + b
  {
    assert [b[0]] + b[1..] == b;
  }

  /** The parameter loop ends at `)`, which it leaves in place. */
  lemma {:induction false} ParamsClose(names: seq<string>, st: State)
    requires st.Valid() && st.cursor < |st.tokens| && st.tokens[st.cursor] == Operator(")")
    ensures Parameters(names, st) == Step(Ok(names), st)
  {
  }

  /** The parameters `names`, read one after another from `st`, each as a
      variable and an optional comma, none of them starting at `)`, end at
      `end`. */
  predicate ParametersFrom(st: State, names: seq<string>, end: State)
    requires st.Valid()
    decreases |names|
  {
    if names == [] then st == end
    else
      st.cursor < |st.tokens| && st.tokens[st.cursor] != Operator(")") &&
      var v := ParseVariable(st);
      v.r == Ok(names[0]) &&
      var comma := Ignore(v.st, OPERATOR, Some(","));
      comma.r.Ok? && ParametersFrom(comma.st, names[1..], end)
  }

  /** The first parameter of a non-empty run: the variable, the comma
      step after it, and the rest of the run from there. */
  lemma {:induction false} ParametersHead(st: State, names: seq<string>, end: State)
    returns (st1: State, comma: Option<Value>, st2: State)
    requires st.Valid() && ParametersFrom(st, names, end) && names != []
    ensures st.cursor < |st.tokens| && st.tokens[st.cursor] != Operator(")")
    ensures ParseVariable(st) == Step(Ok(names[0]), st1)
    ensures st1.Valid() && Ignore(st1, OPERATOR, Some(",")) == Step(Ok(comma), st2)
    ensures st2.Valid() && ParametersFrom(st2, names[1..], end)
  {
    st1 := ParseVariable(st).st;
    comma := Ignore(st1, OPERATOR, Some(",")).r.value;
    st2 := Ignore(st1, OPERATOR, Some(",")).st;
  }

  /** The loop of `parse_parameter_list` collects the names in order and
      stops at the `)` after them. */
  lemma {:induction false} ParametersRun(names0: seq<string>, st: State, names: seq<string>, end: State)
    requires st.Valid() && ParametersFrom(st, names, end)
    requires end.Valid() && end.cursor < |end.tokens| && end.tokens[end.cursor] == Operator(")")
    ensures Parameters(names0, st) == Step(Ok(names0 + names), end)
    decreases |names|
  {
    if names == [] {
      ParamsClose(names0, st);
      assert names0 + names == names0;
    } else {
      var st1, comma, st2 := ParametersHead(st, names, end);
      var names2 := names0 + [names[0]];
      ParametersRun(names2, st2, names[1..], end);
      SplitHead(names0, names);
      ParamStep(names0, st, names[0], st1, comma, st2, names2, Step(Ok(names0 + names), end));
    }
  }

  /** `(` parameters `)`: the list of their names, in order. */
  lemma {:induction false} ParameterListOf(st: State, st1: State, names: seq<string>, end: State, st2: State)
    requires st.Valid() && st.cursor < |st.tokens| && st.tokens[st.cursor] == Operator("(")
    requires st1 == State(st.tokens, st.cursor + 1) && ParametersFrom(st1, names, end)
    requires end.Valid() && end.cursor < |end.tokens| && end.tokens[end.cursor] == Operator(")")
    requires st2 == State(end.tokens, end.cursor + 1)
    ensures ParameterList(st) == Step(Ok(PList(names)), st2)
  {
    ConsumeOperator(st, "(", st1);
    ParametersRun([], st1, names, end);
    assert [] + names == names;
    ConsumeOperator(end, ")", st2);
  }

  /** `( T x , U y )` lists both names; the comma is taken. */
  lemma {:induction false} TwoParameters(t: seq<Token>, c: nat)
    requires c + 6 < |t| && t[c] == Operator("(") && t[c + 1].Type? && t[c + 2].Identifier?
    requires t[c + 3] == Operator(",") && t[c + 4].Type? && t[c + 5].Identifier? && t[c + 6] == Operator(")")
    ensures ParameterList(State(t, c)) == Step(Ok(PList([t[c + 2].name, t[c + 5].name])), State(t, c + 7))
  {
    var x, y := t[c + 2].name, t[c + 5].name;
    VariableSimple(State(t, c + 4), State(t, c + 5), State(t, c + 6));
    IgnoreAbsent(State(t, c + 6), ",");
    assert ParametersFrom(State(t, c + 4), [y], State(t, c + 6));
    VariableSimple(State(t, c + 1), State(t, c + 2), State(t, c + 3));
    TakesComma(State(t, c + 3), State(t, c + 4));
    assert [x, y][1..] == [y];
    assert ParametersFrom(State(t, c + 1), [x, y], State(t, c + 6));
    ParameterListOf(State(t, c), State(t, c + 1), [x, y], State(t, c + 6), State(t, c + 7));
  }

  // ---------------------------------------------------------------------
  // Function headers

  /** A header followed by `;` is a forward declaration. */
  lemma {:induction false} ForwardRound(st: State, st1: State, st2: State, params: Node, st3: State, st4: State)
    requires st.Valid() && st.cursor < |st.tokens| && st.tokens[st.cursor].Type?
    requires st1 == State(st.tokens, st.cursor + 1) && st1.cursor < |st1.tokens| && st1.tokens[st1.cursor].Identifier?
    requires st2 == State(st1.tokens, st1.cursor + 1) && ParameterList(st2) == Step(Ok(params), st3)
    requires st3.Valid() && st3.cursor < |st3.tokens| && st3.tokens[st3.cursor] == Operator(";")
    requires st4 == State(st3.tokens, st3.cursor + 1)
    ensures ParseToplevel(st) ==
      Step(Ok(FwdDecl(st.tokens[st.cursor].t, st1.tokens[st1.cursor].name, params)), st4)
  {
    ConsumeAny(st, TYPE, st1);
    ConsumeAny(st1, IDENTIFIER, st2);
    ConsumeOperator(st3, ";", st4);
  }

  /** A header followed by anything but `;` is a function with that block
      as its body. */
  lemma {:induction false} FunctionRound(st: State, st1: State, st2: State, params: Node, st3: State,
                                         body: Node, st4: State)
    requires st.Valid() && st.cursor < |st.tokens| && st.tokens[st.cursor].Type?
    requires st1 == State(st.tokens, st.cursor + 1) && st1.cursor < |st1.tokens| && st1.tokens[st1.cursor].Identifier?
    requires st2 == State(st1.tokens, st1.cursor + 1) && ParameterList(st2) == Step(Ok(params), st3)
    requires st3.Valid() && st3.cursor < |st3.tokens| && st3.tokens[st3.cursor] != Operator(";")
    requires ParseBlock(st3) == Step(Ok(body), st4)
    ensures ParseToplevel(st) ==
      Step(Ok(FunDecl(st.tokens[st.cursor].t, st1.tokens[st1.cursor].name, params, body)), st4)
  {
    ConsumeAny(st, TYPE, st1);
    ConsumeAny(st1, IDENTIFIER, st2);
    IgnoreAbsent(st3, ";");
    assert Text(st.tokens[st.cursor]) == st.tokens[st.cursor].t;
    assert Text(st1.tokens[st1.cursor]) == st1.tokens[st1.cursor].name;
  }

  /** `T f ( ) ;` is the forward declaration `(NFWDDECL, T, f, (NPLIST,))`. */
  lemma {:induction false} ForwardDeclaration(t: seq<Token>, c: nat)
    requires c + 4 < |t| && t[c].Type? && t[c + 1].Identifier?
    requires t[c + 2] == Operator("(") && t[c + 3] == Operator(")") && t[c + 4] == Operator(";")
    ensures ParseToplevel(State(t, c)) == Step(Ok(FwdDecl(t[c].t, t[c + 1].name, PList([]))), State(t, c + 5))
  {
    EmptyParameterList(State(t, c + 2), State(t, c + 3), State(t, c + 4));
    ForwardRound(State(t, c), State(t, c + 1), State(t, c + 2), PList([]), State(t, c + 4), State(t, c + 5));
  }

  /** `{ }` is the empty block. */
  lemma {:induction false} EmptyBraces(st: State, st1: State, st2: State)
    requires st.Valid() && st.cursor < |st.tokens| && st.tokens[st.cursor] == Operator("{")
    requires st1 == State(st.tokens, st.cursor + 1) && st1.cursor < |st1.tokens| && st1.tokens[st1.cursor] == Operator("}")
    requires st2 == State(st1.tokens, st1.cursor + 1)
    ensures ParseBlock(st) == Step(Ok(Block([])), st2)
  {
    ConsumeOperator(st, "{", st1);
    assert BlockItems([], st1) == Step(Ok([]), st1);
    ConsumeOperator(st1, "}", st2);
  }

  /** One statement of a braced block, then the rest of the loop. */
  lemma {:induction false} BlockStep(stmts: seq<Node>, st: State, n: Node, st1: State, stmts2: seq<Node>, res: Step<seq<Node>>)
    requires st.Valid() && st.cursor < |st.tokens| && st.tokens[st.cursor] != Operator("}")
    requires ParseStatement(st) == Step(Ok(n), st1)
    requires st1.Valid() && stmts2 == stmts + [n] && BlockItems(stmts2, st1) == res
    ensures BlockItems(stmts, st) == res
  {
  }

  /** The statements `ss`, parsed one after another from `st`, none of them
      starting at `}`, end at `end`. */
  predicate StatementsFrom(st: State, ss: seq<Node>, end: State)
    requires st.Valid()
    decreases |ss|
  {
    if ss == [] then st == end
    else
      st.cursor < |st.tokens| && st.tokens[st.cursor] != Operator("}") &&
      var s := ParseStatement(st);
      s.r == Ok(ss[0]) && StatementsFrom(s.st, ss[1..], end)
  }

  /** The statement loop of `parse_block` collects the statements in order
      and stops at the `}` after them. */
  lemma {:induction false} BlockRun(stmts: seq<Node>, st: State, ss: seq<Node>, end: State)
    requires st.Valid() && StatementsFrom(st, ss, end)
    requires end.Valid() && end.cursor < |end.tokens| && end.tokens[end.cursor] == Operator("}")
    ensures BlockItems(stmts, st) == Step(Ok(stmts + ss), end)
    decreases |ss|
  {
    if ss == [] {
      assert stmts + ss == stmts;
    } else {
      var s := ParseStatement(st);
      BlockRun(stmts + [ss[0]], s.st, ss[1..], end);
      SplitHead(stmts, ss);
      BlockStep(stmts, st, ss[0], s.st, stmts + [ss[0]], Step(Ok(stmts + ss), end));
    }
  }

  /** `{ s1 ... sn }` is the block of those statements, in order. */
  lemma {:induction false} BracedBlock(st: State, st1: State, ss: seq<Node>, end: State, st2: State)
    requires st.Valid() && st.cursor < |st.tokens| && st.tokens[st.cursor] == Operator("{")
    requires st1 == State(st.tokens, st.cursor + 1) && StatementsFrom(st1, ss, end)
    requires end.Valid() && end.cursor < |end.tokens| && end.tokens[end.cursor] == Operator("}")
    requires st2 == State(end.tokens, end.cursor + 1)
    ensures ParseBlock(st) == Step(Ok(Block(ss)), st2)
  {
    ConsumeOperator(st, "{", st1);
    BlockRun([], st1, ss, end);
    assert [] + ss == ss;
    ConsumeOperator(end, "}", st2);
  }

  /** `{ a ; b ; }` is the block of the two expression statements. */
  lemma {:induction false} TwoStatementBlock(t: seq<Token>, c: nat)
    requires c + 5 < |t| && t[c] == Operator("{") && IsOperand(t[c + 1]) && t[c + 2] == Operator(";")
    requires IsOperand(t[c + 3]) && t[c + 4] == Operator(";") && t[c + 5] == Operator("}")
    ensures ParseBlock(State(t, c)) == Step(Ok(Block([Term(t[c + 1]), Term(t[c + 3])])), State(t, c + 6))
  {
    var a, b := Term(t[c + 1]), Term(t[c + 3]);
    ExpressionStatement(State(t, c + 3), State(t, c + 4), State(t, c + 5));
    assert StatementsFrom(State(t, c + 3), [b], State(t, c + 5));
    ExpressionStatement(State(t, c + 1), State(t, c + 2), State(t, c + 3));
    assert [a, b][1..] == [b];
    assert StatementsFrom(State(t, c + 1), [a, b], State(t, c + 5));
    BracedBlock(State(t, c), State(t, c + 1), [a, b], State(t, c + 5), State(t, c + 6));
  }

  /** `T f ( ) { }` is the function `(NFUNDECL, T, f, (NPLIST,), (NBLOCK,))`. */
  lemma {:induction false} EmptyFunction(t: seq<Token>, c: nat)
    requires c + 5 < |t| && t[c].Type? && t[c + 1].Identifier?
    requires t[c + 2] == Operator("(") && t[c + 3] == Operator(")")
    requires t[c + 4] == Operator("{") && t[c + 5] == Operator("}")
    ensures ParseToplevel(State(t, c)) ==
      Step(Ok(FunDecl(t[c].t, t[c + 1].name, PList([]), Block([]))), State(t, c + 6))
  {
    EmptyParameterList(State(t, c + 2), State(t, c + 3), State(t, c + 4));
    EmptyBraces(State(t, c + 4), State(t, c + 5), State(t, c + 6));
    FunctionRound(State(t, c), State(t, c + 1), State(t, c + 2), PList([]), State(t, c + 4),
                  Block([]), State(t, c + 6));
  }

  /** `T f ( ) a ;`: a body without braces is the block of its one
      statement. */
  lemma {:induction false} UnbracedFunction(t: seq<Token>, c: nat)
    requires c + 5 < |t| && t[c].Type? && t[c + 1].Identifier?
    requires t[c + 2] == Operator("(") && t[c + 3] == Operator(")")
    requires IsOperand(t[c + 4]) && t[c + 5] == Operator(";")
    ensures ParseToplevel(State(t, c)) ==
      Step(Ok(FunDecl(t[c].t, t[c + 1].name, PList([]), Block([Term(t[c + 4])]))), State(t, c + 6))
  {
    EmptyParameterList(State(t, c + 2), State(t, c + 3), State(t, c + 4));
    SingleStatementBlock(State(t, c + 4), State(t, c + 5), State(t, c + 6));
    FunctionRound(State(t, c), State(t, c + 1), State(t, c + 2), PList([]), State(t, c + 4),
                  Block([Term(t[c + 4])]), State(t, c + 6));
  }

  // ---------------------------------------------------------------------
  // The parse loop

  /** A declaration read from `st` comes first, before whatever the loop
      reads after it. */
  lemma {:induction false} ParseStep(st: State, n: Node, st1: State, rest: Parsed)
    requires st.Valid() && ParseToplevel(st) == Step(Ok(n), st1)
    requires st1.Valid() && ParseFrom(st1) == rest
    ensures ParseFrom(st) == Parsed([n] + rest.nodes, rest.error)
  {
  }

  /** At the end of the tokens the loop ends silently. */
  lemma {:induction false} ParseAtEnd(st: State)
    requires st.Valid() && st.cursor == |st.tokens|
    ensures ParseFrom(st) == Parsed([], None)
  {
    assert ParseToplevel(st).r == Err(IndexError);
  }

  /** `T f` at the end of the tokens: the IndexError raised while reading
      the header ends the parse silently, with nothing yielded. */
  lemma {:induction false} TruncatedHeader(t: seq<Token>, c: nat)
    requires c + 2 == |t| && t[c].Type? && t[c + 1].Identifier?
    ensures ParseFrom(State(t, c)) == Parsed([], None)
  {
    assert ParseToplevel(State(t, c)).r == Err(IndexError);
  }

  /** A token that is not a type cannot start a declaration: the parse
      stops with that UnexpectedToken and yields nothing. */
  lemma {:induction false} NotAType(t: seq<Token>, c: nat)
    requires c < |t| && !t[c].Type?
    ensures ParseFrom(State(t, c)) == Parsed([], Some(UnexpectedToken(t[c], Expect(TYPE, None))))
  {
    assert ParseToplevel(State(t, c)).r == Err(UnexpectedToken(t[c], Expect(TYPE, None)));
  }

  /** `T f ( ) ; T g` as the whole input: the forward declaration is
      yielded, and the half-read second header ends the parse without an
      error. */
  lemma {:induction false} ForwardThenTruncated(t: seq<Token>)
    requires |t| == 7 && t[0].Type? && t[1].Identifier?
    requires t[2] == Operator("(") && t[3] == Operator(")") && t[4] == Operator(";")
    requires t[5].Type? && t[6].Identifier?
    ensures Parse(t) == Parsed([FwdDecl(t[0].t, t[1].name, PList([]))], None)
  {
    var n := FwdDecl(t[0].t, t[1].name, PList([]));
    ForwardDeclaration(t, 0);
    TruncatedHeader(t, 5);
    ParseStep(State(t, 0), n, State(t, 5), Parsed([], None));
    assert [n] + [] == [n];
  }

  /** `T f ( ) { }` as the whole input: the function is yielded, and the
      end of the tokens ends the parse without an error. */
  lemma {:induction false} EmptyFunctionAlone(t: seq<Token>)
    requires |t| == 6 && t[0].Type? && t[1].Identifier?
    requires t[2] == Operator("(") && t[3] == Operator(")") && t[4] == Operator("{") && t[5] == Operator("}")
    ensures Parse(t) == Parsed([FunDecl(t[0].t, t[1].name, PList([]), Block([]))], None)
  {
    var n := FunDecl(t[0].t, t[1].name, PList([]), Block([]));
    EmptyFunction(t, 0);
    ParseAtEnd(State(t, 6));
    ParseStep(State(t, 0), n, State(t, 6), Parsed([], None));
    assert [n] + [] == [n];
  }
}
