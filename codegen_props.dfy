/** Properties of the lowering: the context each name gets, the operator
    tables, which statements are wrapped in `Expr`, and what the parser's
    shapes become. */
module CodegenProperties {
  import opened Lexer
  import opened Cursor
  import Grammar
  import opened Codegen
  import ToplevelProperties

  // ---------------------------------------------------------------------
  // Names

  /** An identifier used as an operand is loaded. */
  lemma {:induction false} IdentifierLoads(x: string)
    ensures Transform(Grammar.Term(Identifier(x))) == Ok(Name(x, Load))
  {
  }

  /** Every name of a parameter list is lowered in Param mode, in order. */
  lemma {:induction false} ParametersAsParam(names: seq<string>)
    ensures Transform(Grammar.PList(names)).Ok?
    ensures Transform(Grammar.PList(names)).value.Arguments?
    ensures |Transform(Grammar.PList(names)).value.names| == |names|
    ensures forall i :: 0 <= i < |names| ==> Transform(Grammar.PList(names)).value.names[i] == Name(names[i], Param)
  {
  }

  /** Operand tokens that are not names, numbers, characters or strings
      have no entry in the dispatch table, and neither does the kind of a
      declaration with an initialiser, which is a tuple. */
  lemma {:induction false} UnlistedKindsRaise(tok: Token, x: string, init: Grammar.Node)
    requires tok.Type? || tok.Keyword? || tok.Operator?
    ensures Transform(Grammar.Term(tok)) == Err(KeyError)
    ensures Transform(Grammar.DeclInit(x, init)) == Err(KeyError)
  {
  }

  // ---------------------------------------------------------------------
  // Operator tables

  /** The spellings `transform_assign` accepts. */
  lemma {:induction false} AssignTable(op: string)
    ensures AssignOperator(op).Some? <==> op in ["=", "+=", "-=", "*=", "/="]
    ensures AssignOperator(op) == Some(None) <==> op == "="
    ensures AssignOperator(op) == Some(Some(Add)) <==> op == "+="
    ensures AssignOperator(op) == Some(Some(Sub)) <==> op == "-="
    ensures AssignOperator(op) == Some(Some(Mult)) <==> op == "*="
    ensures AssignOperator(op) == Some(Some(Div)) <==> op == "/="
  {
  }

  /** The three tables of `transform_op` are disjoint, and none lists an
      assignment. */
  lemma {:induction false} OperatorTablesDisjoint(op: string)
    ensures BinOperatorOf(op).Some? ==> CmpOperatorOf(op).None? && BoolOperatorOf(op).None?
    ensures CmpOperatorOf(op).Some? ==> BoolOperatorOf(op).None?
    ensures AssignOperator(op).Some? ==>
      BinOperatorOf(op).None? && CmpOperatorOf(op).None? && BoolOperatorOf(op).None?
  {
  }

  // ---------------------------------------------------------------------
  // Assignments

  /** An assignment that does not raise KeyError is the node's lowering. */
  lemma {:induction false} AssignmentDecides(op: string, e1: Grammar.Node, e2: Grammar.Node, res: Result<Py>)
    requires TransformAssign(op, e1, e2) == res && res != Err(KeyError)
    ensures Transform(Grammar.Binary(op, e1, e2)) == res
  {
  }

  /** `x = e`: the target in Store mode and the value as lowered. */
  lemma {:induction false} PlainAssignment(e1: Grammar.Node, e2: Grammar.Node, l: Py, r: Py)
    requires Transform(e1) == Ok(l) && l.Name? && Transform(e2) == Ok(r)
    ensures Transform(Grammar.Binary("=", e1, e2)) == Ok(Assign([Name(l.id, Store)], r))
  {
    assert SetCtx(l, Store) == Ok(Name(l.id, Store));
    assert TransformAssign("=", e1, e2) == Ok(Assign([Name(l.id, Store)], r));
    AssignmentDecides("=", e1, e2, Ok(Assign([Name(l.id, Store)], r)));
  }

  /** `x op= e`: the target in Store mode, and a BinOp of the target as
      first lowered (in Load mode) with the value, by the operator the
      table gives `op`. */
  lemma {:induction false} CompoundAssignment(op: string, bop: BinOperator, e1: Grammar.Node, e2: Grammar.Node, l: Py, r: Py)
    requires AssignOperator(op) == Some(Some(bop))
    requires Transform(e1) == Ok(l) && l.Name? && Transform(e2) == Ok(r)
    ensures Transform(Grammar.Binary(op, e1, e2)) == Ok(Assign([Name(l.id, Store)], BinOp(l, bop, r)))
  {
    assert SetCtx(l, Store) == Ok(Name(l.id, Store));
    assert TransformAssign(op, e1, e2) == Ok(Assign([Name(l.id, Store)], BinOp(l, bop, r)));
    AssignmentDecides(op, e1, e2, Ok(Assign([Name(l.id, Store)], BinOp(l, bop, r))));
  }

  /** A spelling that is not an assignment misses the table of
      `transform_assign`, and its KeyError hands the node to `transform_op`. */
  lemma {:induction false} NonAssignmentFallsThrough(op: string, e1: Grammar.Node, e2: Grammar.Node)
    requires AssignOperator(op).None?
    ensures Transform(Grammar.Binary(op, e1, e2)) == TransformOp(op, e1, e2)
  {
  }

  /** A KeyError raised while lowering an assignment's target or value is
      caught the same way, and `transform_op`, which lists no assignment,
      returns None. */
  lemma {:induction false} AssignmentOperandKeyError(op: string, e1: Grammar.Node, e2: Grammar.Node)
    requires AssignOperator(op).Some?
    requires Transform(e1) == Err(KeyError) ||
      (Transform(e1).Ok? && Transform(e1).value.Name? && Transform(e2) == Err(KeyError))
    ensures Transform(Grammar.Binary(op, e1, e2)) == Ok(NoneValue)
  {
    OperatorTablesDisjoint(op);
    assert TransformAssign(op, e1, e2) == Err(KeyError);
  }

  /** `&x = e` lowers to None: `&` has no entry, and the KeyError escapes
      the assignment. */
  lemma {:induction false} AddressAssignmentIsNone(x: string, e2: Grammar.Node)
    ensures Transform(Grammar.Binary("=", Grammar.LUnary("&", Grammar.Term(Identifier(x))), e2)) == Ok(NoneValue)
  {
    AddressOfRaises(Grammar.Term(Identifier(x)));
    AssignmentOperandKeyError("=", Grammar.LUnary("&", Grammar.Term(Identifier(x))), e2);
  }

  // ---------------------------------------------------------------------
  // transform_op

  /** Arithmetic and bitwise spellings give a BinOp of the two operands. */
  lemma {:induction false} ArithmeticLowering(op: string, e1: Grammar.Node, e2: Grammar.Node, l: Py, r: Py)
    requires BinOperatorOf(op).Some? && Transform(e1) == Ok(l) && Transform(e2) == Ok(r)
    ensures Transform(Grammar.Binary(op, e1, e2)) == Ok(BinOp(l, BinOperatorOf(op).value, r))
  {
    OperatorTablesDisjoint(op);
  }

  /** Comparisons give a Compare with one operator and one comparator. */
  lemma {:induction false} ComparisonLowering(op: string, e1: Grammar.Node, e2: Grammar.Node, l: Py, r: Py)
    requires CmpOperatorOf(op).Some? && Transform(e1) == Ok(l) && Transform(e2) == Ok(r)
    ensures Transform(Grammar.Binary(op, e1, e2)) == Ok(Compare(l, [CmpOperatorOf(op).value], [r]))
  {
    OperatorTablesDisjoint(op);
  }

  /** `&&` and `||` give a BoolOp of the two operands. */
  lemma {:induction false} BooleanLowering(op: string, e1: Grammar.Node, e2: Grammar.Node, l: Py, r: Py)
    requires BoolOperatorOf(op).Some? && Transform(e1) == Ok(l) && Transform(e2) == Ok(r)
    ensures Transform(Grammar.Binary(op, e1, e2)) == Ok(BoolOp(l, BoolOperatorOf(op).value, r))
  {
    OperatorTablesDisjoint(op);
  }

  /** A spelling in no table lowers to None, whatever its operands. */
  lemma {:induction false} UnlistedOperatorIsNone(op: string, e1: Grammar.Node, e2: Grammar.Node)
    requires AssignOperator(op).None? && BinOperatorOf(op).None? && CmpOperatorOf(op).None? && BoolOperatorOf(op).None?
    ensures Transform(Grammar.Binary(op, e1, e2)) == Ok(NoneValue)
  {
  }

  // ---------------------------------------------------------------------
  // Unary operators

  /** Prefix `++`/`--` on a name is the sum or difference with 1 in Load
      mode: nothing is assigned, so as a statement it is only an Expr. */
  lemma {:induction false} PrefixStepDoesNotAssign(op: string, e: Grammar.Node, p: Py)
    requires op == "++" || op == "--"
    requires Transform(e) == Ok(p) && p.Name?
    ensures Transform(Grammar.LUnary(op, e)) ==
      Ok(BinOp(Name(p.id, Load), if op == "++" then Add else Sub, Num(Int(1))))
    ensures TransformStatement(Grammar.LUnary(op, e)) ==
      Ok(Expr(BinOp(Name(p.id, Load), if op == "++" then Add else Sub, Num(Int(1)))))
  {
  }

  /** `+ - ! ~` give a UnaryOp of the operand. */
  lemma {:induction false} UnaryLowering(op: string, e: Grammar.Node, v: Py)
    requires op in ["+", "-", "!", "~"] && Transform(e) == Ok(v)
    ensures Transform(Grammar.LUnary(op, e)) ==
      Ok(UnaryOp(if op == "+" then UAdd else if op == "-" then USub else if op == "!" then Not else Invert, v))
  {
  }

  /** `&` has no entry in either table of `transform_lunary`. */
  lemma {:induction false} AddressOfRaises(e: Grammar.Node)
    ensures Transform(Grammar.LUnary("&", e)) == Err(KeyError)
  {
  }

  /** Postfix `++`/`--` lowers to its operand in Load mode: the operator
      is dropped. */
  lemma {:induction false} PostfixIsOperand(op: string, e: Grammar.Node, p: Py)
    requires Transform(e) == Ok(p) && p.Name?
    ensures Transform(Grammar.RUnary(op, e)) == Ok(Name(p.id, Load))
  {
  }

  // ---------------------------------------------------------------------
  // Statements

  /** The forms `transform_statement` returns. */
  predicate IsStatement(q: Py) {
    q.Assign? || q.If? || q.While? || q.Return? || q.Expr?
  }

  /** Outside a declaration with an initialiser, a statement is the node's
      lowering when that is an Assign, If, While or Return, and that
      lowering wrapped in Expr otherwise. */
  lemma {:induction false} StatementWrapping(n: Grammar.Node, q: Py)
    requires !n.DeclInit? && TransformStatement(n) == Ok(q)
    ensures IsStatement(q)
    ensures q.Expr? <==> !IsBareStatement(Transform(n).value)
    ensures Transform(n) == Ok(if q.Expr? then q.value else q)
  {
  }

  /** `int x = e;`, which the parser rewinds to `((NDECL, x), (=, x, e))`,
      lowers to the assignment of `e` to `x` alone. */
  lemma {:induction false} InitialisedDeclaration(x: string, e: Grammar.Node, r: Py)
    requires Transform(e) == Ok(r)
    ensures TransformStatement(Grammar.DeclInit(x, Grammar.Binary("=", Grammar.Term(Identifier(x)), e))) ==
      Ok(Assign([Name(x, Store)], r))
  {
    IdentifierLoads(x);
    PlainAssignment(Grammar.Term(Identifier(x)), e, Name(x, Load), r);
  }

  /** `int x;` lowers to the assignment of None to `x`. */
  lemma {:induction false} BareDeclarationLowers(x: string)
    ensures TransformStatement(Grammar.Decl(x)) == Ok(Assign([Name(x, Store)], Name("None", Load)))
  {
  }

  // ---------------------------------------------------------------------
  // Control flow

  /** `if` without `else` has the empty list as its orelse. */
  lemma {:induction false} IfWithoutElse(cond: Grammar.Node, body: Grammar.Node, c: Py, b: Py)
    requires Transform(cond) == Ok(c) && Transform(body) == Ok(b)
    ensures Transform(Grammar.If(cond, body, None)) == Ok(If(c, b, List([])))
  {
  }

  /** With `else`, the else block's list is the orelse. */
  lemma {:induction false} IfWithElse(cond: Grammar.Node, body: Grammar.Node, els: Grammar.Node, c: Py, b: Py, o: Py)
    requires Transform(cond) == Ok(c) && Transform(body) == Ok(b)
    requires Transform(els) == Ok(o) && o.List?
    ensures Transform(Grammar.If(cond, body, Some(Grammar.Else(els)))) == Ok(If(c, b, o))
  {
    assert Transform(Grammar.Else(els)) == Ok(o);
  }

  /** A tail that lowers to an If is wrapped in a one-element list. */
  lemma {:induction false} IfWithIfTail(cond: Grammar.Node, body: Grammar.Node, tail: Grammar.Node, c: Py, b: Py, o: Py)
    requires Transform(cond) == Ok(c) && Transform(body) == Ok(b)
    requires Transform(tail) == Ok(o) && o.If?
    ensures Transform(Grammar.If(cond, body, Some(tail))) == Ok(If(c, b, List([o])))
  {
  }

  /** `while` has the empty list as its orelse. */
  lemma {:induction false} WhileLowering(cond: Grammar.Node, body: Grammar.Node, c: Py, b: Py)
    requires Transform(cond) == Ok(c) && Transform(body) == Ok(b)
    ensures Transform(Grammar.While(cond, Some(body))) == Ok(While(c, b, List([])))
  {
  }

  /** Bare `if` and `while`, and a `for` without a body, have too few
      children to unpack. */
  lemma {:induction false} BareFormsRaise(cond: Grammar.Node, e1: Option<Grammar.Node>, e2: Option<Grammar.Node>,
                                          e3: Option<Grammar.Node>)
    ensures Transform(Grammar.IfBare(cond)) == Err(ValueError)
    ensures Transform(Grammar.While(cond, None)) == Err(ValueError)
    ensures Transform(Grammar.For(e1, e2, e3, None)) == Err(ValueError)
  {
  }

  /** `transform_for` only prints its lowered parts and returns None: a
      `for` statement becomes the expression statement of None. */
  lemma {:induction false} ForLowersToNone(e1: Grammar.Node, e2: Grammar.Node, e3: Grammar.Node, body: Grammar.Node,
                                           v1: Py, v2: Py, v3: Py, b: Py)
    requires Transform(e1) == Ok(v1) && Transform(e2) == Ok(v2) && Transform(e3) == Ok(v3)
    requires Transform(body) == Ok(b)
    ensures Transform(Grammar.For(Some(e1), Some(e2), Some(e3), Some(body))) == Ok(NoneValue)
    ensures TransformStatement(Grammar.For(Some(e1), Some(e2), Some(e3), Some(body))) == Ok(Expr(NoneValue))
  {
    assert TransformClause(Some(e1)) == Ok(v1);
    assert TransformClause(Some(e2)) == Ok(v2);
    assert TransformClause(Some(e3)) == Ok(v3);
  }

  /** An omitted first clause of a `for` with a body is None, and
      transforming None raises TypeError. */
  lemma {:induction false} OmittedClauseRaises(e2: Option<Grammar.Node>, e3: Option<Grammar.Node>, body: Grammar.Node)
    ensures Transform(Grammar.For(None, e2, e3, Some(body))) == Err(TypeError)
  {
  }

  /** `return e` carries the lowered value, a bare `return` nothing. */
  lemma {:induction false} ReturnLowering(e: Grammar.Node, v: Py)
    requires Transform(e) == Ok(v)
    ensures Transform(Grammar.Return(Some(e))) == Ok(Return(Some(v)))
    ensures Transform(Grammar.Return(None)) == Ok(Return(None))
  {
  }

  // ---------------------------------------------------------------------
  // Lists of nodes

  /** `map(self.transform, nodes)`: the list of the lowerings in order when
      each succeeds; otherwise the error of the first that raises. */
  lemma {:induction false} TransformAllPointwise(nodes: seq<Grammar.Node>)
    ensures TransformAll(nodes).Ok? <==> forall i :: 0 <= i < |nodes| ==> Transform(nodes[i]).Ok?
    ensures TransformAll(nodes).Ok? ==>
      |TransformAll(nodes).value| == |nodes| &&
      forall i :: 0 <= i < |nodes| ==> Transform(nodes[i]) == Ok(TransformAll(nodes).value[i])
    ensures TransformAll(nodes).Err? ==>
      exists k :: 0 <= k < |nodes| && Transform(nodes[k]) == Err(TransformAll(nodes).error) &&
        forall j :: 0 <= j < k ==> Transform(nodes[j]).Ok?
    decreases |nodes|
  {
    if nodes != [] {
      TransformAllPointwise(nodes[1..]);
      if Transform(nodes[0]).Ok? && TransformAll(nodes[1..]).Err? {
        var k :| 0 <= k < |nodes[1..]| && Transform(nodes[1..][k]) == Err(TransformAll(nodes[1..]).error) &&
          forall j :: 0 <= j < k ==> Transform(nodes[1..][j]).Ok?;
        assert Transform(nodes[k + 1]) == Err(TransformAll(nodes).error);
        forall j | 0 <= j < k + 1 ensures Transform(nodes[j]).Ok? {
          if j > 0 { assert nodes[j] == nodes[1..][j - 1]; }
        }
      }
      if Transform(nodes[0]).Ok? && TransformAll(nodes[1..]).Ok? {
        forall i | 0 <= i < |nodes| ensures Transform(nodes[i]) == Ok(TransformAll(nodes).value[i]) {
          if i > 0 { assert nodes[i] == nodes[1..][i - 1]; }
        }
      }
      if !Transform(nodes[0]).Ok? {
        assert TransformAll(nodes).Err?;
      }
    }
  }

  /** `transform_block`: the block's statements lowered in order. */
  lemma {:induction false} BlockPointwise(stmts: seq<Grammar.Node>)
    ensures TransformStatements(stmts).Ok? <==> forall i :: 0 <= i < |stmts| ==> TransformStatement(stmts[i]).Ok?
    ensures TransformStatements(stmts).Ok? ==>
      |TransformStatements(stmts).value| == |stmts| &&
      forall i :: 0 <= i < |stmts| ==> TransformStatement(stmts[i]) == Ok(TransformStatements(stmts).value[i])
    decreases |stmts|
  {
    if stmts != [] {
      BlockPointwise(stmts[1..]);
      if TransformStatement(stmts[0]).Ok? && TransformStatements(stmts[1..]).Ok? {
        forall i | 0 <= i < |stmts| ensures TransformStatement(stmts[i]) == Ok(TransformStatements(stmts).value[i]) {
          if i > 0 { assert stmts[i] == stmts[1..][i - 1]; }
        }
      } else if TransformStatement(stmts[0]).Ok? {
        var i :| 0 <= i < |stmts[1..]| && !TransformStatement(stmts[1..][i]).Ok?;
        assert stmts[i + 1] == stmts[1..][i];
      }
    }
  }

  // ---------------------------------------------------------------------
  // Functions and modules

  /** A function declaration lowers to a FunctionDef of its name, its
      parameters and its body, with no decorators. */
  lemma {:induction false} FunctionLowering(t: string, name: string, names: seq<string>, body: Grammar.Node, b: Py)
    requires Transform(body) == Ok(b)
    ensures Transform(Grammar.FunDecl(t, name, Grammar.PList(names), body)) ==
      Ok(FunctionDef(name, Transform(Grammar.PList(names)).value, b, []))
  {
    ParametersAsParam(names);
  }

  /** A forward declaration has no fourth child: lowering it raises
      IndexError, and so does the module it heads. */
  lemma {:induction false} ForwardDeclarationRaises(t: string, name: string, params: Grammar.Node,
                                                    p: Grammar.Parsed, main: bool)
    ensures Transform(Grammar.FwdDecl(t, name, params)) == Err(IndexError)
    ensures Lower(Grammar.Parsed([Grammar.FwdDecl(t, name, params)] + p.nodes, p.error), main) == Err(IndexError)
  {
    LowerCons(Grammar.FwdDecl(t, name, params), p, main);
  }

  /** The module lists the lowered top-level nodes in source order, then
      `main()` exactly when asked for. */
  lemma {:induction false} ModuleLowering(p: Grammar.Parsed, main: bool)
    requires p.error.None? && TransformAll(p.nodes).Ok?
    ensures Lower(p, main).Ok? && Lower(p, main).value.Module?
    ensures |Lower(p, main).value.stmts| == |p.nodes| + (if main then 1 else 0)
    ensures forall i :: 0 <= i < |p.nodes| ==> Transform(p.nodes[i]) == Ok(Lower(p, main).value.stmts[i])
    ensures main ==> Lower(p, main).value.stmts[|p.nodes|] == MainCall
  {
    TransformAllPointwise(p.nodes);
  }

  /** `T f ( ) ; T g` as the whole input: the forward declaration is
      parsed, and the module cannot be generated. */
  lemma {:induction false} ForwardDeclarationModule(t: seq<Token>, main: bool)
    requires |t| == 7 && t[0].Type? && t[1].Identifier?
    requires t[2] == Operator("(") && t[3] == Operator(")") && t[4] == Operator(";")
    requires t[5].Type? && t[6].Identifier?
    ensures GenModuleOf(t, main) == Err(IndexError)
  {
    ToplevelProperties.ForwardThenTruncated(t);
    ForwardDeclarationRaises(t[0].t, t[1].name, Grammar.PList([]), Grammar.Parsed([], None), main);
    assert [Grammar.FwdDecl(t[0].t, t[1].name, Grammar.PList([]))] + [] == [Grammar.FwdDecl(t[0].t, t[1].name, Grammar.PList([]))];
  }

  /** `T f ( ) { }` as the whole input: a module holding the empty function
      `f`, then `main()` when asked for. */
  lemma {:induction false} EmptyFunctionModule(t: seq<Token>)
    requires |t| == 6 && t[0].Type? && t[1].Identifier?
    requires t[2] == Operator("(") && t[3] == Operator(")") && t[4] == Operator("{") && t[5] == Operator("}")
    ensures GenModuleOf(t, false) == Ok(Module([FunctionDef(t[1].name, Arguments([], None, None, []), List([]), [])]))
    ensures GenModuleOf(t, true) ==
      Ok(Module([FunctionDef(t[1].name, Arguments([], None, None, []), List([]), []), MainCall]))
  {
    var f := Grammar.FunDecl(t[0].t, t[1].name, Grammar.PList([]), Grammar.Block([]));
    var def := FunctionDef(t[1].name, Arguments([], None, None, []), List([]), []);
    ToplevelProperties.EmptyFunctionAlone(t);
    assert Transform(Grammar.Block([])) == Ok(List([]));
    ParametersAsParam([]);
    assert Transform(Grammar.PList([])).value.names == [];
    FunctionLowering(t[0].t, t[1].name, [], Grammar.Block([]), List([]));
    TransformAllCons(f, [], def);
    assert [f] + [] == [f];
    assert [def] + [] == [def] && [def] + [MainCall] == [def, MainCall];
  }
}
