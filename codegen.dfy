/** The lowering of the parser's nodes to Python `ast` nodes, and the
    module generator.

    `Transform` is the dispatch of `Codegen.transform` together with its
    handlers, written as one function over `Grammar.Node`: every handler
    reached through the dispatch table is a case of the match. Python's
    exceptions are `Err` results, raised in the order the handlers evaluate
    their arguments. */
module Codegen {
  import opened Lexer
  import opened Cursor
  import Grammar
  import Parsing

  /** The `ctx` of a Name: `ast.Load`, `ast.Store` or `ast.Param`. */
  datatype Ctx = Load | Store | Param

  /** The operator classes the lowering instantiates. */
  datatype BinOperator = Add | Sub | Mult | Div | Mod | BitAnd | BitOr | BitXor | LShift | RShift
  datatype CmpOperator = Eq | NotEq | GtE | LtE | Lt | Gt
  datatype BoolOperator = And | Or
  datatype UnaryOperator = UAdd | USub | Not | Invert

  /** The Python values the lowering builds: `ast` nodes, built exactly as
      the handlers call their constructors, plus the two plain Python values
      a handler can return, a list and None. */
  datatype Py =
    | Name(id: string, ctx: Ctx)
    | Num(n: Lexer.Num)
    | Str(s: string)
    | BinOp(left: Py, op: BinOperator, right: Py)
    | UnaryOp(uop: UnaryOperator, operand: Py)
    | Compare(first: Py, ops: seq<CmpOperator>, comparators: seq<Py>)
    | BoolOp(lhs: Py, boolOp: BoolOperator, rhs: Py)       // the three positional arguments as written
    | Call(func: Py, args: seq<Py>)                          // keywords [], starargs None, kwargs None
    | Assign(targets: seq<Py>, value: Py)
    | If(test: Py, body: Py, orelse: Py)
    | While(test: Py, body: Py, orelse: Py)
    | Return(result: Option<Py>)
    | Expr(value: Py)
    | FunctionDef(name: string, params: Py, body: Py, decorators: seq<Py>)
    | Arguments(names: seq<Py>, vararg: Option<string>, kwarg: Option<string>, defaults: seq<Py>)
    | Module(stmts: seq<Py>)
    | List(items: seq<Py>)
    | NoneValue

  /** The `bop` table of `transform_lunary`. */
  function StepOperator(op: string): Option<BinOperator> {
    if op == "++" then Some(Add)
    else if op == "--" then Some(Sub)
    else None
  }

  /** The `uop` table of `transform_lunary`. */
  function UnaryOperatorOf(op: string): Option<UnaryOperator> {
    if op == "+" then Some(UAdd)
    else if op == "-" then Some(USub)
    else if op == "!" then Some(Not)
    else if op == "~" then Some(Invert)
    else None
  }

  /** The table of `transform_assign`: `=` maps to None, each compound
      assignment to its arithmetic operator; a miss is a KeyError. */
  function AssignOperator(op: string): Option<Option<BinOperator>> {
    if op == "=" then Some(None)
    else if op == "+=" then Some(Some(Add))
    else if op == "-=" then Some(Some(Sub))
    else if op == "*=" then Some(Some(Mult))
    else if op == "/=" then Some(Some(Div))
    else None
  }

  /** The `binop` table of `transform_op`. */
  function BinOperatorOf(op: string): Option<BinOperator> {
    if op == "+" then Some(Add)
    else if op == "-" then Some(Sub)
    else if op == "*" then Some(Mult)
    else if op == "/" then Some(Div)
    else if op == "%" then Some(Mod)
    else if op == "&" then Some(BitAnd)
    else if op == "|" then Some(BitOr)
    else if op == "^" then Some(BitXor)
    else if op == "<<" then Some(LShift)
    else if op == ">>" then Some(RShift)
    else None
  }

  /** The `cmpop` table of `transform_op`. */
  function CmpOperatorOf(op: string): Option<CmpOperator> {
    if op == "==" then Some(Eq)
    else if op == "!=" then Some(NotEq)
    else if op == ">=" then Some(GtE)
    else if op == "<=" then Some(LtE)
    else if op == "<" then Some(Lt)
    else if op == ">" then Some(Gt)
    else None
  }

  /** The `boolop` table of `transform_op`. */
  function BoolOperatorOf(op: string): Option<BoolOperator> {
    if op == "&&" then Some(And)
    else if op == "||" then Some(Or)
    else None
  }

  /** Setting an attribute on a handler's result: None and lists have no
      attributes to set, so that raises AttributeError. */
  function Attributable(p: Py): (r: Result<()>)
    ensures r.Err? <==> p.NoneValue? || p.List?
    ensures r.Err? ==> r.error == AttributeError
  {
    if p.NoneValue? || p.List? then Err(AttributeError) else Ok(())
  }

  /** `node.ctx = ctx`: a Name takes the new context; any other `ast` node
      keeps its fields (the extra attribute plays no part). */
  function SetCtx(p: Py, ctx: Ctx): (r: Result<Py>)
    ensures r.Err? <==> p.NoneValue? || p.List?
    ensures r.Err? ==> r.error == AttributeError
    ensures r.Ok? && p.Name? ==> r.value == Name(p.id, ctx)
    ensures r.Ok? && !p.Name? ==> r.value == p
  {
    var _ :- Attributable(p);
    if p.Name? then Ok(Name(p.id, ctx)) else Ok(p)
  }

  /** The statements that `transform_statement` returns without an Expr
      wrapper. */
  predicate IsBareStatement(p: Py) {
    p.Assign? || p.If? || p.While? || p.Return?
  }

  /** `transform(node)`: dispatch on the node's kind to its handler. */
  function Transform(n: Grammar.Node): Result<Py>
    decreases n, 1
  {
    match n
    case FunDecl(_, name, params, body) =>
      // transform_function_declaration
      var ps :- Transform(params);
      var b :- Transform(body);
      Ok(FunctionDef(name, ps, b, []))
    case FwdDecl(_, _, _) =>
      // transform_function_declaration reads children[3] of a three-child node
      Err(IndexError)
    case PList(names) =>
      Ok(Arguments(seq(|names|, i requires 0 <= i < |names| => Name(names[i], Param)), None, None, []))
    case Block(stmts) =>
      var items :- TransformStatements(stmts);
      Ok(List(items))
    case Decl(name) =>
      Ok(Assign([Name(name, Store)], Name("None", Load)))
    case DeclInit(_, _) =>
      // the kind is the tuple (NDECL, name), which the table lacks
      Err(KeyError)
    case IfBare(_) =>
      // `(cond, body), orelse = children[:2], children[2:]` with one child
      Err(ValueError)
    case If(cond, body, tail) =>
      var c :- Transform(cond);
      var b :- Transform(body);
      (match tail
       case None => Ok(If(c, b, List([])))
       case Some(t) =>
         var o :- Transform(t);
         Ok(If(c, b, if o.If? then List([o]) else o)))
    case Else(body) =>
      Transform(body)
    case For(e1, e2, e3, body) =>
      if body.None? then Err(ValueError)
      else
        var _ :- TransformClause(e1);
        var _ :- TransformClause(e2);
        var _ :- TransformClause(e3);
        var _ :- Transform(body.value);
        Ok(NoneValue)
    case While(cond, body) =>
      if body.None? then Err(ValueError)
      else
        var c :- Transform(cond);
        var b :- Transform(body.value);
        Ok(While(c, b, List([])))
    case Return(value) =>
      (match value
       case None => Ok(Return(None))
       case Some(e) =>
         var v :- Transform(e);
         Ok(Return(Some(v))))
    case Call(fun, args) =>
      var vs :- TransformAll(args);
      Ok(Call(Name(fun, Load), vs))
    case LUnary(op, e) =>
      if StepOperator(op).Some? then
        // `name` and `namer` are two lowerings of `e`, hence equal values:
        // the Load assignment on the second succeeds whenever the Store
        // assignment on the first does
        var name :- Transform(e);
        var _ :- Attributable(name);
        var namer := if name.Name? then Name(name.id, Load) else name;
        Ok(BinOp(namer, StepOperator(op).value, Num(Int(1))))
      else if UnaryOperatorOf(op).None? then Err(KeyError)
      else
        var v :- Transform(e);
        Ok(UnaryOp(UnaryOperatorOf(op).value, v))
    case RUnary(_, e) =>
      var name :- Transform(e);
      SetCtx(name, Load)
    case Binary(op, e1, e2) =>
      var assignment := TransformAssign(op, e1, e2);
      if assignment.Err? && assignment.error == KeyError then TransformOp(op, e1, e2) else assignment
    case Term(tok) =>
      (match tok
       case Identifier(x) => Ok(Name(x, Load))
       case Number(v) => Ok(Num(v))
       case Character(c) => Ok(Str(c))
       case String(s) => Ok(Str(s))
       case _ => Err(KeyError))
  }

  /** A clause of `transform_for`; an omitted clause is None, and
      `transform(None)` raises TypeError. */
  function TransformClause(e: Option<Grammar.Node>): Result<Py>
    decreases e, 2
  {
    match e
    case None => Err(TypeError)
    case Some(x) => Transform(x)
  }

  /** `map(self.transform, args)`. */
  function TransformAll(args: seq<Grammar.Node>): Result<seq<Py>>
    decreases args, 2
  {
    if args == [] then Ok([])
    else
      var v :- Transform(args[0]);
      var vs :- TransformAll(args[1..]);
      Ok([v] + vs)
  }

  /** `transform_block`: `map(self.transform_statement, stmts)`. */
  function TransformStatements(stmts: seq<Grammar.Node>): Result<seq<Py>>
    decreases stmts, 3
  {
    if stmts == [] then Ok([])
    else
      var v :- TransformStatement(stmts[0]);
      var vs :- TransformStatements(stmts[1..]);
      Ok([v] + vs)
  }

  /** `transform_statement`: a declaration with an initialiser lowers to its
      initialiser; any other node is transformed and wrapped in Expr unless
      it is an Assign, If, While or Return. */
  function TransformStatement(n: Grammar.Node): Result<Py>
    decreases n, 2
  {
    match n
    case DeclInit(_, init) => Transform(init)
    case _ =>
      var p :- Transform(n);
      if IsBareStatement(p) then Ok(p) else Ok(Expr(p))
  }

  /** `transform_assign`: KeyError for a spelling that is not an assignment;
      otherwise the target in Store context, the value, and for a compound
      assignment a second lowering of the target as the left operand. */
  function TransformAssign(op: string, e1: Grammar.Node, e2: Grammar.Node): Result<Py>
    decreases Grammar.Binary(op, e1, e2), 0
  {
    match AssignOperator(op)
    case None => Err(KeyError)
    case Some(aug) =>
      var name :- Transform(e1);
      var target :- SetCtx(name, Store);
      var expression :- Transform(e2);
      match aug
      case None => Ok(Assign([target], expression))
      case Some(bop) =>
        // `namer` is a second lowering of `e1`, equal to `name`, so setting
        // its attribute succeeds as the Store assignment did
        Ok(Assign([target], BinOp(name, bop, expression)))
  }

  /** `transform_op`: a BinOp, a Compare or a BoolOp by the table that
      lists the spelling, None when none does. */
  function TransformOp(op: string, e1: Grammar.Node, e2: Grammar.Node): Result<Py>
    decreases Grammar.Binary(op, e1, e2), 0
  {
    if BinOperatorOf(op).Some? then
      var l :- Transform(e1);
      var r :- Transform(e2);
      Ok(BinOp(l, BinOperatorOf(op).value, r))
    else if CmpOperatorOf(op).Some? then
      var l :- Transform(e1);
      var r :- Transform(e2);
      Ok(Compare(l, [CmpOperatorOf(op).value], [r]))
    else if BoolOperatorOf(op).Some? then
      var l :- Transform(e1);
      var r :- Transform(e2);
      Ok(BoolOp(l, BoolOperatorOf(op).value, r))
    else Ok(NoneValue)
  }

  // ---------------------------------------------------------------------
  // Modules

  /** The statement `main()` that `gen_module(main=True)` appends. */
  const MainCall: Py := Expr(Call(Name("main", Load), []))

  /** The module body built from the parser's output: each top-level node
      lowered in order, then the `main()` call when asked for. The first
      lowering that raises decides the outcome; a parse error counts only
      once every node before it has been lowered. */
  function Lower(p: Grammar.Parsed, main: bool): Result<Py>
  {
    var body :- TransformAll(p.nodes);
    if p.error.Some? then Err(p.error.value)
    else Ok(Module(body + if main then [MainCall] else []))
  }

  /** `gen_module` on a token list. */
  function GenModuleOf(tokens: seq<Token>, main: bool): Result<Py> {
    Lower(Grammar.Parse(tokens), main)
  }

  /** The outcome of a module with the given statements in front of it. */
  function Prepend(front: seq<Py>, r: Result<Py>): Result<Py> {
    match r
    case Ok(Module(stmts)) => Ok(Module(front + stmts))
    case _ => r
  }

  /** Nothing put in front. */
  lemma PrependNothing(r: Result<Py>)
    ensures Prepend([], r) == r
  {
    if r.Ok? && r.value.Module? {
      assert [] + r.value.stmts == r.value.stmts;
    }
  }

  /** Statements put in front one group after another. */
  lemma PrependPrepend(a: seq<Py>, b: seq<Py>, r: Result<Py>)
    ensures Prepend(a, Prepend(b, r)) == Prepend(a + b, r)
  {
    if r.Ok? && r.value.Module? {
      assert a + (b + r.value.stmts) == (a + b) + r.value.stmts;
    }
  }

  /** Lowering a list whose head lowers to `v`. */
  lemma {:induction false} TransformAllCons(n: Grammar.Node, rest: seq<Grammar.Node>, v: Py)
    requires Transform(n) == Ok(v)
    ensures TransformAll([n] + rest) ==
      match TransformAll(rest)
      case Ok(vs) => Ok([v] + vs)
      case Err(e) => Err(e)
  {
    assert ([n] + rest)[0] == n;
    assert ([n] + rest)[1..] == rest;
  }

  /** The node the parser yields first is lowered before the rest: its
      error wins, and otherwise its statement leads the module. */
  lemma {:induction false} LowerCons(n: Grammar.Node, p: Grammar.Parsed, main: bool)
    ensures Lower(Grammar.Parsed([n] + p.nodes, p.error), main) ==
      match Transform(n)
      case Ok(v) => Prepend([v], Lower(p, main))
      case Err(e) => Err(e)
  {
    var nodes := [n] + p.nodes;
    if Transform(n).Ok? {
      var v := Transform(n).value;
      TransformAllCons(n, p.nodes, v);
      if TransformAll(p.nodes).Ok? && p.error.None? {
        var vs := TransformAll(p.nodes).value;
        var tail := if main then [MainCall] else [];
        assert [v] + (vs + tail) == ([v] + vs) + tail;
      }
    } else {
      assert nodes[0] == n;
    }
  }

  /** The parser stopped without an error: the module is complete. */
  lemma LowerEnd(body: seq<Py>, main: bool)
    ensures Prepend(body, Lower(Grammar.Parsed([], None), main)) ==
      Ok(Module(body + if main then [MainCall] else []))
  {
    var tail := if main then [MainCall] else [];
    assert [] + tail == tail;
  }

  /** The transformer, holding the parser whose nodes it lowers. */
  class Codegen {
    const parser: Parsing.Parser

    constructor(parser: Parsing.Parser)
      ensures this.parser == parser
    {
      this.parser := parser;
    }

    /** `gen_module`: the parser's declarations are consumed one at a time,
        each lowered as soon as it is parsed; the outcome is that of lowering
        everything the parser yields from the starting state. */
    method GenModule(main: bool) returns (r: Result<Py>)
      requires parser.core.Valid()
      modifies parser.core
      ensures r == Lower(Grammar.ParseFrom(old(parser.core.AsState())), main)
    {
      ghost var start := parser.core.AsState();
      var body: seq<Py> := [];
      assert Prepend(body, Lower(Grammar.ParseFrom(start), main)) == Lower(Grammar.ParseFrom(start), main) by {
        PrependNothing(Lower(Grammar.ParseFrom(start), main));
      }
      while true
        invariant parser.core.Valid()
        invariant Lower(Grammar.ParseFrom(start), main) ==
          Prepend(body, Lower(Grammar.ParseFrom(parser.core.AsState()), main))
        decreases parser.core.Measure()
      {
        ghost var cur := parser.core.AsState();
        var node := parser.ParseToplevel();
        if node.Err? {
          if node.error != IndexError {
            assert Grammar.ParseFrom(cur) == Grammar.Parsed([], Some(node.error));
            return Err(node.error);
          }
          assert Grammar.ParseFrom(cur) == Grammar.Parsed([], None);
          LowerEnd(body, main);
          return Ok(Module(body + if main then [MainCall] else []));
        }
        ghost var rest := Grammar.ParseFrom(parser.core.AsState());
        assert Grammar.ParseFrom(cur) == Grammar.Parsed([node.value] + rest.nodes, rest.error);
        LowerCons(node.value, rest, main);
        var v := Transform(node.value);
        if v.Err? {
          return Err(v.error);
        }
        PrependPrepend(body, [v.value], Lower(rest, main));
        body := body + [v.value];
      }
    }
  }
}
