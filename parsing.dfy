/** `Parser`: the recursive-descent parser as methods that move a shared
    cursor.

    The Python class extends `StandardParser`; here a `Parser` holds its
    `StandardParser` as `core` and every method changes only `core`. Each
    method performs the steps of the source method and is proved to end in
    exactly the outcome and state that the `Grammar` function of the same
    name gives for the state it started from. */
module Parsing {
  import opened Lexer
  import opened Cursor
  import opened Core
  import Grammar

  class Parser {
    /** The token list and the cursor. */
    const core: StandardParser

    constructor(tokens: seq<Token>)
      ensures fresh(core) && core.AsState() == State(tokens, 0)
    {
      core := new StandardParser(tokens);
    }

    // -------------------------------------------------------------------
    // Expressions

    /** The `require` helper of `parse_expression`. */
    method Require(type_: TokenType, value: Option<string>, move: nat) returns (r: Result<()>)
      requires core.Valid() && core.cursor + move <= |core.tokens|
      modifies core
      ensures Step(r, core.AsState()) == Grammar.Require(old(core.AsState()), type_, value, move)
    {
      core.Move(move);
      var matches :- core.IsA(type_, value);
      if !matches {
        core.Move(-(move as int));
        return Err(Continue);
      }
      return Ok(());
    }

    /** The parser made by `term(type_)`. */
    method Term(type_: TokenType) returns (r: Result<Grammar.Node>)
      requires core.Valid()
      modifies core
      ensures Step(r, core.AsState()) == Grammar.ParseTerm(type_, old(core.AsState()))
    {
      var _ :- Require(type_, None, 0);
      var tok := core.tokens[core.cursor];
      var _ := core.Consume(type_, None);
      return Ok(Grammar.Term(tok));
    }

    /** `parse_paren_expression`. */
    method ParseParenExpression() returns (r: Result<Grammar.Node>)
      requires core.Valid()
      modifies core
      ensures Step(r, core.AsState()) == Grammar.ParseParenExpression(old(core.AsState()))
      decreases core.Measure(), 1, 0
    {
      var _ :- core.Consume(OPERATOR, Some("("));
      var e :- ParseExpression();
      var _ :- core.Consume(OPERATOR, Some(")"));
      return Ok(e);
    }

    /** `parse_expression`. */
    method ParseExpression() returns (r: Result<Grammar.Node>)
      requires core.Valid()
      modifies core
      ensures Step(r, core.AsState()) == Grammar.ParseExpression(old(core.AsState()))
      decreases core.Measure(), 6, 0
    {
      var e :- Primary();
      r := Binary(e, 0);
    }

    /** The `paren` alternative. */
    method Paren() returns (r: Result<Grammar.Node>)
      requires core.Valid()
      modifies core
      ensures Step(r, core.AsState()) == Grammar.ParseParen(old(core.AsState()))
      decreases core.Measure(), 2, 0
    {
      var _ :- Require(OPERATOR, Some("("), 0);
      r := ParseParenExpression();
    }

    /** The `funcall` alternative. */
    method Funcall() returns (r: Result<Grammar.Node>)
      requires core.Valid() && core.cursor < |core.tokens|
      modifies core
      ensures Step(r, core.AsState()) == Grammar.ParseFuncall(old(core.AsState()))
      decreases core.Measure(), 1, 0
    {
      var _ :- Require(IDENTIFIER, None, 0);
      var _ :- Require(OPERATOR, Some("("), 1);
      core.Move(-1);
      var fun := Grammar.Text(core.tokens[core.cursor]);
      var _ := core.Consume(IDENTIFIER, None);
      var _ := core.Consume(OPERATOR, Some("("));
      var args :- FuncallArgs();
      var _ :- core.Consume(OPERATOR, Some(")"));
      return Ok(Grammar.Call(fun, args));
    }

    /** The argument loop of `funcall`: until the current token is `)`, an
        expression and an optional comma. */
    method FuncallArgs() returns (r: Result<seq<Grammar.Node>>)
      requires core.Valid()
      modifies core
      ensures Step(r, core.AsState()) == Grammar.FuncallArgs([], old(core.AsState()))
      decreases core.Measure(), 7, 0
    {
      ghost var start := core.AsState();
      var args := [];
      while true
        invariant core.Valid() && core.Measure() <= start.Measure()
        invariant Grammar.FuncallArgs(args, core.AsState()) == Grammar.FuncallArgs([], start)
        decreases core.Measure()
      {
        var closing :- core.IsA(OPERATOR, Some(")"));
        if closing {
          return Ok(args);
        }
        var e :- ParseExpression();
        var _ :- core.Ignore(OPERATOR, Some(","));
        args := args + [e];
      }
    }

    /** The parser made by `runary(op)`: the operator after the current
        token is deleted and the operand parsed from the current token. */
    method RUnary(op: string) returns (r: Result<Grammar.Node>)
      requires core.Valid() && core.cursor < |core.tokens|
      modifies core
      ensures Step(r, core.AsState()) == Grammar.ParseRUnary(op, old(core.AsState()))
      decreases core.Measure(), 1, 0
    {
      var _ :- Require(OPERATOR, Some(op), 1);
      core.Drop(0, 1);
      core.Move(-1);
      var e :- Primary();
      return Ok(Grammar.RUnary(op, e));
    }

    /** The parser made by `lunary(op)`. */
    method LUnary(op: string) returns (r: Result<Grammar.Node>)
      requires core.Valid()
      modifies core
      ensures Step(r, core.AsState()) == Grammar.ParseLUnary(op, old(core.AsState()))
      decreases core.Measure(), 1, 0
    {
      var _ :- Require(OPERATOR, Some(op), 0);
      var _ := core.Consume(OPERATOR, None);
      var e :- Primary();
      return Ok(Grammar.LUnary(op, e));
    }

    /** The `i`-th alternative of `primary`. */
    method PrimaryAlt(i: nat) returns (r: Result<Grammar.Node>)
      requires core.Valid() && i < Grammar.PrimaryCount && (i > 0 ==> core.cursor < |core.tokens|)
      modifies core
      ensures Step(r, core.AsState()) == Grammar.PrimaryAlt(i, old(core.AsState()))
      decreases core.Measure(), 3, 0
    {
      if i == 0 {
        r := Paren();
      } else if i == 1 {
        r := Funcall();
      } else if i < 4 {
        r := RUnary(Grammar.PostfixOps[i - 2]);
      } else if i < 11 {
        r := LUnary(Grammar.PrefixOps[i - 4]);
      } else {
        r := Term(Grammar.TermTypes[i - 11]);
      }
    }

    /** `primary`: `alternative` tries each alternative in turn while it
        raises Continue. */
    method Primary() returns (r: Result<Grammar.Node>)
      requires core.Valid()
      modifies core
      ensures Step(r, core.AsState()) == Grammar.ParsePrimary(old(core.AsState()))
      decreases core.Measure(), 5, 0
    {
      ghost var start := core.AsState();
      var i := 0;
      while i < Grammar.PrimaryCount
        invariant i <= Grammar.PrimaryCount && core.AsState() == start
        invariant i > 0 ==> core.cursor < |core.tokens|
        invariant Grammar.PrimaryFrom(i, start) == Grammar.PrimaryFrom(0, start)
      {
        r := PrimaryAlt(i);
        if !(r.Err? && r.error == Continue) {
          return;
        }
        i := i + 1;
      }
      r := NoAlternative(core.AsState()).r;
    }

    /** `binary(e1, mp)`: precedence climbing. The outer loop of the source
        is here; its inner loop is `RightOperand`. */
    method Binary(e1: Grammar.Node, mp: nat) returns (r: Result<Grammar.Node>)
      requires core.Valid()
      modifies core
      ensures Step(r, core.AsState()) == Grammar.ParseBinary(e1, mp, old(core.AsState()))
      decreases core.Measure(), 0
    {
      ghost var start := core.AsState();
      var left := e1;
      while true
        invariant core.Valid() && core.Measure() <= start.Measure()
        invariant Grammar.ParseBinary(left, mp, core.AsState()) == Grammar.ParseBinary(e1, mp, start)
        decreases core.Measure()
      {
        var binary :- core.IsIn(OPERATOR, BinaryOperators());
        var tok := core.tokens[core.cursor];
        Grammar.BinaryOperatorToken(tok);
        if !(binary && Grammar.AtLeast(Precedence(Grammar.Text(tok)), mp)) {
          return Ok(left);
        }
        var op := Grammar.Text(tok);
        var _ := core.Consume(OPERATOR, None);
        var e2 :- Primary();
        e2 :- RightOperand(op, e2);
        left := Grammar.Binary(op, left, e2);
      }
    }

    /** The inner loop of `binary`: while the current token is an operator
        binding at least as tightly as `op`, the right operand becomes
        `binary(e2, its level)`. */
    method RightOperand(op: string, e2: Grammar.Node) returns (r: Result<Grammar.Node>)
      requires core.Valid() && Precedence(op).Some?
      modifies core
      ensures Step(r, core.AsState()) == Grammar.RightOperand(op, e2, old(core.AsState()))
      decreases core.Measure(), 1
    {
      ghost var start := core.AsState();
      var bound := Precedence(op).value;
      var right := e2;
      while true
        invariant core.Valid() && core.Measure() <= start.Measure()
        invariant Grammar.RightOperand(op, right, core.AsState()) == Grammar.RightOperand(op, e2, start)
        decreases core.Measure()
      {
        var isOp :- core.IsA(OPERATOR, None);
        var level := Precedence(Grammar.Text(core.tokens[core.cursor]));
        if !(isOp && Grammar.AtLeast(level, bound)) {
          return Ok(right);
        }
        right :- Binary(right, level.value);
      }
    }
  
    // -------------------------------------------------------------------
    // Statements

    /** An optional clause of `for`: an expression unless the current token
        is the operator `stop`. */
    method OptionalExpr(stop: string) returns (r: Result<Option<Grammar.Node>>)
      requires core.Valid()
      modifies core
      ensures Step(r, core.AsState()) == Grammar.OptionalExpr(stop, old(core.AsState()))
    {
      var absent :- core.IsA(OPERATOR, Some(stop));
      if absent {
        return Ok(None);
      }
      var e :- ParseExpression();
      return Ok(Some(e));
    }

    /** `parse_if`, entered at an `if` or `else if` keyword. */
    method ParseIf() returns (r: Result<Grammar.Node>)
      requires core.Valid() && core.cursor < |core.tokens|
      requires core.tokens[core.cursor] == Keyword("if") || core.tokens[core.cursor] == Keyword("else if")
      modifies core
      ensures Step(r, core.AsState()) == Grammar.ParseIf(old(core.AsState()))
      decreases core.Measure(), 8, 0
    {
      var keyword := core.tokens[core.cursor];
      var _ := core.Consume(KEYWORD, None);
      if keyword != Keyword("if") {
        return Err(KeyError);
      }
      var cond :- ParseParenExpression();
      var bare :- core.IsA(OPERATOR, Some(";"));
      if bare {
        return Ok(Grammar.IfBare(cond));
      }
      var body :- ParseBlock();
      var elseIf :- core.IsA(KEYWORD, Some("else if"));
      if elseIf {
        var tail := ParseIf();
        match tail
        case Ok(t) => return Ok(Grammar.If(cond, body, Some(t)));
        case Err(e) => return Err(e);
      }
      var els := core.Ignore(KEYWORD, Some("else"));
      if els.value.Some? {
        var elseBody :- ParseBlock();
        return Ok(Grammar.If(cond, body, Some(Grammar.Else(elseBody))));
      }
      return Ok(Grammar.If(cond, body, None));
    }

    /** `parse_for`. */
    method ParseFor() returns (r: Result<Grammar.Node>)
      requires core.Valid()
      modifies core
      ensures Step(r, core.AsState()) == Grammar.ParseFor(old(core.AsState()))
      decreases core.Measure(), 8, 0
    {
      var _ :- core.Consume(KEYWORD, Some("for"));
      var _ :- core.Consume(OPERATOR, Some("("));
      var e1 :- OptionalExpr(";");
      var _ :- core.Consume(OPERATOR, Some(";"));
      var e2 :- OptionalExpr(";");
      var _ :- core.Consume(OPERATOR, Some(";"));
      var e3 :- OptionalExpr(")");
      var _ :- core.Consume(OPERATOR, Some(")"));
      var bare :- core.IsA(OPERATOR, Some(";"));
      if bare {
        return Ok(Grammar.For(e1, e2, e3, None));
      }
      var body :- ParseBlock();
      return Ok(Grammar.For(e1, e2, e3, Some(body)));
    }

    /** `parse_while`. */
    method ParseWhile() returns (r: Result<Grammar.Node>)
      requires core.Valid()
      modifies core
      ensures Step(r, core.AsState()) == Grammar.ParseWhile(old(core.AsState()))
      decreases core.Measure(), 8, 0
    {
      var _ :- core.Consume(KEYWORD, Some("while"));
      var _ :- core.Consume(OPERATOR, Some("("));
      var cond :- ParseExpression();
      var _ :- core.Consume(OPERATOR, Some(")"));
      var semi :- core.Ignore(OPERATOR, Some(";"));
      if semi.Some? {
        return Ok(Grammar.While(cond, None));
      }
      var body :- ParseBlock();
      return Ok(Grammar.While(cond, Some(body)));
    }

    /** `parse_return`. */
    method ParseReturn() returns (r: Result<Grammar.Node>)
      requires core.Valid()
      modifies core
      ensures Step(r, core.AsState()) == Grammar.ParseReturn(old(core.AsState()))
    {
      var _ :- core.Consume(KEYWORD, Some("return"));
      var done :- core.Ignore(OPERATOR, Some(";"));
      if done.Some? {
        return Ok(Grammar.Return(None));
      }
      var e :- ParseExpression();
      return Ok(Grammar.Return(Some(e)));
    }

    /** The `*` loop of `parse_variable`. */
    method Stars() returns (r: Result<()>)
      requires core.Valid()
      modifies core
      ensures Step(r, core.AsState()) == Grammar.Stars(old(core.AsState()))
    {
      ghost var start := core.AsState();
      while true
        invariant core.Valid() && Grammar.Stars(core.AsState()) == Grammar.Stars(start)
        decreases core.Measure()
      {
        var star :- core.IsA(OPERATOR, Some("*"));
        if !star {
          return Ok(());
        }
        var _ := core.Consume(OPERATOR, Some("*"));
      }
    }

    /** `parse_variable`. */
    method ParseVariable() returns (r: Result<string>)
      requires core.Valid()
      modifies core
      ensures Step(r, core.AsState()) == Grammar.ParseVariable(old(core.AsState()))
    {
      var _ :- core.Ignore(KEYWORD, Some("const"));
      var _ :- core.Consume(TYPE, None);
      var _ :- Stars();
      var name := if core.cursor < |core.tokens| then Grammar.Text(core.tokens[core.cursor]) else "";
      var _ :- core.Consume(IDENTIFIER, None);
      var bracket :- core.IsA(OPERATOR, Some("["));
      if bracket {
        var _ := core.Consume(OPERATOR, Some("["));
        var _ :- core.Consume(NUMBER, None);
        var _ :- core.Consume(OPERATOR, Some("]"));
      }
      return Ok(name);
    }

    /** The rewind in `parse_declaration` after `=`: back to the `=`, and
        past a deleted array suffix to the name. */
    method Rewind()
      requires core.Valid() && Grammar.Restartable(core.AsState())
      modifies core
      ensures core.AsState() == Grammar.InitStart(old(core.AsState()))
    {
      core.Move(-1);
      if core.tokens[core.cursor] == Operator("]") {
        core.Drop(2, 1);
        core.Move(-3);
      }
    }

    /** `parse_declaration`. */
    method ParseDeclaration() returns (r: Result<Grammar.Node>)
      requires core.Valid()
      modifies core
      ensures Step(r, core.AsState()) == Grammar.ParseDeclaration(old(core.AsState()))
    {
      var name :- ParseVariable();
      var assign :- core.IsA(OPERATOR, Some("="));
      if !assign {
        return Ok(Grammar.Decl(name));
      }
      Rewind();
      var init :- ParseExpression();
      return Ok(Grammar.DeclInit(name, init));
    }

    /** The `keyword` alternative of `parse_statement`. */
    method KeywordStatement() returns (r: Result<Grammar.Node>)
      requires core.Valid()
      modifies core
      ensures Step(r, core.AsState()) == Grammar.KeywordStatement(old(core.AsState()))
      decreases core.Measure(), 9, 0
    {
      var isKeyword :- core.IsA(KEYWORD, None);
      if !isKeyword {
        return Err(Continue);
      }
      var k := Grammar.Text(core.tokens[core.cursor]);
      if k == "if" {
        r := ParseIf();
      } else if k == "for" {
        r := ParseFor();
      } else if k == "while" {
        r := ParseWhile();
      } else if k == "return" {
        r := ParseReturn();
      } else {
        r := Err(KeyError);
      }
      if r.Err? && r.error == KeyError {
        r := Err(Grammar.KeywordFailure(core.AsState()));
      }
    }

    /** The `i`-th alternative of `parse_statement`. */
    method StatementAlt(i: nat) returns (r: Result<Grammar.Node>)
      requires core.Valid() && i < Grammar.StatementCount && (i > 0 ==> core.cursor < |core.tokens|)
      modifies core
      ensures Step(r, core.AsState()) == Grammar.StatementAlt(i, old(core.AsState()))
      decreases core.Measure(), 10, 0
    {
      if i == 0 {
        var isType :- core.IsA(TYPE, None);
        if !isType {
          return Err(Continue);
        }
        r := ParseDeclaration();
      } else if i == 1 {
        r := KeywordStatement();
      } else {
        r := ParseExpression();
      }
    }

    /** `parse_statement`: `alternative` over the three alternatives, then
        the `;` unless the statement is an `if`, `else`, `for` or `while`. */
    method ParseStatement() returns (r: Result<Grammar.Node>)
      requires core.Valid()
      modifies core
      ensures Step(r, core.AsState()) == Grammar.ParseStatement(old(core.AsState()))
      decreases core.Measure(), 12, 0
    {
      ghost var start := core.AsState();
      var i := 0;
      var result: Result<Grammar.Node> := Err(Continue);
      while i < Grammar.StatementCount
        invariant i <= Grammar.StatementCount && core.AsState() == start
        invariant i > 0 ==> core.cursor < |core.tokens|
        invariant Grammar.StatementFrom(i, start) == Grammar.StatementFrom(0, start)
      {
        result := StatementAlt(i);
        if !(result.Err? && result.error == Continue) {
          break;
        }
        i := i + 1;
      }
      if i == Grammar.StatementCount {
        result := NoAlternative(core.AsState()).r;
      }
      var n :- result;
      if !Grammar.SkipsSemicolon(n) {
        var _ :- core.Consume(OPERATOR, Some(";"));
      }
      return Ok(n);
    }

    /** `parse_block`. */
    method ParseBlock() returns (r: Result<Grammar.Node>)
      requires core.Valid()
      modifies core
      ensures Step(r, core.AsState()) == Grammar.ParseBlock(old(core.AsState()))
      decreases core.Measure(), 13, 1
    {
      var brace :- core.IsA(OPERATOR, Some("{"));
      if !brace {
        var stmt :- ParseStatement();
        return Ok(Grammar.Block([stmt]));
      }
      var _ := core.Consume(OPERATOR, Some("{"));
      var stmts :- BlockItems();
      var _ :- core.Consume(OPERATOR, Some("}"));
      return Ok(Grammar.Block(stmts));
    }

    /** The statement loop of `parse_block`. */
    method BlockItems() returns (r: Result<seq<Grammar.Node>>)
      requires core.Valid()
      modifies core
      ensures Step(r, core.AsState()) == Grammar.BlockItems([], old(core.AsState()))
      decreases core.Measure(), 13, 0
    {
      ghost var start := core.AsState();
      var stmts := [];
      while true
        invariant core.Valid() && core.Measure() <= start.Measure()
        invariant Grammar.BlockItems(stmts, core.AsState()) == Grammar.BlockItems([], start)
        decreases core.Measure()
      {
        var closing :- core.IsA(OPERATOR, Some("}"));
        if closing {
          return Ok(stmts);
        }
        var stmt :- ParseStatement();
        stmts := stmts + [stmt];
      }
    }

    // -------------------------------------------------------------------
    // Top level

    /** `parse_parameter_list`, with its loop. */
    method ParameterList() returns (r: Result<Grammar.Node>)
      requires core.Valid()
      modifies core
      ensures Step(r, core.AsState()) == Grammar.ParameterList(old(core.AsState()))
    {
      var _ :- core.Consume(OPERATOR, Some("("));
      ghost var start := core.AsState();
      var names := [];
      while true
        invariant core.Valid() && Grammar.Parameters(names, core.AsState()) == Grammar.Parameters([], start)
        decreases core.Measure()
      {
        var closing :- core.IsA(OPERATOR, Some(")"));
        if closing {
          break;
        }
        var name :- ParseVariable();
        var _ :- core.Ignore(OPERATOR, Some(","));
        names := names + [name];
      }
      var _ := core.Consume(OPERATOR, Some(")"));
      return Ok(Grammar.PList(names));
    }

    /** `parse_toplevel`. */
    method ParseToplevel() returns (r: Result<Grammar.Node>)
      requires core.Valid()
      modifies core
      ensures Step(r, core.AsState()) == Grammar.ParseToplevel(old(core.AsState()))
    {
      var rtype := if core.cursor < |core.tokens| then Grammar.Text(core.tokens[core.cursor]) else "";
      var _ :- core.Consume(TYPE, None);
      var name := if core.cursor < |core.tokens| then Grammar.Text(core.tokens[core.cursor]) else "";
      var _ :- core.Consume(IDENTIFIER, None);
      var params :- ParameterList();
      var semi :- core.Ignore(OPERATOR, Some(";"));
      if semi.Some? {
        return Ok(Grammar.FwdDecl(rtype, name, params));
      }
      var body :- ParseBlock();
      return Ok(Grammar.FunDecl(rtype, name, params, body));
    }

    /** `parse`: top-level declarations until one raises; the IndexError
        that ends the input is swallowed. */
    method Parse() returns (p: Grammar.Parsed)
      requires core.Valid()
      modifies core
      ensures p == Grammar.ParseFrom(old(core.AsState()))
    {
      ghost var start := core.AsState();
      var nodes := [];
      while true
        invariant core.Valid()
        invariant Grammar.ParseFrom(start) ==
          Grammar.Parsed(nodes + Grammar.ParseFrom(core.AsState()).nodes, Grammar.ParseFrom(core.AsState()).error)
        decreases core.Measure()
      {
        var r := ParseToplevel();
        if r.Err? {
          return Grammar.Parsed(nodes, if r.error == IndexError then None else Some(r.error));
        }
        nodes := nodes + [r.value];
      }
    }
  }
}
