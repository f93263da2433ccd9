/** The token cursor shared by every parsing method.

    A parser holds a list of tokens and an index into it. The state-reading
    operations (`isa`, `isin`, the current token) are functions of that
    state; the state-changing ones (`move`, `drop`, `consume`, `ignore`) are
    specified here as functions from a state to an outcome and a new state,
    and the class `StandardParser` implements them on mutable fields.
    Exceptions are values of `Exception`; a computation that may raise
    returns a `Result`. */
module Cursor {
  import opened Lexer

  /** What an `UnexpectedToken` error says was expected. */
  datatype Expected =
    | Expect(type_: TokenType, value: Option<string>)  // `consume(type_, value)` failed
    | AnyAlternative                                   // `alternative` ran out of alternatives
    | StatementKeyword                                 // the keyword dispatcher met an unknown keyword

  /** The exceptions the parser and the code generator raise or catch. */
  datatype Exception =
    | Continue                                   // skip this alternative
    | UnexpectedToken(got: Token, expected: Expected)
    | IndexError                                 // a read past the end of a list
    | KeyError                                   // a dictionary lookup that missed
    | ValueError                                 // a tuple unpacked into the wrong number of names
    | TypeError                                  // an operation applied to a value of the wrong type
    | AttributeError                             // an attribute set on a value without attributes

  datatype Result<T> = Ok(value: T) | Err(error: Exception) {
    predicate IsFailure() { Err? }
    function PropagateFailure<U>(): Result<U>
      requires Err?
    {
      Err(error)
    }
    function Extract(): T
      requires Ok?
    {
      value
    }
  }

  /** The parser's state: the token list and the cursor into it. */
  datatype State = State(tokens: seq<Token>, cursor: int) {
    /** The cursor never leaves the list (it may stand just past its end). */
    predicate Valid() { 0 <= cursor <= |tokens| }

    /** The number of tokens not yet passed; every parse step that
        succeeds makes it smaller. */
    function Measure(): nat
      requires Valid()
    {
      |tokens| - cursor
    }
  }

  /** An outcome together with the state it leaves behind. Failures keep
      the state at the point of the raise, because a handler may read it. */
  datatype Step<T> = Step(r: Result<T>, st: State) {
    predicate IsFailure() { r.Err? }
    function PropagateFailure<U>(): Step<U>
      requires r.Err?
    {
      Step(Err(r.error), st)
    }
    function Extract(): (T, State)
      requires r.Ok?
    {
      (r.value, st)
    }
  }

  // ---------------------------------------------------------------------
  // Reading the current token

  /** `isa` on a token: the type must agree, and the value too when one is
      given. A number's value never equals a string. */
  predicate Matches(tok: Token, type_: TokenType, value: Option<string>) {
    tok.TypeOf() == type_ && (value.None? || tok.ValueOf() == TextV(value.value))
  }

  /** `isin` on a token: the type agrees and the token's text is one of
      the listed values. */
  predicate MatchesSome(tok: Token, type_: TokenType, values: seq<string>) {
    tok.TypeOf() == type_ && tok.ValueOf().TextV? && tok.ValueOf().s in values
  }

  /** `isin` holds exactly when `isa` holds for some listed value. */
  lemma MatchesSomeIsAnyMatch(tok: Token, type_: TokenType, values: seq<string>)
    ensures MatchesSome(tok, type_, values) <==>
      exists i :: 0 <= i < |values| && Matches(tok, type_, Some(values[i]))
  {
    if MatchesSome(tok, type_, values) {
      var i :| 0 <= i < |values| && values[i] == tok.ValueOf().s;
      assert Matches(tok, type_, Some(values[i]));
    }
  }

  /** `self.token`: the token under the cursor, or IndexError past the end. */
  function Current(st: State): (r: Result<Token>)
    requires st.Valid()
    ensures r.Ok? <==> st.cursor < |st.tokens|
    ensures r.Ok? ==> r.value == st.tokens[st.cursor]
    ensures r.Err? ==> r.error == IndexError
  {
    if st.cursor < |st.tokens| then Ok(st.tokens[st.cursor]) else Err(IndexError)
  }

  /** `isa(type_, value)`: reading the type raises past the end. */
  function IsA(st: State, type_: TokenType, value: Option<string>): (r: Result<bool>)
    requires st.Valid()
    ensures r.Err? <==> st.cursor == |st.tokens|
    ensures r.Err? ==> r.error == IndexError
    ensures r.Ok? ==> (r.value <==> Matches(st.tokens[st.cursor], type_, value))
  {
    var tok :- Current(st);
    Ok(Matches(tok, type_, value))
  }

  /** `isin(type_, values)`: `isa` is evaluated for every listed value, so
      an empty list reads nothing and a non-empty one raises past the end. */
  function IsIn(st: State, type_: TokenType, values: seq<string>): (r: Result<bool>)
    requires st.Valid()
    ensures r.Err? <==> values != [] && st.cursor == |st.tokens|
    ensures r.Err? ==> r.error == IndexError
    ensures r.Ok? ==> (r.value <==> values != [] && MatchesSome(st.tokens[st.cursor], type_, values))
  {
    if values == [] then Ok(false)
    else
      var tok :- Current(st);
      Ok(MatchesSome(tok, type_, values))
  }

  // ---------------------------------------------------------------------
  // Changing the state

  /** `move(by)`: the cursor moves by `delta`, the tokens stay. The state
      moved from need not be valid: a `drop` can leave the cursor past the
      end until the next move brings it back. */
  function Move(st: State, delta: int): (s: State)
    requires 0 <= st.cursor + delta <= |st.tokens|
    ensures s.Valid() && s.tokens == st.tokens && s.cursor == st.cursor + delta
  {
    State(st.tokens, st.cursor + delta)
  }

  /** The end of the deleted slice `[cursor - l, cursor + r)`, clamped to
      the list as slicing does. */
  function DropEnd(st: State, r: nat): (hi: nat)
    requires st.Valid()
    ensures st.cursor <= hi <= |st.tokens|
    ensures hi == st.cursor + r || hi == |st.tokens|
  {
    if st.cursor + r <= |st.tokens| then st.cursor + r else |st.tokens|
  }

  /** `drop(l, r)`: delete the tokens from `cursor - l` up to `cursor + r`;
      the cursor is not moved. */
  function Drop(st: State, l: nat, r: nat): (s: State)
    requires st.Valid() && l <= st.cursor
    ensures s.cursor == st.cursor
    ensures s.tokens == st.tokens[..st.cursor - l] + st.tokens[DropEnd(st, r)..]
    ensures |s.tokens| == |st.tokens| - (DropEnd(st, r) - (st.cursor - l))
  {
    State(st.tokens[..st.cursor - l] + st.tokens[DropEnd(st, r)..], st.cursor)
  }

  /** `consume(type_, value)`: on a match, the token's value and the cursor
      one further on; otherwise UnexpectedToken naming the token found and
      what was expected, with the state unchanged. */
  function Consume(st: State, type_: TokenType, value: Option<string>): (s: Step<Value>)
    requires st.Valid()
    ensures s.r.Ok? <==> st.cursor < |st.tokens| && Matches(st.tokens[st.cursor], type_, value)
    ensures s.r.Ok? ==> s.r.value == st.tokens[st.cursor].ValueOf()
    ensures s.r.Ok? ==> s.st == State(st.tokens, st.cursor + 1)
    ensures s.r.Err? ==> s.st == st
    ensures s.r.Err? && st.cursor < |st.tokens| ==>
      s.r.error == UnexpectedToken(st.tokens[st.cursor], Expect(type_, value))
    ensures st.cursor == |st.tokens| ==> s.r == Err(IndexError)
  {
    var matches := IsA(st, type_, value);
    if matches.Err? then Step(Err(matches.error), st)
    else if !matches.value then Step(Err(UnexpectedToken(st.tokens[st.cursor], Expect(type_, value))), st)
    else Step(Ok(st.tokens[st.cursor].ValueOf()), Move(st, 1))
  }

  /** `ignore(type_, value)`: `consume` when the token matches, otherwise
      None and no change. */
  function Ignore(st: State, type_: TokenType, value: Option<string>): (s: Step<Option<Value>>)
    requires st.Valid()
    ensures s.r.Err? <==> st.cursor == |st.tokens|
    ensures s.r.Err? ==> s.r.error == IndexError && s.st == st
    ensures s.r.Ok? && s.r.value.None? ==> s.st == st && !Matches(st.tokens[st.cursor], type_, value)
    ensures s.r.Ok? && s.r.value.Some? ==>
      Consume(st, type_, value) == Step(Ok(s.r.value.value), s.st)
  {
    match IsA(st, type_, value)
    case Err(e) => Step(Err(e), st)
    case Ok(matches) =>
      if matches then
        var (v, st1) := Consume(st, type_, value).Extract();
        Step(Ok(Some(v)), st1)
      else Step(Ok(None), st)
  }

  /** The raise at the end of `alternative` when every alternative raised
      Continue: the message reads the current token, so past the end the
      read raises first. */
  function NoAlternative<T>(st: State): (s: Step<T>)
    requires st.Valid()
    ensures s.st == st && s.r.Err?
    ensures st.cursor < |st.tokens| ==> s.r.error == UnexpectedToken(st.tokens[st.cursor], AnyAlternative)
    ensures st.cursor == |st.tokens| ==> s.r.error == IndexError
  {
    match Current(st)
    case Ok(tok) => Step(Err(UnexpectedToken(tok, AnyAlternative)), st)
    case Err(e) => Step(Err(e), st)
  }

  /** A parse step that keeps the state valid, never gives back tokens,
      passes at least one token when it succeeds, and leaves the state as
      it found it when it raises Continue (which it only does after reading
      a token). */
  predicate Advances<T>(st: State, s: Step<T>)
    requires st.Valid()
  {
    s.st.Valid() && s.st.Measure() <= st.Measure() &&
    (s.r.Ok? ==> s.st.Measure() < st.Measure()) &&
    (s.r.Err? && s.r.error == Continue ==> s.st == st && st.cursor < |st.tokens|)
  }

  /** As `Advances`, for a step that may succeed without passing a token. */
  predicate Keeps<T>(st: State, s: Step<T>)
    requires st.Valid()
  {
    s.st.Valid() && s.st.Measure() <= st.Measure() &&
    (s.r.Err? && s.r.error == Continue ==> s.st == st && st.cursor < |st.tokens|)
  }
}

/** `StandardParser`: the token list and the cursor as mutable fields. */
module Core {
  import opened Lexer
  import opened Cursor

  /** `StandardParser`: the token list and the cursor as fields, with the
      reading operations as functions of them and the changing operations
      as methods proved against the functions above. */
  class StandardParser {
    var tokens: seq<Token>
    var cursor: int

    constructor(tokens: seq<Token>)
      ensures this.tokens == tokens && cursor == 0
    {
      this.tokens := tokens;
      cursor := 0;
    }

    function AsState(): State
      reads this
    {
      Cursor.State(tokens, cursor)
    }

    predicate Valid()
      reads this
    {
      0 <= cursor <= |tokens|
    }

    function Measure(): nat
      reads this
      requires Valid()
    {
      |tokens| - cursor
    }

    /** `self.token` */
    function Token(): (r: Result<Token>)
      reads this
      requires Valid()
      ensures r == Current(AsState())
    {
      if cursor < |tokens| then Ok(tokens[cursor]) else Err(IndexError)
    }

    /** `self.value` */
    function Value(): (r: Result<Value>)
      reads this
      requires Valid()
      ensures r.Ok? <==> cursor < |tokens|
      ensures r.Ok? ==> r.value == tokens[cursor].ValueOf()
    {
      var tok :- Token();
      Ok(tok.ValueOf())
    }

    function IsA(type_: TokenType, value: Option<string>): (r: Result<bool>)
      reads this
      requires Valid()
      ensures r == Cursor.IsA(AsState(), type_, value)
    {
      var tok :- Token();
      Ok(Matches(tok, type_, value))
    }

    function IsIn(type_: TokenType, values: seq<string>): (r: Result<bool>)
      reads this
      requires Valid()
      ensures r == Cursor.IsIn(AsState(), type_, values)
    {
      if values == [] then Ok(false)
      else
        var tok :- Token();
        Ok(MatchesSome(tok, type_, values))
    }

    method Move(delta: int)
      requires 0 <= cursor + delta <= |tokens|
      modifies this
      ensures AsState() == Cursor.Move(old(AsState()), delta)
    {
      cursor := cursor + delta;
    }

    method Drop(l: nat, r: nat)
      requires Valid() && l <= cursor
      modifies this
      ensures AsState() == Cursor.Drop(old(AsState()), l, r)
    {
      var hi := if cursor + r <= |tokens| then cursor + r else |tokens|;
      tokens := tokens[..cursor - l] + tokens[hi..];
    }

    method Consume(type_: TokenType, value: Option<string>) returns (r: Result<Value>)
      requires Valid()
      modifies this
      ensures Step(r, AsState()) == Cursor.Consume(old(AsState()), type_, value)
    {
      var matches :- IsA(type_, value);
      if !matches {
        return Err(UnexpectedToken(tokens[cursor], Expect(type_, value)));
      }
      r := Ok(tokens[cursor].ValueOf());
      Move(1);
    }

    method Ignore(type_: TokenType, value: Option<string>) returns (r: Result<Option<Value>>)
      requires Valid()
      modifies this
      ensures Step(r, AsState()) == Cursor.Ignore(old(AsState()), type_, value)
    {
      var matches :- IsA(type_, value);
      if matches {
        var v := Consume(type_, value);
        return Ok(Some(v.value));
      }
      return Ok(None);
    }
  }
}
