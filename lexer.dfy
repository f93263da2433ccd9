/** The token model, the binary-operator precedence table and the scanner.

    `lex` applies an ordered list of rules at each position of the text; the
    first rule that matches wins, silent rules (comments, whitespace) emit
    nothing, and scanning stops at the first position where no rule matches
    or only the empty whitespace match is possible. Each rule is written out
    here as a prefix matcher with the regular expression's own semantics
    (greedy and lazy repetition, ordered alternation). */
module Lexer {

  datatype Option<T> = None | Some(value: T)

  /** The seven token categories. */
  datatype TokenType = NUMBER | CHARACTER | STRING | TYPE | KEYWORD | OPERATOR | IDENTIFIER

  /** The payload of a number token: `int(token)`, or the text of a
      fractional literal (floating point is not modelled). */
  datatype Num = Int(i: int) | Float(literal: string)

  /** What a token's `value` field holds. */
  datatype Value = NumV(n: Num) | TextV(s: string)

  /** A token: its category together with its value. */
  datatype Token =
    | Number(n: Num)
    | Character(c: string)
    | String(s: string)
    | Type(t: string)
    | Keyword(k: string)
    | Operator(op: string)
    | Identifier(name: string)
  {
    function TypeOf(): TokenType {
      match this
      case Number(_) => NUMBER
      case Character(_) => CHARACTER
      case String(_) => STRING
      case Type(_) => TYPE
      case Keyword(_) => KEYWORD
      case Operator(_) => OPERATOR
      case Identifier(_) => IDENTIFIER
    }

    function ValueOf(): (v: Value)
      ensures v.NumV? <==> TypeOf() == NUMBER
    {
      match this
      case Number(n) => NumV(n)
      case Character(c) => TextV(c)
      case String(s) => TextV(s)
      case Type(t) => TextV(t)
      case Keyword(k) => TextV(k)
      case Operator(op) => TextV(op)
      case Identifier(name) => TextV(name)
    }
  }

  // ---------------------------------------------------------------------
  // Binary operators and their precedence

  /** `(operator, precedence)` pairs in table order. */
  const OperatorTable: seq<(string, nat)> := [
    ("*", 12), ("/", 12), ("%", 12),
    ("+", 11), ("-", 11),
    ("<<", 10), (">>", 10),
    ("==", 8), ("!=", 8), (">=", 8), ("<=", 8), (">", 8), ("<", 8),
    ("&", 7), ("^", 6), ("|", 5), ("&&", 4), ("||", 3),
    ("=", 1), ("-=", 1), ("+=", 1), ("*=", 1), ("/=", 1)
  ]

  /** The spellings of a table, in table order. */
  function Spellings(table: seq<(string, nat)>): (names: seq<string>)
    ensures |names| == |table|
    ensures forall i :: 0 <= i < |table| ==> names[i] == table[i].0
  {
    seq(|table|, i requires 0 <= i < |table| => table[i].0)
  }

  /** `BINARY_OPERATORS`: every operator of the table, in table order. */
  function BinaryOperators(): seq<string> {
    Spellings(OperatorTable)
  }

  /** The level of the first entry of `table` spelled `op`, if any. */
  function Lookup(table: seq<(string, nat)>, op: string): Option<nat> {
    if table == [] then None
    else if table[0].0 == op then Some(table[0].1)
    else Lookup(table[1..], op)
  }

  /** `precedence(op)`; `None` for a spelling outside the table. */
  function Precedence(op: string): Option<nat> {
    Lookup(OperatorTable, op)
  }

  /** Lookup is a first-match search: it finds a level exactly when the
      spelling occurs, and the level is that of its first occurrence. */
  lemma {:induction false} LookupFindsFirst(table: seq<(string, nat)>, op: string)
    ensures Lookup(table, op).Some? <==> op in Spellings(table)
    ensures Lookup(table, op).Some? ==>
      exists i :: 0 <= i < |table| && table[i] == (op, Lookup(table, op).value) &&
        forall j :: 0 <= j < i ==> table[j].0 != op
  {
    if table != [] && table[0].0 != op {
      LookupFindsFirst(table[1..], op);
      assert Spellings(table) == [table[0].0] + Spellings(table[1..]);
      if Lookup(table, op).Some? {
        var i :| 0 <= i < |table[1..]| && table[1..][i] == (op, Lookup(table, op).value) &&
          forall j :: 0 <= j < i ==> table[1..][j].0 != op;
        assert table[i + 1] == (op, Lookup(table, op).value);
        forall j | 0 <= j < i + 1 ensures table[j].0 != op {
          if j > 0 { assert table[j] == table[1..][j - 1]; }
        }
      }
    } else if table != [] {
      assert table[0] == (op, Lookup(table, op).value);
    }
  }

  /** `precedence` is defined exactly on `BINARY_OPERATORS`. */
  lemma PrecedenceDefinedIffBinary(op: string)
    ensures Precedence(op).Some? <==> op in BinaryOperators()
  {
    LookupFindsFirst(OperatorTable, op);
  }

  /** Finding the entry at `k` when no earlier entry is spelled `op`. */
  lemma {:induction false} LookupAt(table: seq<(string, nat)>, op: string, k: nat)
    requires k < |table| && table[k].0 == op
    requires forall j :: 0 <= j < k ==> table[j].0 != op
    ensures Lookup(table, op) == Some(table[k].1)
  {
    if k > 0 {
      LookupAt(table[1..], op, k - 1);
    }
  }

  /** The table's spellings are pairwise distinct, so every entry's
      operator gets that entry's level. */
  lemma PrecedenceOfEntries()
    ensures forall k :: 0 <= k < |OperatorTable| ==> Precedence(OperatorTable[k].0) == Some(OperatorTable[k].1)
  {
    assert forall i, j :: 0 <= i < j < |OperatorTable| ==> OperatorTable[i].0 != OperatorTable[j].0;
    forall k | 0 <= k < |OperatorTable|
      ensures Precedence(OperatorTable[k].0) == Some(OperatorTable[k].1)
    {
      LookupAt(OperatorTable, OperatorTable[k].0, k);
    }
  }

  /** The entry at `k` gives its operator its own level. */
  lemma PrecedenceIs(op: string, k: nat, level: nat)
    requires k < |OperatorTable| && OperatorTable[k] == (op, level)
    ensures Precedence(op) == Some(level)
  {
    PrecedenceOfEntries();
  }

  /** The multiplicative operators `* / %` are at 12, the additive `+ -` at 11. */
  lemma PrecedenceArithmetic(op: string)
    ensures op in {"*", "/", "%"} ==> Precedence(op) == Some(12)
    ensures op in {"+", "-"} ==> Precedence(op) == Some(11)
  {
    if op == "*" {
      PrecedenceIs(op, 0, 12);
    } else if op == "/" {
      PrecedenceIs(op, 1, 12);
    } else if op == "%" {
      PrecedenceIs(op, 2, 12);
    } else if op == "+" {
      PrecedenceIs(op, 3, 11);
    } else if op == "-" {
      PrecedenceIs(op, 4, 11);
    }
  }

  /** The shifts `<< >>` are at 10. */
  lemma PrecedenceShift(op: string)
    ensures op in {"<<", ">>"} ==> Precedence(op) == Some(10)
  {
    if op == "<<" {
      PrecedenceIs(op, 5, 10);
    } else if op == ">>" {
      PrecedenceIs(op, 6, 10);
    }
  }

  /** Every comparison is at level 8. */
  lemma PrecedenceComparison(op: string)
    ensures op in {"==", "!=", ">=", "<=", ">", "<"} ==> Precedence(op) == Some(8)
  {
    if op == "==" {
      PrecedenceIs(op, 7, 8);
    } else if op == "!=" {
      PrecedenceIs(op, 8, 8);
    } else if op == ">=" {
      PrecedenceIs(op, 9, 8);
    } else if op == "<=" {
      PrecedenceIs(op, 10, 8);
    } else if op == ">" {
      PrecedenceIs(op, 11, 8);
    } else if op == "<" {
      PrecedenceIs(op, 12, 8);
    }
  }

  /** The bitwise and logical operators: `&` 7, `^` 6, `|` 5, `&&` 4, `||` 3. */
  lemma PrecedenceBitwiseLogical(op: string)
    ensures op in {"&"} ==> Precedence(op) == Some(7)
    ensures op in {"^"} ==> Precedence(op) == Some(6)
    ensures op in {"|"} ==> Precedence(op) == Some(5)
    ensures op in {"&&"} ==> Precedence(op) == Some(4)
    ensures op in {"||"} ==> Precedence(op) == Some(3)
  {
    if op == "&" {
      PrecedenceIs(op, 13, 7);
    } else if op == "^" {
      PrecedenceIs(op, 14, 6);
    } else if op == "|" {
      PrecedenceIs(op, 15, 5);
    } else if op == "&&" {
      PrecedenceIs(op, 16, 4);
    } else if op == "||" {
      PrecedenceIs(op, 17, 3);
    }
  }

  /** Plain and compound assignment are at level 1, the lowest. */
  lemma PrecedenceAssignment(op: string)
    ensures op in {"=", "-=", "+=", "*=", "/="} ==> Precedence(op) == Some(1)
  {
    if op == "=" {
      PrecedenceIs(op, 18, 1);
    } else if op == "-=" {
      PrecedenceIs(op, 19, 1);
    } else if op == "+=" {
      PrecedenceIs(op, 20, 1);
    } else if op == "*=" {
      PrecedenceIs(op, 21, 1);
    } else if op == "/=" {
      PrecedenceIs(op, 22, 1);
    }
  }

  /** A spelling that no entry carries is not found. */
  lemma {:induction false} LookupAbsent(table: seq<(string, nat)>, op: string)
    requires forall j :: 0 <= j < |table| ==> table[j].0 != op
    ensures Lookup(table, op) == None
  {
    if table != [] {
      LookupAbsent(table[1..], op);
    }
  }

  /** A spelling that no table entry carries has no level. */
  lemma PrecedenceAbsent(op: string)
    requires forall j :: 0 <= j < |OperatorTable| ==> OperatorTable[j].0 != op
    ensures Precedence(op) == None
  {
    LookupAbsent(OperatorTable, op);
  }

  /** Characters that begin a table spelling. */
  predicate OperatorStart(c: char) {
    c == '*' || c == '/' || c == '%' || c == '+' || c == '-' || c == '<' || c == '>' ||
    c == '=' || c == '!' || c == '&' || c == '^' || c == '|'
  }

  /** Characters that end a two-character table spelling. */
  predicate OperatorEnd(c: char) {
    c == '<' || c == '>' || c == '=' || c == '&' || c == '|'
  }

  /** The shape every table spelling has: one operator character, or two
      of which the second is one of `< > = & |`. */
  predicate OperatorShaped(s: string) {
    (|s| == 1 && OperatorStart(s[0])) || (|s| == 2 && OperatorStart(s[0]) && OperatorEnd(s[1]))
  }

  lemma TableShaped()
    ensures forall j :: 0 <= j < |OperatorTable| ==> OperatorShaped(OperatorTable[j].0)
  {
  }

  /** A spelling without the shape of a table entry has no level. */
  lemma ShapelessAbsent(op: string)
    requires !OperatorShaped(op)
    ensures Precedence(op) == None
  {
    TableShaped();
    PrecedenceAbsent(op);
  }

  /** The parentheses have no level. */
  lemma PrecedenceOfParentheses()
    ensures Precedence("(") == None && Precedence(")") == None
  {
    ShapelessAbsent("(");
    ShapelessAbsent(")");
  }

  /** The separators `,` and `;` have no level. */
  lemma PrecedenceOfSeparators()
    ensures Precedence(",") == None && Precedence(";") == None
  {
    ShapelessAbsent(",");
    ShapelessAbsent(";");
  }

  /** The step operators `++` and `--` have no level. */
  lemma PrecedenceOfSteps()
    ensures Precedence("++") == None && Precedence("--") == None
  {
    ShapelessAbsent("++");
    ShapelessAbsent("--");
  }

  // ---------------------------------------------------------------------
  // Character classes and runs

  predicate IsDigit(c: char) { '0' <= c <= '9' }
  predicate IsNonZeroDigit(c: char) { '1' <= c <= '9' }
  /** The class `[0-F]` as written: every character from '0' to 'F',
      which includes `: ; < = > ? @`. */
  predicate InZeroToF(c: char) { '0' <= c <= 'F' }
  /** The evidently intended hexadecimal digits `[0-9A-F]`. */
  predicate IsHexDigit(c: char) { IsDigit(c) || 'A' <= c <= 'F' }
  predicate IsIdentStart(c: char) { 'a' <= c <= 'z' || 'A' <= c <= 'Z' || c == '_' }
  predicate IsIdentChar(c: char) { IsIdentStart(c) || IsDigit(c) }
  predicate IsBlank(c: char) { c == '\r' || c == '\t' || c == '\n' || c == ' ' }

  /** Length of the longest prefix of `s` whose characters all satisfy `p`
      (a greedy `[...]*`). */
  function Run(s: string, p: char -> bool): (n: nat)
    ensures n <= |s|
    ensures forall i :: 0 <= i < n ==> p(s[i])
    ensures n < |s| ==> !p(s[n])
  {
    if s != [] && p(s[0]) then 1 + Run(s[1..], p) else 0
  }

  function DigitValue(c: char): int { c as int - '0' as int }

  function HexDigitValue(c: char): int {
    if IsDigit(c) then DigitValue(c) else c as int - 'A' as int + 10
  }

  /** `int(digits)` for a string of decimal digits. */
  function DecimalValue(digits: string): int
    decreases |digits|
  {
    if digits == [] then 0
    else DecimalValue(digits[..|digits| - 1]) * 10 + DigitValue(digits[|digits| - 1])
  }

  /** The base-16 value of a string of hexadecimal digits. */
  function HexDigitsValue(digits: string): int
    decreases |digits|
  {
    if digits == [] then 0
    else HexDigitsValue(digits[..|digits| - 1]) * 16 + HexDigitValue(digits[|digits| - 1])
  }

  /** `int("0x" + digits, base=16)`: Python accepts the `0x` prefix and
      raises ValueError for any character that is not a hexadecimal digit. */
  function HexLiteralValue(digits: string): Option<int> {
    if digits != [] && forall i :: 0 <= i < |digits| ==> IsHexDigit(digits[i])
    then Some(HexDigitsValue(digits))
    else None
  }

  // ---------------------------------------------------------------------
  // The rules, each as a prefix matcher

  /** The smallest `j >= k` where the closing star-slash starts, if any. */
  function CloseCommentAt(s: string, k: nat): (j: Option<nat>)
    ensures j.Some? ==> k <= j.value && j.value + 2 <= |s|
    decreases |s| - k
  {
    if k + 2 > |s| then None
    else if s[k] == '*' && s[k + 1] == '/' then Some(k)
    else CloseCommentAt(s, k + 1)
  }

  /** The smallest `j >= k` holding a double quote, if any. */
  function QuoteAt(s: string, k: nat): (j: Option<nat>)
    ensures j.Some? ==> k <= j.value < |s| && s[j.value] == '"'
    ensures j.Some? ==> forall i :: k <= i < j.value ==> s[i] != '"'
    ensures j.None? ==> forall i :: k <= i < |s| ==> s[i] != '"'
    decreases |s| - k
  {
    if k >= |s| then None
    else if s[k] == '"' then Some(k)
    else QuoteAt(s, k + 1)
  }

  // The block comment rule (slash-star, lazily anything, star-slash): the
  // comment ends at the first closing star-slash after the opener.
  function BlockCommentLength(s: string): Option<nat> {
    if |s| >= 2 && s[0] == '/' && s[1] == '*' then
      match CloseCommentAt(s, 2)
      case Some(j) => Some(j + 2)
      case None => None
    else None
  }

  /** `([1-9]\d*|0)?\.\d+`: an optional whole part, a dot, one or more digits. */
  function FloatLength(s: string): Option<nat> {
    var whole: nat :=
      if s != [] && IsNonZeroDigit(s[0]) then 1 + Run(s[1..], IsDigit)
      else if s != [] && s[0] == '0' then 1
      else 0;
    if whole < |s| && s[whole] == '.' && Run(s[whole + 1..], IsDigit) > 0
    then Some(whole + 1 + Run(s[whole + 1..], IsDigit))
    else None
  }

  /** `[1-9]\d*`; 0 when it does not match. */
  function IntegerLength(s: string): nat {
    if s != [] && IsNonZeroDigit(s[0]) then 1 + Run(s[1..], IsDigit) else 0
  }

  /** `0x` followed by one or more characters of the digit class; 0 when it
      does not match. `fixedHex` selects `[0-9A-F]` instead of `[0-F]`. */
  function HexLength(s: string, fixedHex: bool): nat {
    var digit := if fixedHex then IsHexDigit else InZeroToF;
    if |s| >= 2 && s[0] == '0' && s[1] == 'x' && Run(s[2..], digit) > 0
    then 2 + Run(s[2..], digit)
    else 0
  }

  /** `'(\'|[^'])'`: any one character between single quotes. */
  predicate IsCharLiteral(s: string) {
    |s| >= 3 && s[0] == '\'' && s[2] == '\''
  }

  /** `"(\"|[^"])*?"`: the literal ends at the first following double quote. */
  function StringLength(s: string): Option<nat> {
    if s != [] && s[0] == '"' then
      match QuoteAt(s, 1)
      case Some(j) => Some(j + 1)
      case None => None
    else None
  }

  /** `[a-zA-Z_][0-9a-zA-Z_]*`; 0 when it does not match. */
  function IdentifierLength(s: string): nat {
    if s != [] && IsIdentStart(s[0]) then 1 + Run(s[1..], IsIdentChar) else 0
  }

  const Types: seq<string> := ["char", "int", "float", "void"]
  const Keywords: seq<string> := ["if", "else if", "else", "for", "while", "return", "const"]
  /** The operator alternatives in listed order: every two-character
      spelling precedes the one-character ones. */
  const Operators: seq<string> := [
    "==", "!=", ">=", "<=", "<<", ">>", "-=", "+=", "*=", "/=",
    "&&", "||", "++", "--", ">", "<", "&", "^", "|",
    "+", "-", "*", "/", "%", "!", "~", "=", ";", ",", "[",
    "(", "{", "]", ")", "}"
  ]

  /** Ordered alternation of fixed words: the first listed word that is a
      prefix of `s`. */
  function FirstPrefix(words: seq<string>, s: string): (r: Option<string>)
    ensures r.Some? ==> r.value in words && r.value <= s
  {
    if words == [] then None
    else if words[0] <= s then Some(words[0])
    else FirstPrefix(words[1..], s)
  }

  /** What the scanner does at one position. */
  datatype Match =
    | Emit(length: nat, token: Token)   // a token-producing rule matched
    | Skip(length: nat)                 // a silent rule matched
    | Stuck                             // no rule matched, or only the empty whitespace match
    | Raised(literal: string)           // the rule's conversion raised ValueError

  /** The two comment rules, which are silent. */
  function CommentRule(s: string): (m: Option<Match>)
    ensures m.Some? ==> m.value.Skip? && 0 < m.value.length <= |s|
  {
    if BlockCommentLength(s).Some? then Some(Skip(BlockCommentLength(s).value))
    else if |s| >= 2 && s[0] == '/' && s[1] == '/' then Some(Skip(|s|))  // `//.*$` runs to the end
    else None
  }

  /** The four number rules: fractional, decimal, hexadecimal, a lone zero. */
  function NumberRule(s: string, fixedHex: bool): (m: Option<Match>)
    ensures m.Some? ==> (m.value.Emit? && 0 < m.value.length <= |s|) || m.value.Raised?
  {
    if FloatLength(s).Some? then
      var n := FloatLength(s).value;
      Some(Emit(n, Number(Float(s[..n]))))
    else if IntegerLength(s) > 0 then
      var n := IntegerLength(s);
      Some(Emit(n, Number(Int(DecimalValue(s[..n])))))
    else if HexLength(s, fixedHex) > 0 then
      var n := HexLength(s, fixedHex);
      match HexLiteralValue(s[2..n])
      case Some(v) => Some(Emit(n, Number(Int(v))))
      case None => Some(Raised(s[..n]))
    else if s != [] && s[0] == '0' then Some(Emit(1, Number(Int(0))))
    else None
  }

  /** The character and string rules; the token carries the text between
      the quotes. */
  function QuotedRule(s: string): (m: Option<Match>)
    ensures m.Some? ==> m.value.Emit? && 0 < m.value.length <= |s|
  {
    if IsCharLiteral(s) then Some(Emit(3, Character(s[1..2])))
    else if StringLength(s).Some? then
      var n := StringLength(s).value;
      Some(Emit(n, String(s[1..n - 1])))
    else None
  }

  /** The first listed word of `words` that starts `s`, as a token. */
  function WordRule(words: seq<string>, s: string, make: string -> Token): (m: Option<Match>)
    requires forall i :: 0 <= i < |words| ==> words[i] != []
    ensures m.Some? ==> m.value.Emit? && 0 < m.value.length <= |s|
  {
    match FirstPrefix(words, s)
    case Some(w) => Some(Emit(|w|, make(w)))
    case None => None
  }

  /** The type, keyword, operator and identifier rules, in that order. */
  function NameRule(s: string): (m: Option<Match>)
    ensures m.Some? ==> m.value.Emit? && 0 < m.value.length <= |s|
  {
    if WordRule(Types, s, w => Type(w)).Some? then WordRule(Types, s, w => Type(w))
    else if WordRule(Keywords, s, w => Keyword(w)).Some? then WordRule(Keywords, s, w => Keyword(w))
    else if WordRule(Operators, s, w => Operator(w)).Some? then WordRule(Operators, s, w => Operator(w))
    else if IdentifierLength(s) > 0 then
      var n := IdentifierLength(s);
      Some(Emit(n, Identifier(s[..n])))
    else None
  }

  /** The first rule that matches at the start of `s`, in listed order; the
      whitespace rule comes last and stops the scan when it matches nothing. */
  function NextMatch(s: string, fixedHex: bool): (m: Match)
    requires s != []
    ensures m.Emit? ==> 0 < m.length <= |s|
    ensures m.Skip? ==> 0 < m.length <= |s|
  {
    if CommentRule(s).Some? then CommentRule(s).value
    else if NumberRule(s, fixedHex).Some? then NumberRule(s, fixedHex).value
    else if QuotedRule(s).Some? then QuotedRule(s).value
    else if NameRule(s).Some? then NameRule(s).value
    else if Run(s, IsBlank) > 0 then Skip(Run(s, IsBlank))
    else Stuck
  }

  /** The scanner's result: the tokens and the unscanned remainder, or the
      literal whose conversion raised. */
  datatype Scanned = Scanned(tokens: seq<Token>, remainder: string) | ScanRaised(literal: string)

  /** A suffix of a suffix of `s` is a suffix of `s`. */
  lemma SuffixOfSuffix(s: string, n: nat, rest: string)
    requires n <= |s| && |rest| <= |s| - n && rest == s[n..][|s| - n - |rest|..]
    ensures rest == s[|s| - |rest|..]
  {
  }

  /** The scan loop: rules are applied until the text is used up or none
      matches. */
  function Scan(s: string, fixedHex: bool): (r: Scanned)
    decreases |s|
  {
    if s == [] then Scanned([], [])
    else
      match NextMatch(s, fixedHex)
      case Emit(n, t) =>
        (match Scan(s[n..], fixedHex)
         case Scanned(ts, rest) => Scanned([t] + ts, rest)
         case ScanRaised(l) => ScanRaised(l))
      case Skip(n) => Scan(s[n..], fixedHex)
      case Stuck => Scanned([], s)
      case Raised(l) => ScanRaised(l)
  }

  /** The remainder of a scan is a suffix of the text, and a non-empty one
      starts exactly where no rule matches. */
  lemma {:induction false} ScanRemainder(s: string, fixedHex: bool)
    ensures Scan(s, fixedHex).Scanned? ==>
      |Scan(s, fixedHex).remainder| <= |s| && Scan(s, fixedHex).remainder == s[|s| - |Scan(s, fixedHex).remainder|..]
    ensures Scan(s, fixedHex).Scanned? && Scan(s, fixedHex).remainder != [] ==>
      NextMatch(Scan(s, fixedHex).remainder, fixedHex).Stuck?
    decreases |s|
  {
    if s != [] {
      var m := NextMatch(s, fixedHex);
      if m.Emit? || m.Skip? {
        ScanRemainder(s[m.length..], fixedHex);
        var r := Scan(s[m.length..], fixedHex);
        if r.Scanned? {
          SuffixOfSuffix(s, m.length, r.remainder);
        }
      }
    }
  }

  /** The outcome of `lex`: `(True, tokens)`, `(False, message)`, or the
      ValueError raised while converting a literal. */
  datatype LexResult = Lexed(tokens: seq<Token>) | LexFailed(message: string) | LexRaised(literal: string)

  const FailurePrefix: string := "failed to lex: "

  function LexWith(code: string, fixedHex: bool): (r: LexResult)
    ensures r.LexFailed? ==>
      |FailurePrefix| < |r.message| && r.message[..|FailurePrefix|] == FailurePrefix &&
      NextMatch(r.message[|FailurePrefix|..], fixedHex).Stuck?
  {
    ScanRemainder(code, fixedHex);
    match Scan(code, fixedHex)
    case ScanRaised(l) => LexRaised(l)
    case Scanned(ts, rest) =>
      if rest != [] then
        assert (FailurePrefix + rest)[|FailurePrefix|..] == rest;
        LexFailed(FailurePrefix + rest)
      else Lexed(ts)
  }

  /** `lex(code)`, as written. */
  function Lex(code: string): LexResult {
    LexWith(code, false)
  }

  /** `lex(code)` with the hexadecimal class corrected to `[0-9A-F]`. */
  function LexIntended(code: string): LexResult {
    LexWith(code, true)
  }
}
