# cobra: lexer, parser and code generator

cobra compiles a small C-like language to Python. `lex` turns the source
text into tokens, the recursive-descent `Parser` turns the tokens into
nested tuples (the concrete syntax tree), and `Codegen` lowers those
tuples to Python `ast` nodes and wraps them in a module. This project
models those three stages and proves what each does with its input,
including the inputs the code does not handle as its comments suggest.

Files and modules:

- `lexer.dfy` (`Lexer`): tokens, the precedence table, and `lex`. The
  scanner's rules are written out as prefix matchers with the regular
  expressions' own semantics: ordered alternation, greedy and lazy runs,
  and DOTALL. `Lex` is the lexer as written. `LexIntended` is the same
  lexer with the hexadecimal class corrected (see Findings).
- `core.dfy`: module `Cursor` holds the token list with its cursor as a
  value, plus the reading and moving operations of `StandardParser` as
  functions of that value. Module `Core` holds the class `StandardParser`,
  whose fields `tokens` and `cursor` its methods update in place. Each
  method is proved to produce exactly the matching `Cursor` function.
  Python's exceptions are the `Exception` datatype, returned as `Err`.
- `grammar.dfy` (`Grammar`): the syntax-tree datatype (one constructor per
  tuple shape the parser builds) and every parsing routine as a function
  from a state to a result and a new state. `alternative` is an ordered
  choice over indexed alternatives. An alternative raises Continue with
  the state untouched.
- `parsing.dfy` (`Parsing`): the class `Parser`, with the parser's loops
  and in-place token deletions as methods on a shared `StandardParser`.
  Each method is proved to return and leave exactly what the `Grammar`
  function of the same name gives.
- `codegen.dfy` (`Codegen`): Python's `ast` values as a datatype, the
  `transform` dispatch and its handlers as one function over syntax
  trees, and the class `Codegen`. Its `GenModule` consumes the parser
  lazily, one declaration at a time, as the generator does. It is proved
  equal to lowering everything `parse` yields.
- `lexer_props.dfy`, `parser_props.dfy`, `statement_props.dfy`,
  `declaration_props.dfy`, `call_props.dfy`, `toplevel_props.dfy`,
  `codegen_props.dfy`: the properties of each stage.

Where the code's own comments and names suggest otherwise, the model
follows the code:

- Binary operators of equal precedence nest to the right. The inner loop
  of `binary` climbs on `>=`, so `a - b - c` is `a - (b - c)`, despite the
  comment there calling every operator left-associative
  (`ParserProperties.ClimbTighter`).
- `else if` is lexed as one keyword, and `parse_if` looks up its node kind
  `NELSE IF`, which does not exist. The KeyError becomes the keyword
  dispatcher's UnexpectedToken, so an `else if` chain never parses
  (`StatementProperties.ElseIfFails`).
- Prefix `++x` lowers to `x + 1` alone: nothing is assigned
  (`CodegenProperties.PrefixStepDoesNotAssign`). Postfix `x++` lowers to
  `x` (`CodegenProperties.PostfixIsOperand`).
- `for` lowers to None: `transform_for` prints its parts and returns
  nothing (`CodegenProperties.ForLowersToNone`).
- `T x = e` parses as the declaration of `x` whose initialiser is the
  whole assignment `x = e`. Its dispatch kind is then the tuple
  `(NDECL, x)`, so `transform_statement` lowers only the initialiser
  (`CodegenProperties.InitialisedDeclaration`).
- A forward declaration has three children, and
  `transform_function_declaration` reads a fourth. Any module holding one
  raises IndexError (`CodegenProperties.ForwardDeclarationRaises`).
- `return;` needs a second `;`
  (`StatementProperties.ReturnNeedsTwoSemicolons`).
- `parse` swallows IndexError, so input cut off in the middle of a
  declaration ends the module silently
  (`ToplevelProperties.ForwardThenTruncated`).
- The lexer's type rule has no word boundary, so `integer` is the type
  `int` followed by the identifier `eger`
  (`LexerProperties.TypeThenIdentifier`).

## Model

| member | source | states |
|---|---|---|
| Lexer.Spellings | lexer/lexer.py:40 | `BINARY_OPERATORS` lists exactly the spellings of the table, one per entry, in table order |
| Lexer.LookupFindsFirst | lexer/lexer.py:43-50 | `precedence` scans the table in order: it finds a level exactly when the spelling occurs, and the level is that of its first occurrence |
| Lexer.PrecedenceDefinedIffBinary | lexer/lexer.py:40-50 | `precedence(op)` is not None exactly when `op` is in `BINARY_OPERATORS` |
| Lexer.LookupAt | lexer/lexer.py:46-48 | the entry at position k decides the lookup when no earlier entry has the spelling |
| Lexer.PrecedenceOfEntries | lexer/lexer.py:15-39 | the table's spellings are pairwise distinct, so every entry gives its operator its own level |
| Lexer.PrecedenceIs | lexer/lexer.py:15-39 | the entry at k gives its operator that entry's level |
| Lexer.PrecedenceArithmetic | lexer/lexer.py:16-20 | `* / %` are at 12 and `+ -` at 11 |
| Lexer.PrecedenceShift | lexer/lexer.py:21-22 | `<< >>` are at 10 |
| Lexer.PrecedenceComparison | lexer/lexer.py:23-28 | `== != >= <= > <` are at 8 |
| Lexer.PrecedenceBitwiseLogical | lexer/lexer.py:29-33 | `&` 7, `^` 6, `\|` 5, `&&` 4, `\|\|` 3 |
| Lexer.PrecedenceAssignment | lexer/lexer.py:34-38 | `= -= += *= /=` are at 1, below every other level |
| Lexer.LookupAbsent | lexer/lexer.py:46-50 | a spelling no entry carries is not found |
| Lexer.PrecedenceAbsent | lexer/lexer.py:43-50 | a spelling no entry carries has no level (None) |
| Lexer.ShapelessAbsent | lexer/lexer.py:43-50 | a spelling without the shape of an operator entry has no level |
| Lexer.PrecedenceOfParentheses | lexer/lexer.py:43-50 | `(` and `)` have no level |
| Lexer.PrecedenceOfSeparators | lexer/lexer.py:43-50 | `,` and `;` have no level |
| Lexer.PrecedenceOfSteps | lexer/lexer.py:43-50 | `++` and `--` have no level |
| Lexer.CloseCommentAt | lexer/lexer.py:67 | the search behind the lazy `.*?` of a block comment: a position found lies at or after k, with the whole closing star-slash inside the text |
| Lexer.QuoteAt | lexer/lexer.py:78 | the lazy body of a string literal: the result is the first double quote at or after k, and none exists when the result is None |
| Lexer.FirstPrefix | lexer/lexer.py:81-87 | an alternation of fixed words: a word it picks is one of the listed words and starts the text |
| Lexer.CommentRule | lexer/lexer.py:67-68 | a comment match is a silent step (no token) of positive length within the text |
| Lexer.NumberRule | lexer/lexer.py:71-74 | a number match is a token step of positive length within the text, or the ValueError of a conversion |
| Lexer.QuotedRule | lexer/lexer.py:77-78 | a character or string match is a token step of positive length within the text |
| Lexer.WordRule | lexer/lexer.py:81-87 | a word match is a token step of positive length within the text |
| Lexer.NameRule | lexer/lexer.py:81-90 | the type, keyword, operator and identifier rules in listed order; a match has positive length |
| Lexer.NextMatch | lexer/lexer.py:65-94 | the scanner's step, rules tried in listed order: a token or silent step always has positive length and stays within the text, so the scan makes progress |
| Lexer.ScanRemainder | lexer/lexer.py:65-94 | the remainder of `re.Scanner.scan` is a suffix of the text, and a non-empty one starts where no rule matches |
| Lexer.LexWith | lexer/lexer.py:53-99 | `lex`: a failure message is `failed to lex: ` followed by a non-empty text at which no rule matches |
| LexerProperties.DecimalToken | lexer/lexer.py:72 | a decimal literal without a leading zero is one number token with its decimal value |
| LexerProperties.ZeroToken | lexer/lexer.py:74 | `0` not followed by `x` or `.` is the number 0 on its own |
| LexerProperties.HexToken | lexer/lexer.py:73 | `0x` and digits of the class as written is one number token with its base-16 value |
| LexerProperties.HexTokenIntended | lexer/lexer.py:73 | with the corrected class `[0-9A-F]` the literal ends at the first non-hexadecimal character |
| LexerProperties.HexSwallowsPunctuation | lexer/lexer.py:73 | as written, the class `[0-F]` also takes `: ; < = > ? @`, and converting such a literal raises ValueError |
| LexerProperties.CharToken | lexer/lexer.py:77 | `'c'` is a character token carrying `c` |
| LexerProperties.StringToken | lexer/lexer.py:78 | a string literal ends at the first following double quote and carries the text between the quotes |
| LexerProperties.LineComment | lexer/lexer.py:68 | with DOTALL a line comment runs to the end of the text, newlines included |
| LexerProperties.BlockComment | lexer/lexer.py:67 | a block comment ends at the first closing star-slash |
| LexerProperties.EarlyRulesPass | lexer/lexer.py:67-78 | a text that starts with none of `/`, a digit, `.` or a quote is left to the later rules |
| LexerProperties.FirstPrefixAt | lexer/lexer.py:81-87 | the k-th listed word is chosen when it starts the text and no earlier word does |
| LexerProperties.TypeToken | lexer/lexer.py:81 | a type name is a type token whatever follows it: the rule has no word boundary |
| LexerProperties.KeywordAt | lexer/lexer.py:84 | a keyword that starts the text is the token when no type and no earlier keyword does |
| LexerProperties.ElseIfToken | lexer/lexer.py:59 | `else if` is one keyword token, since it is listed before `else` |
| LexerProperties.NameHeads | lexer/lexer.py:58-59 | every type and keyword starts with a letter |
| LexerProperties.OperatorHeads | lexer/lexer.py:60-63 | every operator starts with punctuation |
| LexerProperties.OperatorAt | lexer/lexer.py:87 | an operator that starts the text is the token when no earlier operator does |
| LexerProperties.EqualsToken | lexer/lexer.py:60 | `==` is one token whatever follows |
| LexerProperties.IncrementToken | lexer/lexer.py:61 | `++` is one token whatever follows |
| LexerProperties.AndToken | lexer/lexer.py:61 | `&&` is one token whatever follows |
| LexerProperties.ShiftToken | lexer/lexer.py:60 | `<<` is one token whatever follows |
| LexerProperties.AddAssignToken | lexer/lexer.py:60 | `+=` is one token whatever follows |
| LexerProperties.SemicolonToken | lexer/lexer.py:62 | `;` at the end of the text is one operator token |
| LexerProperties.NameDecides | lexer/lexer.py:81-90 | when the earlier rules pass, the name rules decide the match |
| LexerProperties.IdentifierRule | lexer/lexer.py:90 | with no type, keyword or operator at the start, a non-empty identifier match is the token |
| LexerProperties.IdentifierToken | lexer/lexer.py:90 | an identifier runs over letters, digits and underscores when no type or keyword starts the text |
| LexerProperties.BlankRun | lexer/lexer.py:93 | a run of blanks is one silent step |
| LexerProperties.NothingMatches | lexer/lexer.py:93-97 | when no rule matches and no blank starts the text, the scan stops there |
| LexerProperties.HashStuck | lexer/lexer.py:93-97 | at `#` no rule matches, so the scan stops with the whole text as remainder |
| LexerProperties.LexScanned | lexer/lexer.py:94-99 | a scan that uses up the text makes `lex` succeed with its tokens |
| LexerProperties.TypeThenIdentifier | lexer/lexer.py:81 | a type name run together with an identifier lexes to two tokens (`integer` is `int` and `eger`) |
| LexerProperties.ZeroThenDecimal | lexer/lexer.py:72-74 | `0` followed by decimal digits lexes to two numbers, 0 and the rest |
| LexerProperties.HexLiteral | lexer/lexer.py:73 | a hexadecimal literal alone lexes to its base-16 value, with the class as written and as corrected |
| LexerProperties.HexThenSemicolonRaises | lexer/lexer.py:73 | as written, a hexadecimal literal followed by `;` raises ValueError instead of lexing |
| LexerProperties.HexThenSemicolonIntended | lexer/lexer.py:73 | with the corrected class, a hexadecimal literal followed by `;` lexes to the number and the `;` |
| LexerProperties.HashFails | lexer/lexer.py:96-97 | a text the scan cannot start is reported whole after `failed to lex: ` |
| LexerProperties.LineCommentLexesToNothing | lexer/lexer.py:68 | a line comment lexes to no tokens |
| LexerProperties.BlockCommentDropped | lexer/lexer.py:67 | a block comment emits nothing; the scan goes on after it |
| LexerProperties.BlanksDropped | lexer/lexer.py:93 | blanks emit nothing; the scan goes on after them |
| LexerProperties.StringLexes | lexer/lexer.py:78 | a string literal alone lexes to one string token carrying its body |
| LexerProperties.HexStopsAtLowercase | lexer/lexer.py:73 | a lower-case letter ends a hexadecimal literal |
| LexerProperties.NoRaiseIntended | lexer/lexer.py:73 | with `[0-9A-F]` every hexadecimal match converts |
| LexerProperties.LexIntendedNeverRaises | lexer/lexer.py:53-99 | with the corrected class `lex` never raises: it returns the tokens or the failure message |
| LexerProperties.ScanNeverRaises | lexer/lexer.py:65-94 | with the corrected class the scan never raises, on any text |
| Cursor.MatchesSomeIsAnyMatch | parser/core.py:83-86 | `isin` holds exactly when `isa` holds for some listed value |
| Cursor.Current | parser/core.py:52-55 | the token under the cursor, and IndexError exactly when the cursor is past the end |
| Cursor.IsA | parser/core.py:75-81 | IndexError exactly past the end; otherwise true exactly when the type matches and, when a value is given, the value too |
| Cursor.IsIn | parser/core.py:83-86 | an empty list gives false without reading; otherwise IndexError past the end, and true exactly when some listed value matches |
| Cursor.Move | parser/core.py:67-69 | the cursor moves by the amount and the tokens stay |
| Cursor.DropEnd | parser/core.py:73 | the slice end `cursor + r`, clamped to the length of the list |
| Cursor.Drop | parser/core.py:71-73 | the list loses exactly the slice `[cursor - l, cursor + r)` and the cursor stays |
| Cursor.Consume | parser/core.py:88-103 | on a match, the token's value and the cursor one further; otherwise UnexpectedToken naming the token found and what was expected, or IndexError past the end, with the state unchanged |
| Cursor.Ignore | parser/core.py:105-112 | consumes exactly a matching token; otherwise None and no change; IndexError past the end |
| Cursor.NoAlternative | parser/core.py:123-125 | UnexpectedToken on the current token, or IndexError past the end, with the state unchanged |
| Core.StandardParser.constructor | parser/core.py:43-45 | the parser holds the given tokens with the cursor at 0 |
| Core.StandardParser.Token | parser/core.py:52-55 | `self.token` on the fields is `Current` of the fields' state |
| Core.StandardParser.Value | parser/core.py:62-65 | `self.value`: the current token's value, or IndexError past the end |
| Core.StandardParser.IsA | parser/core.py:75-81 | `isa` on the fields is `Cursor.IsA` of their state |
| Core.StandardParser.IsIn | parser/core.py:83-86 | `isin` on the fields is `Cursor.IsIn` of their state |
| Core.StandardParser.Move | parser/core.py:67-69 | the new fields are `Cursor.Move` of the old |
| Core.StandardParser.Drop | parser/core.py:71-73 | the new fields are `Cursor.Drop` of the old |
| Core.StandardParser.Consume | parser/core.py:88-103 | the result and new fields are `Cursor.Consume` of the old |
| Core.StandardParser.Ignore | parser/core.py:105-112 | the result and new fields are `Cursor.Ignore` of the old |
| Grammar.BinaryOperatorToken | parser/parser.py:86 | `isin(TOPERATOR, BINARY_OPERATORS)` holds on a token exactly when it is an operator whose spelling has a precedence |
| Grammar.Require | parser/parser.py:12-17 | success exactly when the token `move` ahead matches, with the cursor moved; otherwise Continue with the cursor moved back, or IndexError when that position is the end |
| Grammar.ParseTerm | parser/parser.py:19-23 | never gives back tokens, passes at least one on success, raises Continue only with the state untouched; success is the term of the current token, whose type is the requested one |
| Grammar.ParseParenExpression | parser/parser.py:5-9 | never gives back tokens, passes at least one on success, raises Continue only with the state untouched; never raises KeyError |
| Grammar.ParseExpression | parser/parser.py:11-97 | never gives back tokens, passes at least one on success, raises Continue only with the state untouched, and in fact never raises Continue or KeyError |
| Grammar.ParseParen | parser/parser.py:42-44 | never gives back tokens, passes at least one on success, raises Continue only with the state untouched; never raises KeyError |
| Grammar.ParseFuncall | parser/parser.py:46-61 | never gives back tokens, passes at least one on success, raises Continue only with the state untouched; never raises KeyError |
| Grammar.FuncallArgs | parser/parser.py:55-57 | the argument loop never gives back tokens and never raises Continue or KeyError; the arguments read so far stay a prefix of the result |
| Grammar.ParseRUnary | parser/parser.py:32-40 | never gives back tokens, passes at least one on success, raises Continue only with the state untouched, even though it deletes a token; never raises KeyError |
| Grammar.ParseLUnary | parser/parser.py:25-30 | never gives back tokens, passes at least one on success, raises Continue only with the state untouched; never raises KeyError; `ParserProperties.LUnaryRound` states that a success is the prefix node of the operator over the primary after it |
| Grammar.PrimaryAlt | parser/parser.py:63-81 | each alternative of `primary` never gives back tokens, passes at least one on success, raises Continue only with the state untouched; never raises KeyError |
| Grammar.PrimaryFrom | parser/core.py:114-125 | `alternative` over the remaining alternatives never gives back tokens, passes at least one on success, raises Continue only with the state untouched, and itself never raises Continue or KeyError |
| Grammar.ParsePrimary | parser/parser.py:63-81 | never gives back tokens, passes at least one on success, raises Continue only with the state untouched, and in fact never raises Continue or KeyError |
| Grammar.ParseBinary | parser/parser.py:83-95 | never gives back tokens and never raises Continue or KeyError; when the current token climbs (an operator of level at least `mp`) a success passes at least one token; `ParserProperties.ChainRounds` states that a chain of any number of operands at one level is fully right-nested |
| Grammar.RightOperand | parser/parser.py:90-91 | never gives back tokens and never raises Continue or KeyError |
| Grammar.OptionalExpr | parser/parser.py:120-133 | never gives back tokens and never raises Continue or KeyError; an absent clause leaves the state as it was, at the stop operator |
| Grammar.ParseIf | parser/parser.py:99-114 | never gives back tokens, passes at least one on success, raises Continue only with the state untouched; never raises Continue; a success was entered at `if` (never at `else if`) and is an `if` node; `StatementProperties.IfRound` (no tail), `StatementProperties.IfElseRound` (`else`), `StatementProperties.IfElseIfRound` (`else if`), `StatementProperties.IfBareRound` (bare) and `StatementProperties.IfAtEnd` (IndexError at the end of the input) state each branch |
| Grammar.ParseFor | parser/parser.py:116-140 | never gives back tokens, passes at least one on success, raises Continue only with the state untouched; never raises Continue; a success is a `for` node; `StatementProperties.ForRound` states that the node holds the three clauses and the body read in a row |
| Grammar.ParseWhile | parser/parser.py:142-150 | never gives back tokens, passes at least one on success, raises Continue only with the state untouched; never raises Continue; a success is a `while` node; `StatementProperties.WhileRound` states that the node holds the condition and the body read in a row |
| Grammar.ParseReturn | parser/parser.py:152-159 | never gives back tokens, passes at least one on success, raises Continue only with the state untouched, and in fact never raises Continue or KeyError; a success is a `return` node; `StatementProperties.ReturnRound` states that it holds the expression after the keyword |
| Grammar.Stars | parser/parser.py:165-166 | the loop over `*` only moves forward, raises only IndexError, passes only `*` tokens and stops at a token that is not `*`; `DeclarationProperties.StarsRun` states that it passes a run of n stars exactly |
| Grammar.VariableName | parser/parser.py:161-168 | only moves forward and never raises Continue or KeyError; a success has passed at least a type and a name, and the token just before the new cursor is the identifier returned; `DeclarationProperties.VariableNameRound` states the name after the optional `const`, the type and any stars |
| Grammar.ParseVariable | parser/parser.py:161-175 | only moves forward and never raises Continue or KeyError; a success passes at least two tokens, and when its last token is `]` at least four |
| Grammar.InitStart | parser/parser.py:181-185 | the state the initialiser is parsed from is valid and exactly one token further from the end than the state after the variable |
| Grammar.ParseDeclaration | parser/parser.py:177-189 | never gives back tokens, passes at least one on success, raises Continue only with the state untouched, and in fact never raises Continue or KeyError; a success is a declaration with or without an initialiser; `DeclarationProperties.DeclInitRound` (with `=`), `DeclarationProperties.DeclBareRound` (without) and `DeclarationProperties.DeclarationAtEnd` (IndexError at the end of the input) state each branch |
| Grammar.KeywordFailure | parser/parser.py:209 | IndexError exactly at the end of the tokens; TypeError exactly on a number (a string plus an int); otherwise UnexpectedToken on the current token |
| Grammar.KeywordStatement | parser/parser.py:197-209 | never gives back tokens, passes at least one on success, raises Continue only with the state untouched; never raises KeyError, since the dispatcher replaces every KeyError |
| Grammar.StatementAlt | parser/parser.py:192-215 | each alternative of `parse_statement` never gives back tokens, passes at least one on success, raises Continue only with the state untouched; never raises KeyError |
| Grammar.StatementFrom | parser/parser.py:211-215 | `alternative` over the remaining statement alternatives never gives back tokens, passes at least one on success, raises Continue only with the state untouched, and itself never raises Continue or KeyError |
| Grammar.ParseStatement | parser/parser.py:191-220 | never gives back tokens, passes at least one on success, raises Continue only with the state untouched, and in fact never raises Continue or KeyError |
| Grammar.ParseBlock | parser/parser.py:222-235 | never gives back tokens, passes at least one on success, raises Continue only with the state untouched, and in fact never raises Continue or KeyError; a success is a block; `ToplevelProperties.BracedBlock` states that `{ s1 … sn }` is the block of exactly those statements |
| Grammar.BlockItems | parser/parser.py:230-231 | the statement loop never gives back tokens and never raises Continue or KeyError; the statements read so far stay a prefix of the result; `ToplevelProperties.BlockRun` states that n statements before `}` are appended in order |
| Grammar.Parameters | parser/parser.py:242-244 | only moves forward and never raises Continue or KeyError; a success stops at `)`; `ToplevelProperties.ParametersRun` states that n parameters before `)` are appended in order |
| Grammar.ParameterList | parser/parser.py:237-248 | only moves forward and never raises Continue or KeyError; a success is a parameter list and passes at least `(` and `)`; `ToplevelProperties.ParameterListOf` states that `( p1 … pn )` lists exactly their names |
| Grammar.ParseToplevel | parser/parser.py:250-257 | never gives back tokens, passes at least one on success, raises Continue only with the state untouched, and in fact never raises Continue or KeyError; a success is a function or a forward declaration; at the end of the tokens it raises IndexError |
| Grammar.ParseFrom | parser/core.py:132-138 | the loop yields only function and forward declarations, and the error it stops with is never Continue, KeyError or the swallowed IndexError |
| Grammar.Parse | parser/core.py:132-138 | `parse` yields only function and forward declarations, and yields nothing, without error, from no tokens |
| Parsing.Parser.constructor | parser/core.py:43-45 | the parser's state is the given tokens with the cursor at 0 |
| Parsing.Parser.Require | parser/parser.py:12-17 | `require`: the result and the new token list and cursor are exactly what `Grammar.Require` gives from the old ones |
| Parsing.Parser.Term | parser/parser.py:19-23 | `term(type_)`: the result and the new token list and cursor are exactly what `Grammar.ParseTerm` gives from the old ones |
| Parsing.Parser.ParseParenExpression | parser/parser.py:5-9 | `parse_paren_expression`: the result and the new token list and cursor are exactly what `Grammar.ParseParenExpression` gives from the old ones |
| Parsing.Parser.ParseExpression | parser/parser.py:11-97 | `parse_expression`: the result and the new token list and cursor are exactly what `Grammar.ParseExpression` gives from the old ones |
| Parsing.Parser.Paren | parser/parser.py:42-44 | `paren`: the result and the new token list and cursor are exactly what `Grammar.ParseParen` gives from the old ones |
| Parsing.Parser.Funcall | parser/parser.py:46-61 | `funcall`: the result and the new token list and cursor are exactly what `Grammar.ParseFuncall` gives from the old ones |
| Parsing.Parser.FuncallArgs | parser/parser.py:55-57 | the argument loop, with its invariant: the result and the new token list and cursor are exactly what `Grammar.FuncallArgs` gives from the old ones |
| Parsing.Parser.RUnary | parser/parser.py:32-40 | `runary(value)`, deleting the postfix operator in place: the result and the new token list and cursor are exactly what `Grammar.ParseRUnary` gives from the old ones |
| Parsing.Parser.LUnary | parser/parser.py:25-30 | `lunary(value)`: the result and the new token list and cursor are exactly what `Grammar.ParseLUnary` gives from the old ones |
| Parsing.Parser.PrimaryAlt | parser/parser.py:65-81 | the alternatives of `primary`: the result and the new token list and cursor are exactly what `Grammar.PrimaryAlt` gives from the old ones |
| Parsing.Parser.Primary | parser/parser.py:63-81 | `primary`, the `alternative` loop with its invariant: the result and the new token list and cursor are exactly what `Grammar.ParsePrimary` gives from the old ones |
| Parsing.Parser.Binary | parser/parser.py:83-95 | `binary`, the outer `while` loop: the result and the new token list and cursor are exactly what `Grammar.ParseBinary` gives from the old ones |
| Parsing.Parser.RightOperand | parser/parser.py:90-91 | the inner `while` loop of `binary`: the result and the new token list and cursor are exactly what `Grammar.RightOperand` gives from the old ones |
| Parsing.Parser.OptionalExpr | parser/parser.py:122-133 | an optional clause of `parse_for`: the result and the new token list and cursor are exactly what `Grammar.OptionalExpr` gives from the old ones |
| Parsing.Parser.ParseIf | parser/parser.py:99-114 | `parse_if`: the result and the new token list and cursor are exactly what `Grammar.ParseIf` gives from the old ones |
| Parsing.Parser.ParseFor | parser/parser.py:116-140 | `parse_for`: the result and the new token list and cursor are exactly what `Grammar.ParseFor` gives from the old ones |
| Parsing.Parser.ParseWhile | parser/parser.py:142-150 | `parse_while`: the result and the new token list and cursor are exactly what `Grammar.ParseWhile` gives from the old ones |
| Parsing.Parser.ParseReturn | parser/parser.py:152-159 | `parse_return`: the result and the new token list and cursor are exactly what `Grammar.ParseReturn` gives from the old ones |
| Parsing.Parser.Stars | parser/parser.py:165-166 | the `*` loop: the result and the new token list and cursor are exactly what `Grammar.Stars` gives from the old ones |
| Parsing.Parser.ParseVariable | parser/parser.py:161-175 | `parse_variable`: the result and the new token list and cursor are exactly what `Grammar.ParseVariable` gives from the old ones |
| Parsing.Parser.Rewind | parser/parser.py:181-185 | the move back and the array-suffix `drop` of `parse_declaration`: the new token list and cursor are `Grammar.InitStart` of the old |
| Parsing.Parser.ParseDeclaration | parser/parser.py:177-189 | `parse_declaration`: the result and the new token list and cursor are exactly what `Grammar.ParseDeclaration` gives from the old ones |
| Parsing.Parser.KeywordStatement | parser/parser.py:197-209 | the `keyword` alternative with its KeyError handler: the result and the new token list and cursor are exactly what `Grammar.KeywordStatement` gives from the old ones |
| Parsing.Parser.StatementAlt | parser/parser.py:192-215 | the alternatives of `parse_statement`: the result and the new token list and cursor are exactly what `Grammar.StatementAlt` gives from the old ones |
| Parsing.Parser.ParseStatement | parser/parser.py:191-220 | `parse_statement`: the result and the new token list and cursor are exactly what `Grammar.ParseStatement` gives from the old ones |
| Parsing.Parser.ParseBlock | parser/parser.py:222-235 | `parse_block`: the result and the new token list and cursor are exactly what `Grammar.ParseBlock` gives from the old ones |
| Parsing.Parser.BlockItems | parser/parser.py:230-231 | the statement loop of `parse_block`: the result and the new token list and cursor are exactly what `Grammar.BlockItems` gives from the old ones |
| Parsing.Parser.ParameterList | parser/parser.py:237-248 | `parse_parameter_list` with its loop: the result and the new token list and cursor are exactly what `Grammar.ParameterList` gives from the old ones |
| Parsing.Parser.ParseToplevel | parser/parser.py:250-257 | `parse_toplevel`: the result and the new token list and cursor are exactly what `Grammar.ParseToplevel` gives from the old ones |
| Parsing.Parser.Parse | parser/core.py:132-138 | `parse`: the declarations yielded and the error that stops the loop are exactly `Grammar.ParseFrom` of the old state |
| Codegen.Attributable | codegen/codegen.py:183-184 | setting an attribute fails, with AttributeError, exactly on None and on a list |
| Codegen.SetCtx | codegen/codegen.py:166-167 | `node.ctx = ctx`: AttributeError exactly on None and lists; a Name takes the new context; any other node is unchanged |
| Codegen.LowerCons | codegen/codegen.py:300-301 | the first node yielded is lowered before the rest: its error wins, otherwise its lowering leads the module |
| Codegen.LowerEnd | codegen/codegen.py:303-309 | when the parser stops without error, the module is the lowered statements followed by `main()` exactly when asked for |
| Codegen.Codegen.constructor | codegen/codegen.py:12-13 | the transformer holds the given parser |
| Codegen.Codegen.GenModule | codegen/codegen.py:296-313 | `gen_module`, which lowers each node as the generator yields it: the outcome is that of lowering everything `parse` yields from the parser's starting state (`Lower` of `ParseFrom`), nodes in order and the first error winning |
| CodegenProperties.IdentifierLoads | codegen/codegen.py:246-255 | an identifier operand lowers to a Name in Load mode |
| CodegenProperties.ParametersAsParam | codegen/codegen.py:32-36 | a parameter list lowers to `arguments` with one Name in Param mode per parameter, in order |
| CodegenProperties.UnlistedKindsRaise | codegen/codegen.py:270-294 | a type, keyword or operator operand, and a declaration with an initialiser (whose kind is a tuple), raise KeyError in the dispatch |
| CodegenProperties.AssignTable | codegen/codegen.py:175-181 | `transform_assign` accepts exactly `= += -= *= /=`; `=` has no operator, and each compound form its own (Add, Sub, Mult, Div) |
| CodegenProperties.OperatorTablesDisjoint | codegen/codegen.py:195-221 | the three tables of `transform_op` are pairwise disjoint and list no assignment |
| CodegenProperties.AssignmentDecides | codegen/codegen.py:235-241 | a binary node whose `transform_assign` does not raise KeyError lowers to exactly that |
| CodegenProperties.PlainAssignment | codegen/codegen.py:183-188 | `x = e` lowers to an Assign of `x` in Store mode and the lowered value |
| CodegenProperties.CompoundAssignment | codegen/codegen.py:190-193 | `x op= e` lowers to an Assign to `x` in Store mode of the BinOp of `x` in Load mode (the misspelt `cts` leaves it so), the table's operator, and the value |
| CodegenProperties.NonAssignmentFallsThrough | codegen/codegen.py:238-241 | a spelling `transform_assign` does not list lowers as `transform_op` does |
| CodegenProperties.AssignmentOperandKeyError | codegen/codegen.py:238-241 | a KeyError raised while lowering an assignment's operands is caught as well, and `transform_op` then returns None |
| CodegenProperties.AddressAssignmentIsNone | codegen/codegen.py:138-159 | `&x = e` lowers to None: the KeyError of `&` escapes into the assignment's handler |
| CodegenProperties.ArithmeticLowering | codegen/codegen.py:223-225 | an arithmetic or bitwise spelling lowers to a BinOp of the lowered operands with the table's operator |
| CodegenProperties.ComparisonLowering | codegen/codegen.py:227-229 | a comparison lowers to a Compare with one operator and one comparator |
| CodegenProperties.BooleanLowering | codegen/codegen.py:231-233 | `&&` and `\|\|` lower to a BoolOp of the lowered operands |
| CodegenProperties.UnlistedOperatorIsNone | codegen/codegen.py:195-233 | a spelling in no table lowers to None, whatever its operands |
| CodegenProperties.PrefixStepDoesNotAssign | codegen/codegen.py:151-157 | prefix `++`/`--` on a name lowers to the BinOp of the name in Load mode with 1, and as a statement only to its Expr: nothing is assigned |
| CodegenProperties.UnaryLowering | codegen/codegen.py:159 | `+ - ! ~` lower to the UnaryOp (UAdd, USub, Not, Invert) of the lowered operand |
| CodegenProperties.AddressOfRaises | codegen/codegen.py:138-159 | prefix `&` is in neither table and raises KeyError |
| CodegenProperties.PostfixIsOperand | codegen/codegen.py:164-169 | postfix `++`/`--` on a name lowers to the name in Load mode: the operator has no effect |
| CodegenProperties.StatementWrapping | codegen/codegen.py:41-52 | outside an initialised declaration, a statement is the node's lowering when that is an Assign, If, While or Return, and its Expr otherwise |
| CodegenProperties.InitialisedDeclaration | codegen/codegen.py:41-43 | `T x = e;` (parsed as the declaration of `x` with initialiser `x = e`) lowers to the Assign of `e` to `x` |
| CodegenProperties.BareDeclarationLowers | codegen/codegen.py:60-62 | `T x;` lowers to the Assign of the name None to `x` |
| CodegenProperties.IfWithoutElse | codegen/codegen.py:68-81 | `if` without a tail lowers to an If whose orelse is the empty list |
| CodegenProperties.IfWithElse | codegen/codegen.py:74-80 | with `else`, the lowered else block is the orelse |
| CodegenProperties.IfWithIfTail | codegen/codegen.py:77-78 | a tail that lowers to an If becomes a one-element list |
| CodegenProperties.WhileLowering | codegen/codegen.py:108-112 | `while` lowers to a While with the empty orelse |
| CodegenProperties.BareFormsRaise | codegen/codegen.py:68-112 | a bare `if`, a bare `while` and a `for` without a body raise ValueError when unpacked |
| CodegenProperties.ForLowersToNone | codegen/codegen.py:92-103 | `transform_for` returns None after lowering its parts, so a `for` statement becomes the Expr of None |
| CodegenProperties.OmittedClauseRaises | codegen/codegen.py:93-95 | an omitted first `for` clause is None, and transforming it raises TypeError |
| CodegenProperties.ReturnLowering | codegen/codegen.py:117-120 | `return e` lowers to a Return of the lowered value, `return` to a Return of nothing |
| CodegenProperties.TransformAllPointwise | codegen/codegen.py:128 | `map(self.transform, nodes)` succeeds exactly when every node lowers, giving the lowerings in order; otherwise the error of the first that raises |
| CodegenProperties.BlockPointwise | codegen/codegen.py:54-55 | a block succeeds exactly when each statement lowers, giving the statements' lowerings in order |
| CodegenProperties.FunctionLowering | codegen/codegen.py:19-27 | a function declaration lowers to a FunctionDef of its name, its Param names and its lowered body, with no decorators |
| CodegenProperties.ForwardDeclarationRaises | codegen/codegen.py:19-20 | a forward declaration has no fourth child: it raises IndexError, and so does every module it heads |
| CodegenProperties.ModuleLowering | codegen/codegen.py:296-309 | the module holds the lowered top-level nodes in source order, then `main()` exactly when asked for |
| CodegenProperties.ForwardDeclarationModule | codegen/codegen.py:296-301 | for `T f ( ) ; T g` the module cannot be generated: IndexError |
| CodegenProperties.EmptyFunctionModule | codegen/codegen.py:296-309 | for `T f ( ) { }` the module holds the empty function `f`, then `main()` when asked for |
| ParserProperties.PrimarySkip | parser/core.py:117-121 | alternatives that raise Continue are passed over without effect on the state |
| ParserProperties.PrimaryFirstApplicable | parser/core.py:114-125 | `primary` gives exactly what its first alternative that does not raise Continue gives, state included |
| ParserProperties.PrimaryNoneApplicable | parser/core.py:123-125 | when every alternative raises Continue, `primary` raises UnexpectedToken on the current token |
| ParserProperties.StatementFirstApplicable | parser/parser.py:211-215 | `parse_statement` takes exactly what its first alternative that does not raise Continue gives |
| ParserProperties.EndsHasNoLevel | lexer/lexer.py:43-50 | the separator operators `;`, `)` and `,` have no level |
| ParserProperties.BinaryOperatorIsNotPostfix | parser/parser.py:63-81 | a binary operator is never `(`, `++` or `--`, so it starts no call, postfix or group |
| ParserProperties.OperandPassesOver | parser/parser.py:63-81 | every alternative of `primary` before an operand's own term raises Continue on it |
| ParserProperties.PrimaryOperand | parser/parser.py:63-81 | an operand not followed by `(` (after a name) or a postfix operator is a primary on its own, one token long |
| ParserProperties.ExpressionStep | parser/parser.py:97 | an expression is `binary` from its first primary at level 0 |
| ParserProperties.BinaryStops | parser/parser.py:86 | `binary` returns its left operand at a token that is not a binary operator |
| ParserProperties.RightStops | parser/parser.py:90 | the inner loop returns its operand at such a token |
| ParserProperties.BinaryRound | parser/parser.py:86-93 | one round of `binary`: the operator, the primary after it, the inner loop, then `binary` again from the combined node |
| ParserProperties.FinalRound | parser/parser.py:86-95 | the last round: an operator of level at least `mp`, a lone operand and an ending token give the one binary node |
| ParserProperties.RightRound | parser/parser.py:90-91 | an operator at least as tight as the consumed one makes the right operand a `binary` at its level |
| ParserProperties.RightBelow | parser/parser.py:90 | the inner loop stops at an operator looser than the consumed one |
| ParserProperties.OperandExpression | parser/parser.py:97 | an operand followed by an ending token is the whole expression |
| ParserProperties.ConsumeOperator | parser/core.py:88-103 | `consume` of a present operator takes exactly it and moves one on |
| ParserProperties.ConsumeKeyword | parser/core.py:88-103 | `consume` of a present keyword takes exactly it and moves one on |
| ParserProperties.ConsumeAny | parser/core.py:88-103 | `consume` of any token of the current type takes it |
| ParserProperties.IgnoreAbsent | parser/core.py:105-112 | `ignore` of an operator that is not there returns None and changes nothing |
| ParserProperties.ParenRound | parser/parser.py:5-9 | a parenthesised expression is `(`, the expression and `)` in a row |
| ParserProperties.ParenStep | parser/parser.py:5-9 | `( e )` is `e`, with the cursor after the `)` |
| ParserProperties.ClimbSingle | parser/parser.py:83-97 | `a op b` parses as the one binary node |
| ParserProperties.TighterRounds | parser/parser.py:86-93 | after a first operand, a second operator at least as tight as the first is absorbed into the right operand |
| ParserProperties.ClimbTighter | parser/parser.py:83-97 | `a o1 b o2 c` with `o2` at least as tight as `o1` is `a o1 (b o2 c)`: equal levels nest to the right, against the source's own comment |
| ParserProperties.LooserRounds | parser/parser.py:86-93 | after a first operand, a looser second operator ends the inner loop and starts a new round |
| ParserProperties.ClimbLooser | parser/parser.py:83-97 | `a o1 b o2 c` with `o2` looser than `o1` is `(a o1 b) o2 c` |
| ParserProperties.PostfixDrop | parser/parser.py:32-40 | `runary(op)` deletes the operator token, moves back to the operand and parses it alone |
| ParserProperties.ParenNeedsParenthesis | parser/parser.py:42-44 | `paren` raises Continue on anything but `(` |
| ParserProperties.FuncallNeedsParenthesis | parser/parser.py:46-48 | `funcall` raises Continue unless a name is directly followed by `(` |
| ParserProperties.PostfixNeedsOperator | parser/parser.py:34 | `runary(op)` raises Continue unless `op` follows the current token |
| ParserProperties.PostfixPassesOver | parser/parser.py:63-81 | every alternative before the postfix one for `op` raises Continue on an operand followed by `op` |
| ParserProperties.PrimaryPostfix | parser/parser.py:63-81 | an operand followed by `--` or `++` is that postfix node, with the operator token deleted from the list |
| StatementProperties.NotDeclaration | parser/parser.py:192-194 | the declaration alternative raises Continue on a token that is not a type |
| StatementProperties.NotKeywordStatement | parser/parser.py:197-199 | the keyword alternative raises Continue on a token that is not a keyword |
| StatementProperties.KeywordChosen | parser/parser.py:211-215 | on a keyword the statement is the keyword dispatcher's |
| StatementProperties.KeywordDispatch | parser/parser.py:201-207 | the dispatcher on `if`, `for`, `while` or `return` gives what that parser gives, unless it raises KeyError |
| StatementProperties.ExpressionChosen | parser/parser.py:211-215 | on a token that is neither a type nor a keyword the statement is the expression |
| StatementProperties.StatementSkips | parser/parser.py:217-220 | an `if`, `else`, `for` or `while` node is the whole statement, with no `;` |
| StatementProperties.StatementTakesSemicolon | parser/parser.py:217-218 | any other statement takes the `;` that follows it |
| StatementProperties.StatementFails | parser/parser.py:211-215 | a failing alternative fails the statement with its error |
| StatementProperties.KeywordSkips | parser/parser.py:217-220 | a keyword statement whose node needs no `;` is the whole statement |
| StatementProperties.BlockOfStatement | parser/parser.py:225-226 | a block without braces is its one statement |
| StatementProperties.Operand | parser/parser.py:97 | an operand followed by an ending token is the expression, stopping at that token |
| StatementProperties.ParenOperand | parser/parser.py:5-9 | `( a )` is the operand, with the cursor after `)` |
| StatementProperties.ExpressionStatement | parser/parser.py:211-220 | `a ;` is an expression statement that takes its `;` |
| StatementProperties.SingleStatementBlock | parser/parser.py:222-226 | `a ;` without braces is the block of that statement alone |
| StatementProperties.ReturnEmpty | parser/parser.py:152-157 | `return ;` consumes the `;` inside `parse_return` |
| StatementProperties.ReturnNeedsTwoSemicolons | parser/parser.py:152-157 | `return ;` needs a second `;`: with it the statement is the bare return, without it the parse fails on the next token, or with IndexError at the end |
| StatementProperties.IfBareRound | parser/parser.py:103-104 | an `if` whose condition is followed by `;` is a bare `if`, ending before the `;` |
| StatementProperties.BareIfLeavesSemicolon | parser/parser.py:103-104 | `if (a);` as a statement ends just before its `;` |
| StatementProperties.ClauseAbsent | parser/parser.py:122-133 | a `for` clause is absent when its stop token comes first |
| StatementProperties.ForBareRound | parser/parser.py:137-138 | `for (;;)` followed by `;` has every clause absent and no body |
| StatementProperties.BareForLeavesSemicolon | parser/parser.py:137-138 | `for (;;);` as a statement ends just before its `;` |
| StatementProperties.WhileBareRound | parser/parser.py:148-149 | a `while` whose condition is followed by `;` takes the `;` and has no body |
| StatementProperties.BareWhileTakesSemicolon | parser/parser.py:148-149 | `while (a);` as a statement ends after its `;`, unlike the bare `if` and `for` |
| StatementProperties.IgnoreKeyword | parser/core.py:105-112 | `ignore` of a present keyword takes it |
| StatementProperties.IfElseRound | parser/parser.py:111-112 | an `if` body followed by `else` gets the else block as its tail |
| StatementProperties.IfRound | parser/parser.py:106-114 | an `if` whose body is followed by neither `else` nor `else if` is the `if` of the condition and the body without a tail, with the cursor after the body |
| StatementProperties.IfAtEnd | parser/parser.py:106-108 | an `if` whose body ends the input raises IndexError from the `else if` lookup, with the cursor after the body |
| StatementProperties.IfThenNext | parser/parser.py:99-220 | `if (a) b; c` is the statement `if` of `a` and the block of `b` without a tail, stopping at `c` |
| StatementProperties.IfLastRaises | parser/parser.py:99-220 | `if (a) b;` at the end of the input fails the statement with IndexError |
| StatementProperties.IfElse | parser/parser.py:99-114 | `if (a) b; else d;` is the `if` with the `else` block `d;` as its tail |
| StatementProperties.ElseIfRaises | parser/parser.py:100 | `parse_if` at `else if` consumes the keyword, then raises KeyError looking up its node kind |
| StatementProperties.IfElseIfRound | parser/parser.py:108-109 | an `if` body followed by `else if` raises that KeyError, past the keyword |
| StatementProperties.KeyErrorCaught | parser/parser.py:208-209 | the dispatcher replaces a KeyError from `parse_if` by its own error, read where the KeyError left the cursor |
| StatementProperties.ElseIfFails | parser/parser.py:197-209 | `if (a) b; else if ...` never parses: IndexError at the end, TypeError on a number, otherwise UnexpectedToken on the token after `else if` |
| StatementProperties.KeywordUnlisted | parser/parser.py:201-209 | the dispatcher on a keyword it does not list fails, through its KeyError handler, with the error of that keyword and consumes nothing |
| StatementProperties.UnlistedKeyword | parser/parser.py:201-209 | `const`, `else` and `else if` cannot start a statement: UnexpectedToken on that keyword, nothing consumed |
| DeclarationProperties.VariableNameSimple | parser/parser.py:161-168 | `T x` with no `const` and no stars names `x` |
| DeclarationProperties.VariableSimple | parser/parser.py:161-175 | `T x` not followed by `[` is the variable `x`, the cursor after it |
| DeclarationProperties.VariableArray | parser/parser.py:170-173 | `T x [ N ]` is still the variable `x`; the suffix is read and discarded |
| DeclarationProperties.SingleBinary | parser/parser.py:83-97 | `a op b` followed by an ending token is one binary node |
| DeclarationProperties.DeclInitRound | parser/parser.py:180-187 | a variable followed by `=` is declared with the expression parsed from the rewound state |
| DeclarationProperties.DeclBareRound | parser/parser.py:177-189 | any variable followed by a token other than `=` is declared without an initialiser, the cursor left at that token |
| DeclarationProperties.DeclarationAtEnd | parser/parser.py:177-180 | a variable that ends the input raises IndexError from the `=` lookup |
| DeclarationProperties.InitStartPlain | parser/parser.py:181 | after a plain name the rewind goes one token back, to the name |
| DeclarationProperties.DeclarationRewinds | parser/parser.py:177-187 | `T x = a` is the declaration of `x` whose initialiser is the whole assignment `x = a` |
| DeclarationProperties.InitStartArray | parser/parser.py:183-185 | after `T x [ N ]` the rewind deletes `[ N ]` from the list and stands at the name |
| DeclarationProperties.ArrayDeclaration | parser/parser.py:177-187 | `T x [ N ] = a` is again the declaration with initialiser `x = a`, in the list without `[ N ]` |
| DeclarationProperties.DeclarationChosen | parser/parser.py:192-195 | on a type the statement is the declaration |
| DeclarationProperties.DeclarationStatement | parser/parser.py:177-218 | `T x = a ;` is the statement `((NDECL, x), (=, x, a))`, which takes its `;` |
| DeclarationProperties.BareDeclaration | parser/parser.py:189 | `T x ;` declares `x` without an initialiser |
| CallProperties.ArgsClose | parser/parser.py:55 | the argument loop ends at `)` and leaves it in place |
| CallProperties.ArgStep | parser/parser.py:55-57 | one argument, then the optional comma, then the rest of the loop |
| CallProperties.TakesComma | parser/parser.py:57 | `ignore(",")` on a comma takes it |
| CallProperties.FuncallRound | parser/parser.py:46-61 | `f (` arguments `)` is the call of `f` on them, with the cursor after `)` |
| CallProperties.CallExpression | parser/parser.py:63-67 | a call followed by an ending token is the whole expression |
| CallProperties.FuncallWithComma | parser/parser.py:46-61 | `f ( a , b )` is the call of `f` on `a` and `b` |
| CallProperties.FuncallWithoutComma | parser/parser.py:55-57 | `f ( a b )` is the same call: the commas are optional |
| ToplevelProperties.EmptyParameterList | parser/parser.py:237-248 | `( )` is the empty parameter list |
| ToplevelProperties.OneParameter | parser/parser.py:237-248 | `( T x )` lists the name alone |
| ToplevelProperties.ForwardRound | parser/parser.py:255-256 | a header followed by `;` is a forward declaration |
| ToplevelProperties.FunctionRound | parser/parser.py:257 | a header followed by anything else is a function with the block as its body |
| ToplevelProperties.ForwardDeclaration | parser/parser.py:250-256 | `T f ( ) ;` is the forward declaration `(NFWDDECL, T, f, (NPLIST,))` |
| ToplevelProperties.EmptyBraces | parser/parser.py:228-235 | `{ }` is the empty block |
| ToplevelProperties.EmptyFunction | parser/parser.py:250-257 | `T f ( ) { }` is the function `(NFUNDECL, T, f, (NPLIST,), (NBLOCK,))` |
| ToplevelProperties.UnbracedFunction | parser/parser.py:225-226 | `T f ( ) a ;` has the block of its one statement as its body |
| ToplevelProperties.ParseStep | parser/core.py:134-136 | a declaration read first is yielded before whatever the loop reads after it |
| ToplevelProperties.ParseAtEnd | parser/core.py:137-138 | at the end of the tokens `parse` stops silently |
| ToplevelProperties.TruncatedHeader | parser/core.py:132-138 | `T f` at the end: the IndexError ends the parse silently, nothing yielded |
| ToplevelProperties.NotAType | parser/parser.py:251 | a token that is not a type stops the parse with UnexpectedToken, nothing yielded |
| ToplevelProperties.ForwardThenTruncated | parser/core.py:132-138 | `T f ( ) ; T g` yields the forward declaration, then ends without error |
| ToplevelProperties.EmptyFunctionAlone | parser/core.py:132-138 | `T f ( ) { }` yields the function, then ends without error |
| Lexer.BinaryOperators | lexer/lexer.py:40 | `BINARY_OPERATORS`; has no contract of its own; its behaviour is stated by `Lexer.Spellings` (the table's spellings in order) and `Lexer.PrecedenceDefinedIffBinary` (exactly the spellings with a level) |
| Lexer.Lookup | lexer/lexer.py:46-50 | the loop of `precedence`; has no contract of its own; its behaviour is stated by `Lexer.LookupFindsFirst`, `Lexer.LookupAt` and `Lexer.LookupAbsent`: the level of the first entry with the spelling, None when no entry has it |
| Lexer.Precedence | lexer/lexer.py:43-50 | `precedence`; has no contract of its own; its behaviour is stated by `Lexer.PrecedenceDefinedIffBinary`, `Lexer.PrecedenceIs`, `Lexer.PrecedenceAbsent` and the per-group lemmas `Lexer.PrecedenceArithmetic` to `Lexer.PrecedenceAssignment` |
| Lexer.Scan | lexer/lexer.py:65-94 | `re.Scanner.scan`; has no contract of its own; its behaviour is stated by `Lexer.ScanRemainder` (the remainder is a suffix that starts where no rule matches), `LexerProperties.ScanEmit`, `LexerProperties.ScanSkip` and `LexerProperties.ScanEmpty` (one step at a time) and `LexerProperties.ScanNeverRaises` (never raises with the corrected class) |
| Lexer.Lex | lexer/lexer.py:53-99 | `lex` as written; has no contract of its own; its behaviour is stated by the contract of `Lexer.LexWith` and by `LexerProperties.LexScanned`, `LexerProperties.HashFails`, `LexerProperties.ZeroThenDecimal`, `LexerProperties.HexLiteral` and `LexerProperties.HexThenSemicolonRaises` |
| Lexer.LexIntended | lexer/lexer.py:53-99 | `lex` with the class `[0-9A-F]`; has no contract of its own; its behaviour is stated by the contract of `Lexer.LexWith` and by `LexerProperties.LexIntendedNeverRaises` and `LexerProperties.HexThenSemicolonIntended` |
| Lexer.BlockCommentLength | lexer/lexer.py:67 | the block comment pattern; has no contract of its own; its behaviour is stated by `LexerProperties.BlockComment` (the comment ends at the first closing star-slash) and `LexerProperties.BlockCommentDropped` |
| Lexer.FloatLength | lexer/lexer.py:71 | the float pattern; has no contract of its own; its behaviour is stated by `LexerProperties.FloatToken` (whole part, dot and fraction make one float token carrying its text) |
| Lexer.IntegerLength | lexer/lexer.py:72 | the decimal pattern; has no contract of its own; its behaviour is stated by `LexerProperties.DecimalToken` and `LexerProperties.ZeroThenDecimal` (a leading zero ends the literal) |
| Lexer.HexLength | lexer/lexer.py:73 | the hexadecimal pattern; has no contract of its own; its behaviour is stated by `LexerProperties.HexToken`, `LexerProperties.HexTokenIntended`, `LexerProperties.HexStopsAtLowercase` and `LexerProperties.HexSwallowsPunctuation` |
| Lexer.StringLength | lexer/lexer.py:78 | the string pattern; has no contract of its own; its behaviour is stated by `LexerProperties.StringToken` (the literal ends at the first following double quote) and `LexerProperties.StringLexes` |
| Lexer.IdentifierLength | lexer/lexer.py:90 | the identifier pattern; has no contract of its own; its behaviour is stated by `LexerProperties.IdentifierRule` and `LexerProperties.IdentifierToken` |
| Lexer.DecimalValue | lexer/lexer.py:72 | `int(token)` on decimal digits; has no contract of its own; its behaviour is stated by `LexerProperties.DecimalToken` and `LexerProperties.ZeroThenDecimal`, whose tokens carry this value |
| Lexer.HexLiteralValue | lexer/lexer.py:73 | `int(token, base=16)`; has no contract of its own; its behaviour is stated by `LexerProperties.HexToken` and `LexerProperties.HexLiteral` (the base-16 value) and `LexerProperties.HexSwallowsPunctuation` and `LexerProperties.HexThenSemicolonRaises` (the ValueError on a character that is not a digit) |
| Cursor.Matches | parser/core.py:75-81 | the test of `isa` on a present token; has no contract of its own; its behaviour is stated by the contract of `Cursor.IsA` and by `Cursor.MatchesSomeIsAnyMatch` |
| Cursor.MatchesSome | parser/core.py:83-86 | the test of `isin` on a present token; has no contract of its own; its behaviour is stated by `Cursor.MatchesSomeIsAnyMatch` (some listed value matches) and the contract of `Cursor.IsIn` |
| Codegen.StepOperator | codegen/codegen.py:140-143 | the `bop` table of `transform_lunary` (`++` Add, `--` Sub); has no contract of its own; its behaviour is stated by `CodegenProperties.PrefixStepDoesNotAssign` |
| Codegen.UnaryOperatorOf | codegen/codegen.py:144-149 | the `uop` table of `transform_lunary`; has no contract of its own; its behaviour is stated by `CodegenProperties.UnaryLowering` (UAdd, USub, Not, Invert) and `CodegenProperties.AddressOfRaises` (`&` is in neither table) |
| Codegen.AssignOperator | codegen/codegen.py:175-181 | the table of `transform_assign`; has no contract of its own; its behaviour is stated by `CodegenProperties.AssignTable` (exactly the five spellings, `=` without an operator) and `CodegenProperties.OperatorTablesDisjoint` |
| Codegen.BinOperatorOf | codegen/codegen.py:196-208 | the `binop` table of `transform_op`; has no contract of its own; its behaviour is stated by `CodegenProperties.ArithmeticLowering` and `CodegenProperties.OperatorTablesDisjoint` |
| Codegen.CmpOperatorOf | codegen/codegen.py:209-217 | the `cmpop` table of `transform_op`; has no contract of its own; its behaviour is stated by `CodegenProperties.ComparisonLowering` and `CodegenProperties.OperatorTablesDisjoint` |
| Codegen.BoolOperatorOf | codegen/codegen.py:218-221 | the `boolop` table of `transform_op`; has no contract of its own; its behaviour is stated by `CodegenProperties.BooleanLowering`, `CodegenProperties.OperatorTablesDisjoint` and `CodegenProperties.UnlistedOperatorIsNone` |
| Codegen.TransformClause | codegen/codegen.py:93-95 | a clause of `transform_for`; has no contract of its own; its behaviour is stated by `CodegenProperties.OmittedClauseRaises` (an omitted clause raises TypeError) and `CodegenProperties.ForLowersToNone` |
| Codegen.IsBareStatement | codegen/codegen.py:46-52 | the node kinds `transform_statement` leaves unwrapped; has no contract of its own; its behaviour is stated by `CodegenProperties.StatementWrapping` (Assign, If, While and Return stay bare, anything else is wrapped in Expr) |
| Codegen.Transform | codegen/codegen.py:270-294 | `transform`, the dispatch on the node kind; has no contract of its own; its behaviour is stated by `CodegenProperties.IdentifierLoads`, `CodegenProperties.ParametersAsParam`, `CodegenProperties.UnlistedKindsRaise`, `CodegenProperties.AssignmentDecides`, the `CodegenProperties` lowering lemmas of each kind, `CodegenProperties.FunctionLowering` and `CodegenProperties.ForwardDeclarationRaises` |
| Codegen.TransformAll | codegen/codegen.py:128 | `map(self.transform, nodes)`; has no contract of its own; its behaviour is stated by `CodegenProperties.TransformAllPointwise` (success exactly when every node lowers, the results in order) |
| Codegen.TransformStatements | codegen/codegen.py:54-55 | `transform_block`; has no contract of its own; its behaviour is stated by `CodegenProperties.BlockPointwise` |
| Codegen.TransformStatement | codegen/codegen.py:41-52 | `transform_statement`; has no contract of its own; its behaviour is stated by `CodegenProperties.StatementWrapping` (Expr around every node but Assign, If, While and Return) and `CodegenProperties.InitialisedDeclaration` |
| Codegen.TransformAssign | codegen/codegen.py:174-193 | `transform_assign`; has no contract of its own; its behaviour is stated by `CodegenProperties.AssignTable`, `CodegenProperties.PlainAssignment` and `CodegenProperties.CompoundAssignment` |
| Codegen.TransformOp | codegen/codegen.py:195-233 | `transform_op`; has no contract of its own; its behaviour is stated by `CodegenProperties.OperatorTablesDisjoint`, `CodegenProperties.ArithmeticLowering`, `CodegenProperties.ComparisonLowering`, `CodegenProperties.BooleanLowering` and `CodegenProperties.UnlistedOperatorIsNone` |
| Codegen.Lower | codegen/codegen.py:296-313 | the loop and the `main` call of `gen_module`; has no contract of its own; its behaviour is stated by `Codegen.LowerCons`, `Codegen.LowerEnd` and `CodegenProperties.ModuleLowering` |
| Codegen.GenModuleOf | codegen/codegen.py:296-313 | `gen_module` on the tokens of a parser; has no contract of its own; its behaviour is stated by `CodegenProperties.ModuleLowering`, `CodegenProperties.ForwardDeclarationModule`, `CodegenProperties.EmptyFunctionModule` and the contract of `Codegen.Codegen.GenModule` |
| LexerProperties.FloatLengthOf | lexer/lexer.py:71 | the float pattern spans a whole part without a leading zero, the dot and the whole run of fraction digits |
| LexerProperties.FloatToken | lexer/lexer.py:71 | a whole part without a leading zero, a dot and a fraction of digits is one float token carrying its text |
| ParserProperties.InnerAtLevel | parser/parser.py:90-91 | at an operator of the consumed operator's own level, the inner loop gives what `binary` at that level gives: equal levels nest to the right |
| ParserProperties.ChainRounds | parser/parser.py:83-95 | for any n, `binary` over a chain of n operators of one level, each followed by an operand, gives the fully right-nested tree `e o1 (x1 o2 (x2 …))` |
| ParserProperties.ChainExpression | parser/parser.py:83-97 | an operand followed by such a chain is, as a whole expression, that right-nested tree, with the cursor at the ending token |
| ParserProperties.LUnaryRound | parser/parser.py:25-30 | `lunary(op)` at `op` is the prefix node of `op` over the primary read after it, with the cursor where that primary ends |
| ParserProperties.PrefixPassesOver | parser/parser.py:63-81 | every alternative of `primary` before the prefix one for `op` raises Continue |
| ParserProperties.PrimaryPrefix | parser/parser.py:63-81 | `primary` at a prefix operator is that prefix node over the next primary |
| ParserProperties.PrefixExpression | parser/parser.py:25-30 | `op a` followed by an ending token is the expression `(NLUNARY, op, a)` |
| StatementProperties.ClausePresent | parser/parser.py:122-133 | a `for` clause that does not start with its stop token is the expression read there |
| StatementProperties.ClauseOperand | parser/parser.py:122-133 | an operand followed by the stop token `;` or `)` is that clause |
| StatementProperties.ForRound | parser/parser.py:116-140 | `for`, `(`, a clause, `;`, a clause, `;`, a clause, `)` and a body not starting with `;` is the `for` node of the three clauses and the body |
| StatementProperties.ForWithBody | parser/parser.py:116-140 | `for (a; b; c) d;` is the `for` node of `a`, `b`, `c` and the block of `d`, with the cursor after the `;` |
| StatementProperties.WhileRound | parser/parser.py:142-150 | `while`, `(`, the condition, `)` and a body not starting with `;` is the `while` node of the condition and the body |
| StatementProperties.WhileWithBody | parser/parser.py:142-150 | the statement `while (a) b;` is the `while` node of `a` and the block of `b`, with the cursor after the `;` |
| StatementProperties.ReturnRound | parser/parser.py:152-159 | `return` followed by anything but `;` is the `return` node of the expression read after it |
| StatementProperties.ReturnValue | parser/parser.py:152-220 | the statement `return a ;` is the `return` node of `a` and takes its `;` |
| DeclarationProperties.StarsRun | parser/parser.py:165-166 | for any n, a run of n `*` followed by another token is passed exactly |
| DeclarationProperties.VariableNameRound | parser/parser.py:161-168 | the optional `const`, a type, the stars and an identifier give that identifier's name, with the cursor after it |
| DeclarationProperties.ConstPointerName | parser/parser.py:161-168 | `const T * * x` names `x`, with the cursor after it |
| DeclarationProperties.DeclarationAlt | parser/parser.py:192-194 | on a type the first alternative of `parse_statement` is `parse_declaration` |
| ToplevelProperties.ParamStep | parser/parser.py:242-244 | one round of the parameter loop: a variable, the optional comma, then the rest of the loop with the name appended |
| ToplevelProperties.ParamsClose | parser/parser.py:242 | the parameter loop ends at `)` and leaves it in place |
| ToplevelProperties.ParametersRun | parser/parser.py:242-244 | for any n, n parameters (each with an optional comma) before `)` are appended to the names read so far, in order |
| ToplevelProperties.ParameterListOf | parser/parser.py:237-248 | `(`, n parameters and `)` is the parameter list of exactly their names, with the cursor after `)` |
| ToplevelProperties.TwoParameters | parser/parser.py:237-248 | `( T x , U y )` is the parameter list `[x, y]` |
| ToplevelProperties.BlockStep | parser/parser.py:230-231 | one round of the statement loop: a statement, then the rest of the loop with it appended |
| ToplevelProperties.BlockRun | parser/parser.py:230-231 | for any n, n statements before `}` are appended to the statements read so far, in order |
| ToplevelProperties.BracedBlock | parser/parser.py:222-235 | `{`, n statements and `}` is the block of exactly those statements, with the cursor after `}` |
| ToplevelProperties.TwoStatementBlock | parser/parser.py:222-235 | `{ a ; b ; }` is the block of `a` and `b` |

## Left out

- Floating-point values: a fractional literal is lexed with its extent and carries its text (`Lexer.Float`), not `float(token)`.
- Error message text: UnexpectedToken carries the token found and what was expected, not the formatted string.
- `print_tree`, `StandardParser.rest` and the abstract `StandardParser.parse_toplevel` are not modelled: the first two are only for display, and the third only raises NotImplementedError.
- The printing done by `transform_for` is not modelled. Only its result, None, is.
- `module.lineno`, `col_offset` and `ast.fix_missing_locations` are not modelled, because they set source positions only.
- Python's negative list indices are not modelled: the cursor stays within `0..len(tokens)`, which is where the parser keeps it.
- `alternative` takes bound methods and closures in the source. Here each call site is an ordered choice over numbered alternatives with the same order and the same Continue handling.
- LexerProperties: single-token lemmas are proved for the operators `==`, `++`, `&&`, `<<`, `+=` and `;` and for the keywords through `KeywordAt`, not for every entry of the operator list. The other operators follow the same `OperatorAt` pattern.
- LexerProperties.TypeThenIdentifier, HexLiteral, HexThenSemicolonRaises and HexThenSemicolonIntended are stated over any name or any digits, rather than for the single inputs `integer` and `0x1F`.
- Grammar.ParseExpression, Grammar.ParseStatement and the other parsing functions: their contracts state progress and which exceptions can escape. The trees they build are stated by the lemmas in ParserProperties, StatementProperties, DeclarationProperties, CallProperties and ToplevelProperties, for each shape of input those lemmas name. No single contract covers every token list.
- Codegen.Codegen.GenModule is proved against the parser's state when it starts. That the generator is single-use is not modelled.

## Findings

| source | as written | input that shows it | evidently intended | confidence | as-written member | corrected member |
|---|---|---|---|---|---|---|
| lexer/lexer.py:73 | the hexadecimal class `[0-F]` runs from `0` to `F` in ASCII, so it also takes `: ; < = > ? @`. `int(token, base=16)` then raises ValueError, and `lex` raises instead of returning a result | `0x1F;`: the literal swallows the `;` | `[0-9A-F]`: `0x1F;` is the number 31 and the operator `;`, and `lex` never raises | not executed | LexerProperties.HexThenSemicolonRaises | LexerProperties.HexThenSemicolonIntended |
