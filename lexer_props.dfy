/** Properties of `lex`: what one step of the scanner takes from the front
    of the text, rule by rule, and whole inputs built from those steps. */
module LexerProperties {
  import opened Lexer

  // ---------------------------------------------------------------------
  // Runs

  /** A run over characters that all satisfy `p`, followed by one that
      does not (or by nothing), is exactly as long as they are. */
  lemma {:induction false} RunOver(s: string, rest: string, p: char -> bool)
    requires forall i :: 0 <= i < |s| ==> p(s[i])
    requires rest == [] || !p(rest[0])
    ensures Run(s + rest, p) == |s|
    decreases |s|
  {
    if s == [] {
      assert s + rest == rest;
    } else {
      assert (s + rest)[1..] == s[1..] + rest;
      RunOver(s[1..], rest, p);
    }
  }

  // ---------------------------------------------------------------------
  // Numbers

  /** A decimal literal without a leading zero is one number token with
      its decimal value, when no digit or `.` follows. */
  lemma {:induction false} DecimalToken(d: string, rest: string, fixedHex: bool)
    requires |d| > 0 && IsNonZeroDigit(d[0]) && forall i :: 0 <= i < |d| ==> IsDigit(d[i])
    requires rest == [] || (!IsDigit(rest[0]) && rest[0] != '.')
    ensures NextMatch(d + rest, fixedHex) == Emit(|d|, Number(Int(DecimalValue(d))))
  {
    var s := d + rest;
    assert s[1..] == d[1..] + rest;
    RunOver(d[1..], rest, IsDigit);
    assert s[..|d|] == d;
    assert FloatLength(s).None?;
    assert NumberRule(s, fixedHex) == Some(Emit(|d|, Number(Int(DecimalValue(d)))));
  }

  /** The float pattern spans a whole part without a leading zero, the dot
      and the fraction, when no digit follows. */
  lemma {:induction false} FloatLengthOf(d: string, f: string, rest: string)
    requires |d| > 0 && IsNonZeroDigit(d[0]) && forall i :: 0 <= i < |d| ==> IsDigit(d[i])
    requires |f| > 0 && forall i :: 0 <= i < |f| ==> IsDigit(f[i])
    requires rest == [] || !IsDigit(rest[0])
    ensures FloatLength(d + "." + f + rest) == Some(|d| + 1 + |f|)
  {
    var s := d + "." + f + rest;
    assert s[1..] == d[1..] + ("." + f + rest);
    RunOver(d[1..], "." + f + rest, IsDigit);
    assert s[|d|] == '.';
    assert s[|d| + 1..] == f + rest;
    RunOver(f, rest, IsDigit);
  }

  /** A whole part without a leading zero, a dot and a fraction of digits
      is one float token carrying its text: the float rule is tried first. */
  lemma {:induction false} FloatToken(d: string, f: string, rest: string, fixedHex: bool)
    requires |d| > 0 && IsNonZeroDigit(d[0]) && forall i :: 0 <= i < |d| ==> IsDigit(d[i])
    requires |f| > 0 && forall i :: 0 <= i < |f| ==> IsDigit(f[i])
    requires rest == [] || !IsDigit(rest[0])
    ensures NextMatch(d + "." + f + rest, fixedHex) == Emit(|d| + 1 + |f|, Number(Float(d + "." + f)))
  {
    var s := d + "." + f + rest;
    FloatLengthOf(d, f, rest);
    assert s[0] == d[0];
    assert s[..|d| + 1 + |f|] == d + "." + f;
    assert NumberRule(s, fixedHex) == Some(Emit(|d| + 1 + |f|, Number(Float(d + "." + f))));
  }

  /** A `0` followed by neither `x` nor `.` is the number 0 on its own: a
      leading zero ends the literal, so `05` is two numbers. */
  lemma {:induction false} ZeroToken(rest: string, fixedHex: bool)
    requires rest == [] || (rest[0] != 'x' && rest[0] != '.')
    ensures NextMatch("0" + rest, fixedHex) == Emit(1, Number(Int(0)))
  {
    var s := "0" + rest;
    assert s[0] == '0' && (|s| > 1 ==> s[1] == rest[0]);
    assert FloatLength(s).None?;
    assert HexLength(s, fixedHex) == 0;
    assert NumberRule(s, fixedHex) == Some(Emit(1, Number(Int(0))));
  }

  /** `0x` and hexadecimal digits, followed by a character outside the
      written class `[0-F]`, is one number token with the base-16 value. */
  lemma {:induction false} HexToken(d: string, rest: string)
    requires |d| > 0 && forall i :: 0 <= i < |d| ==> IsHexDigit(d[i])
    requires rest == [] || !InZeroToF(rest[0])
    ensures NextMatch("0x" + d + rest, false) == Emit(2 + |d|, Number(Int(HexDigitsValue(d))))
  {
    var s := "0x" + d + rest;
    assert s[2..] == d + rest;
    RunOver(d, rest, InZeroToF);
    assert s[2..2 + |d|] == d;
    assert FloatLength(s).None?;
    assert NumberRule(s, false) == Some(Emit(2 + |d|, Number(Int(HexDigitsValue(d)))));
  }

  /** With the corrected class the same literal ends at the first
      character that is not a hexadecimal digit. */
  lemma {:induction false} HexTokenIntended(d: string, rest: string)
    requires |d| > 0 && forall i :: 0 <= i < |d| ==> IsHexDigit(d[i])
    requires rest == [] || !IsHexDigit(rest[0])
    ensures NextMatch("0x" + d + rest, true) == Emit(2 + |d|, Number(Int(HexDigitsValue(d))))
  {
    var s := "0x" + d + rest;
    assert s[2..] == d + rest;
    RunOver(d, rest, IsHexDigit);
    assert s[2..2 + |d|] == d;
    assert FloatLength(s).None?;
    assert NumberRule(s, true) == Some(Emit(2 + |d|, Number(Int(HexDigitsValue(d)))));
  }

  /** As written, a hexadecimal literal runs on over `: ; < = > ? @`,
      which lie between '9' and 'A'; the conversion of such a literal
      raises ValueError, and the whole lex with it. */
  lemma {:induction false} HexSwallowsPunctuation(x: string, rest: string)
    requires |x| > 0 && forall i :: 0 <= i < |x| ==> InZeroToF(x[i])
    requires exists i :: 0 <= i < |x| && !IsHexDigit(x[i])
    requires rest == [] || !InZeroToF(rest[0])
    ensures NextMatch("0x" + x + rest, false) == Raised("0x" + x)
  {
    var s := "0x" + x + rest;
    assert s[2..] == x + rest;
    RunOver(x, rest, InZeroToF);
    assert s[2..2 + |x|] == x;
    assert s[..2 + |x|] == "0x" + x;
    assert FloatLength(s).None?;
    assert HexLiteralValue(x).None?;
  }

  // ---------------------------------------------------------------------
  // Characters and strings

  /** `'c'` is a character token carrying `c`. */
  lemma {:induction false} CharToken(c: char, rest: string, fixedHex: bool)
    ensures NextMatch(['\'', c, '\''] + rest, fixedHex) == Emit(3, Character([c]))
  {
    var s := ['\'', c, '\''] + rest;
    assert s[0] == '\'' && s[1] == c && s[2] == '\'';
    assert FloatLength(s).None?;
    assert s[1..2] == [c];
  }

  /** The first double quote at or after `k` is at `j`. */
  lemma {:induction false} QuoteAtFirst(s: string, k: nat, j: nat)
    requires k <= j < |s| && s[j] == '"' && forall i :: k <= i < j ==> s[i] != '"'
    ensures QuoteAt(s, k) == Some(j)
    decreases j - k
  {
    if k < j {
      QuoteAtFirst(s, k + 1, j);
    }
  }

  /** A string literal ends at the first following double quote, and the
      token carries the text between the quotes. */
  lemma {:induction false} StringToken(body: string, rest: string, fixedHex: bool)
    requires forall i :: 0 <= i < |body| ==> body[i] != '"'
    ensures NextMatch("\"" + body + "\"" + rest, fixedHex) == Emit(|body| + 2, String(body))
  {
    var s := "\"" + body + "\"" + rest;
    assert s[0] == '"' && s[|body| + 1] == '"';
    assert forall i :: 1 <= i < |body| + 1 ==> s[i] == body[i - 1];
    QuoteAtFirst(s, 1, |body| + 1);
    assert FloatLength(s).None?;
    assert s[1..|body| + 1] == body;
  }

  // ---------------------------------------------------------------------
  // Comments and whitespace

  /** A line comment runs to the end of the input, newlines included. */
  lemma {:induction false} LineComment(x: string, fixedHex: bool)
    ensures NextMatch("//" + x, fixedHex) == Skip(|x| + 2)
  {
    var s := "//" + x;
    assert s[0] == '/' && s[1] == '/';
  }

  /** The first closing star-slash at or after `k` starts at `j`. */
  lemma {:induction false} CloseCommentFirst(s: string, k: nat, j: nat)
    requires k <= j && j + 2 <= |s| && s[j] == '*' && s[j + 1] == '/'
    requires forall i :: k <= i < j ==> !(s[i] == '*' && s[i + 1] == '/')
    ensures CloseCommentAt(s, k) == Some(j)
    decreases j - k
  {
    if k < j {
      CloseCommentFirst(s, k + 1, j);
    }
  }

  /** A block comment ends at the first closing star-slash. */
  lemma {:induction false} BlockComment(body: string, rest: string, fixedHex: bool)
    requires forall i :: 0 <= i && i + 1 < |body| ==> !(body[i] == '*' && body[i + 1] == '/')
    ensures NextMatch("/*" + body + "*/" + rest, fixedHex) == Skip(|body| + 4)
  {
    var s := "/*" + body + "*/" + rest;
    var j := |body| + 2;
    assert s[0] == '/' && s[1] == '*' && s[j] == '*' && s[j + 1] == '/';
    assert forall i :: 2 <= i < j ==> s[i] == body[i - 2];
    CloseCommentFirst(s, 2, j);
  }

  // ---------------------------------------------------------------------
  // Types, keywords, operators and identifiers

  /** A text that starts with none of the characters that open a comment,
      a number or a quoted literal is left to the later rules. */
  lemma {:induction false} EarlyRulesPass(s: string, fixedHex: bool)
    requires s != [] && !IsDigit(s[0]) && s[0] != '.' && s[0] != '\'' && s[0] != '"'
    requires s[0] == '/' ==> |s| < 2 || (s[1] != '/' && s[1] != '*')
    ensures CommentRule(s).None? && NumberRule(s, fixedHex).None? && QuotedRule(s).None?
  {
    assert FloatLength(s).None?;
  }

  /** The first listed word that starts `s` is the `k`-th when no earlier
      one does. */
  lemma {:induction false} FirstPrefixAt(words: seq<string>, s: string, k: nat)
    requires k < |words| && words[k] <= s
    requires forall j :: 0 <= j < k ==> !(words[j] <= s)
    ensures FirstPrefix(words, s) == Some(words[k])
    decreases k
  {
    if k > 0 {
      assert !(words[0] <= s);
      FirstPrefixAt(words[1..], s, k - 1);
    }
  }

  /** No listed word starts `s` when none shares its first character. */
  lemma {:induction false} FirstPrefixNone(words: seq<string>, s: string)
    requires s != [] && forall i :: 0 <= i < |words| ==> words[i] != [] && words[i][0] != s[0]
    ensures FirstPrefix(words, s).None?
    decreases |words|
  {
    if words != [] {
      assert !(words[0] <= s);
      FirstPrefixNone(words[1..], s);
    }
  }

  /** A type name is a type token whatever follows it: the rule has no word
      boundary, so `integer` starts with the type `int`. */
  lemma {:induction false} TypeToken(w: string, rest: string, fixedHex: bool)
    requires w in Types
    ensures NextMatch(w + rest, fixedHex) == Emit(|w|, Type(w))
  {
    var s := w + rest;
    var k :| 0 <= k < |Types| && Types[k] == w;
    assert s[0] == w[0] && s[..|w|] == w;
    EarlyRulesPass(s, fixedHex);
    assert forall j :: 0 <= j < k ==> Types[j][0] != w[0];
    FirstPrefixAt(Types, s, k);
  }

  /** A keyword that starts `s` is the token when no type and no keyword
      listed before it does. */
  lemma {:induction false} KeywordAt(k: nat, s: string, fixedHex: bool)
    requires k < |Keywords| && Keywords[k] <= s
    requires forall j :: 0 <= j < |Types| ==> !(Types[j] <= s)
    requires forall j :: 0 <= j < k ==> !(Keywords[j] <= s)
    ensures NextMatch(s, fixedHex) == Emit(|Keywords[k]|, Keyword(Keywords[k]))
  {
    NameHeads();
    assert s[0] == Keywords[k][0];
    EarlyRulesPass(s, fixedHex);
    FirstPrefixAbsent(Types, s);
    FirstPrefixAt(Keywords, s, k);
  }

  /** `else if` is one keyword, listed before `else`. */
  lemma {:induction false} ElseIfToken(rest: string, fixedHex: bool)
    ensures NextMatch("else if" + rest, fixedHex) == Emit(7, Keyword("else if"))
  {
    var s := "else if" + rest;
    assert s[0] == 'e' && s[1] == 'l' && s[..7] == "else if";
    forall j | 0 <= j < |Types| ensures !(Types[j] <= s) {
      PrefixHead(Types[j], s);
    }
    PrefixHead(Keywords[0], s);
    KeywordAt(1, s, fixedHex);
  }

  /** A word of two or more characters that starts `s` agrees with it on
      the first two. */
  lemma {:induction false} PrefixHead(u: string, s: string)
    ensures u <= s && |u| >= 2 ==> u[0] == s[0] && u[1] == s[1]
  {
  }

  /** `else if` starts `else` + `rest` only when ` if` starts `rest`. */
  lemma {:induction false} ElseIfPrefix(rest: string)
    ensures "else if" <= "else" + rest ==> " if" <= rest
  {
    if "else if" <= "else" + rest {
      var x := "else" + rest;
      assert x[..7] == "else if";
      assert x[4..7] == x[..7][4..7];
      assert rest[..3] == x[4..7];
    }
  }

  /** No listed word starts `s`. */
  lemma {:induction false} FirstPrefixAbsent(words: seq<string>, s: string)
    requires forall i :: 0 <= i < |words| ==> !(words[i] <= s)
    ensures FirstPrefix(words, s).None?
    decreases |words|
  {
    if words != [] {
      FirstPrefixAbsent(words[1..], s);
    }
  }

  /** The characters an operator starts with: none opens a name, a number
      or a quoted literal, none is blank, and none is `#`. */
  predicate OperatorHead(c: char) {
    !IsIdentChar(c) && c != '.' && c != '\'' && c != '"' && !IsBlank(c) && c != '#'
  }

  /** Every type and keyword starts with a letter. */
  lemma {:induction false} NameHeads()
    ensures forall i :: 0 <= i < |Types| ==> Types[i] != [] && IsIdentStart(Types[i][0])
    ensures forall i :: 0 <= i < |Keywords| ==> Keywords[i] != [] && IsIdentStart(Keywords[i][0])
  {
  }

  /** Every operator starts with punctuation. */
  lemma {:induction false} OperatorHeads()
    ensures forall i :: 0 <= i < |Operators| ==> Operators[i] != [] && OperatorHead(Operators[i][0])
  {
  }

  /** An operator that starts `s` is the token when no operator listed
      before it does: no type, keyword or identifier starts with the
      punctuation every operator starts with. */
  lemma {:induction false} OperatorAt(k: nat, s: string, fixedHex: bool)
    requires k < |Operators| && Operators[k] <= s
    requires forall j :: 0 <= j < k ==> !(Operators[j] <= s)
    requires s[0] != '/' || |s| < 2 || (s[1] != '/' && s[1] != '*')
    ensures NextMatch(s, fixedHex) == Emit(|Operators[k]|, Operator(Operators[k]))
  {
    OperatorHeads();
    NameHeads();
    assert s[0] == Operators[k][0] && OperatorHead(s[0]);
    EarlyRulesPass(s, fixedHex);
    FirstPrefixNone(Types, s);
    FirstPrefixNone(Keywords, s);
    FirstPrefixAt(Operators, s, k);
  }

  /** `==` is one token whatever follows it: it is listed before `=`. */
  lemma {:induction false} EqualsToken(rest: string, fixedHex: bool)
    ensures NextMatch("==" + rest, fixedHex) == Emit(2, Operator("=="))
  {
    OperatorAt(0, "==" + rest, fixedHex);
  }

  /** `++` is one token whatever follows it: it is listed before `+`. */
  lemma {:induction false} IncrementToken(rest: string, fixedHex: bool)
    ensures NextMatch("++" + rest, fixedHex) == Emit(2, Operator("++"))
  {
    var s := "++" + rest;
    assert s[0] == '+' && s[1] == '+' && s[..2] == "++";
    forall j | 0 <= j < 12 ensures !(Operators[j] <= s) {
      PrefixHead(Operators[j], s);
    }
    OperatorAt(12, s, fixedHex);
  }

  /** `&&` is one token whatever follows it: it is listed before `&`. */
  lemma {:induction false} AndToken(rest: string, fixedHex: bool)
    ensures NextMatch("&&" + rest, fixedHex) == Emit(2, Operator("&&"))
  {
    var s := "&&" + rest;
    assert s[0] == '&' && s[1] == '&' && s[..2] == "&&";
    forall j | 0 <= j < 10 ensures !(Operators[j] <= s) {
      PrefixHead(Operators[j], s);
    }
    OperatorAt(10, s, fixedHex);
  }

  /** `<<` is one token whatever follows it: it is listed before `<`. */
  lemma {:induction false} ShiftToken(rest: string, fixedHex: bool)
    ensures NextMatch("<<" + rest, fixedHex) == Emit(2, Operator("<<"))
  {
    var s := "<<" + rest;
    assert s[0] == '<' && s[1] == '<' && s[..2] == "<<";
    forall j | 0 <= j < 4 ensures !(Operators[j] <= s) {
      PrefixHead(Operators[j], s);
    }
    OperatorAt(4, s, fixedHex);
  }

  /** `+=` is one token whatever follows it: it is listed before `+`. */
  lemma {:induction false} AddAssignToken(rest: string, fixedHex: bool)
    ensures NextMatch("+=" + rest, fixedHex) == Emit(2, Operator("+="))
  {
    var s := "+=" + rest;
    assert s[0] == '+' && s[1] == '=' && s[..2] == "+=";
    forall j | 0 <= j < 7 ensures !(Operators[j] <= s) {
      PrefixHead(Operators[j], s);
    }
    OperatorAt(7, s, fixedHex);
  }

  /** A word that starts a one-character text is empty or the text. */
  lemma {:induction false} PrefixOfOne(u: string, c: char)
    ensures u <= [c] ==> u == [] || u == [c]
  {
  }

  /** `;` at the end of the text is one token. */
  lemma {:induction false} SemicolonToken(fixedHex: bool)
    ensures NextMatch(";", fixedHex) == Emit(1, Operator(";"))
  {
    forall j | 0 <= j < 27 ensures !(Operators[j] <= ";") {
      PrefixOfOne(Operators[j], ';');
    }
    OperatorAt(27, ";", fixedHex);
  }

  /** When the earlier rules pass, the name rules decide the match. */
  lemma {:induction false} NameDecides(s: string, fixedHex: bool)
    requires s != [] && CommentRule(s).None? && NumberRule(s, fixedHex).None? && QuotedRule(s).None?
    requires NameRule(s).Some?
    ensures NextMatch(s, fixedHex) == NameRule(s).value
  {
  }

  /** With no type, keyword or operator at the start, a non-empty
      identifier match is the token. */
  lemma {:induction false} IdentifierRule(s: string)
    requires FirstPrefix(Types, s).None? && FirstPrefix(Keywords, s).None? && FirstPrefix(Operators, s).None?
    requires IdentifierLength(s) > 0
    ensures NameRule(s) == Some(Emit(IdentifierLength(s), Identifier(s[..IdentifierLength(s)])))
  {
  }

  /** An identifier runs over letters, digits and underscores, when no type
      name and no keyword starts the text. */
  lemma {:induction false} IdentifierToken(name: string, rest: string, fixedHex: bool)
    requires name != [] && IsIdentStart(name[0]) && forall i :: 0 <= i < |name| ==> IsIdentChar(name[i])
    requires rest == [] || !IsIdentChar(rest[0])
    requires forall j :: 0 <= j < |Types| ==> !(Types[j] <= name + rest)
    requires forall j :: 0 <= j < |Keywords| ==> !(Keywords[j] <= name + rest)
    ensures NextMatch(name + rest, fixedHex) == Emit(|name|, Identifier(name))
  {
    var s := name + rest;
    assert s[0] == name[0] && s[1..] == name[1..] + rest && s[..|name|] == name;
    EarlyRulesPass(s, fixedHex);
    FirstPrefixAbsent(Types, s);
    FirstPrefixAbsent(Keywords, s);
    OperatorHeads();
    FirstPrefixNone(Operators, s);
    RunOver(name[1..], rest, IsIdentChar);
    IdentifierRule(s);
    NameDecides(s, fixedHex);
  }

  // ---------------------------------------------------------------------
  // Blanks and characters no rule accepts

  /** A run of blanks is skipped as a whole. */
  lemma {:induction false} BlankRun(b: string, rest: string, fixedHex: bool)
    requires b != [] && forall i :: 0 <= i < |b| ==> IsBlank(b[i])
    requires rest == [] || !IsBlank(rest[0])
    ensures NextMatch(b + rest, fixedHex) == Skip(|b|)
  {
    var s := b + rest;
    assert s[0] == b[0];
    EarlyRulesPass(s, fixedHex);
    NameHeads();
    OperatorHeads();
    FirstPrefixNone(Types, s);
    FirstPrefixNone(Keywords, s);
    FirstPrefixNone(Operators, s);
    RunOver(b, rest, IsBlank);
  }

  /** When no rule matches and no blank starts the text, the scan is stuck. */
  lemma {:induction false} NothingMatches(s: string, fixedHex: bool)
    requires s != [] && CommentRule(s).None? && NumberRule(s, fixedHex).None? && QuotedRule(s).None?
    requires FirstPrefix(Types, s).None? && FirstPrefix(Keywords, s).None? && FirstPrefix(Operators, s).None?
    requires !IsIdentStart(s[0]) && !IsBlank(s[0])
    ensures NextMatch(s, fixedHex).Stuck?
  {
  }

  /** At `#` no rule matches, so the scan stops there. */
  lemma {:induction false} HashStuck(rest: string, fixedHex: bool)
    ensures NextMatch("#" + rest, fixedHex).Stuck?
  {
    var s := "#" + rest;
    assert s[0] == '#';
    EarlyRulesPass(s, fixedHex);
    NameHeads();
    OperatorHeads();
    FirstPrefixNone(Types, s);
    FirstPrefixNone(Keywords, s);
    FirstPrefixNone(Operators, s);
    NothingMatches(s, fixedHex);
  }

  // ---------------------------------------------------------------------
  // Whole inputs

  /** A token step followed by the scan of what is left. */
  lemma {:induction false} ScanEmit(s: string, fixedHex: bool, n: nat, tok: Token, ts: seq<Token>, rem: string)
    requires s != [] && NextMatch(s, fixedHex) == Emit(n, tok)
    requires Scan(s[n..], fixedHex) == Scanned(ts, rem)
    ensures Scan(s, fixedHex) == Scanned([tok] + ts, rem)
  {
  }

  /** A silent step followed by the scan of what is left. */
  lemma {:induction false} ScanSkip(s: string, fixedHex: bool, n: nat, r: Scanned)
    requires s != [] && NextMatch(s, fixedHex) == Skip(n)
    requires Scan(s[n..], fixedHex) == r
    ensures Scan(s, fixedHex) == r
  {
  }

  /** A scan that uses up the text lexes to its tokens. */
  lemma {:induction false} LexScanned(code: string, fixedHex: bool, ts: seq<Token>)
    requires Scan(code, fixedHex) == Scanned(ts, [])
    ensures LexWith(code, fixedHex) == Lexed(ts)
  {
  }

  /** The empty text scans to nothing. */
  lemma {:induction false} ScanEmpty(s: string, fixedHex: bool)
    requires s == []
    ensures Scan(s, fixedHex) == Scanned([], [])
  {
  }

  /** A type name run together with an identifier is two tokens: the type
      rule has no word boundary, so `integer` is `int` and `eger`. */
  lemma {:induction false} TypeThenIdentifier(ty: string, name: string)
    requires ty in Types
    requires name != [] && IsIdentStart(name[0]) && forall i :: 0 <= i < |name| ==> IsIdentChar(name[i])
    requires forall j :: 0 <= j < |Types| ==> !(Types[j] <= name)
    requires forall j :: 0 <= j < |Keywords| ==> !(Keywords[j] <= name)
    ensures Lex(ty + name) == Lexed([Type(ty), Identifier(name)])
  {
    var s := ty + name;
    TypeToken(ty, name, false);
    assert s[|ty|..] == name && name + [] == name;
    IdentifierToken(name, [], false);
    ScanEmpty(name[|name|..], false);
    ScanEmit(name, false, |name|, Identifier(name), [], []);
    ScanEmit(s, false, |ty|, Type(ty), [Identifier(name)], []);
    LexScanned(s, false, [Type(ty), Identifier(name)]);
  }

  /** A leading zero ends its literal: `0` then `5` are two numbers. */
  lemma {:induction false} ZeroThenDecimal(d: string)
    requires |d| > 0 && IsNonZeroDigit(d[0]) && forall i :: 0 <= i < |d| ==> IsDigit(d[i])
    ensures Lex("0" + d) == Lexed([Number(Int(0)), Number(Int(DecimalValue(d)))])
  {
    var s := "0" + d;
    ZeroToken(d, false);
    assert s[1..] == d && d + [] == d;
    DecimalToken(d, [], false);
    ScanEmpty(d[|d|..], false);
    ScanEmit(d, false, |d|, Number(Int(DecimalValue(d))), [], []);
    ScanEmit(s, false, 1, Number(Int(0)), [Number(Int(DecimalValue(d)))], []);
    LexScanned(s, false, [Number(Int(0)), Number(Int(DecimalValue(d)))]);
  }

  /** A hexadecimal literal on its own lexes to its base-16 value, with the
      class as written and as corrected. */
  lemma {:induction false} HexLiteral(d: string)
    requires |d| > 0 && forall i :: 0 <= i < |d| ==> IsHexDigit(d[i])
    ensures Lex("0x" + d) == Lexed([Number(Int(HexDigitsValue(d)))])
    ensures LexIntended("0x" + d) == Lexed([Number(Int(HexDigitsValue(d)))])
  {
    var s := "0x" + d;
    var tok := Number(Int(HexDigitsValue(d)));
    assert s + [] == s && s[|s|..] == [];
    HexToken(d, []);
    HexTokenIntended(d, []);
    ScanEmpty(s[|s|..], false);
    ScanEmpty(s[|s|..], true);
    ScanEmit(s, false, |s|, tok, [], []);
    ScanEmit(s, true, |s|, tok, [], []);
    LexScanned(s, false, [tok]);
    LexScanned(s, true, [tok]);
  }

  /** As written, `0x1F;` raises: the `;` is taken into the literal, whose
      conversion fails. */
  lemma {:induction false} HexThenSemicolonRaises(d: string)
    requires |d| > 0 && forall i :: 0 <= i < |d| ==> IsHexDigit(d[i])
    ensures Lex("0x" + d + ";") == LexRaised("0x" + d + ";")
  {
    var x := d + ";";
    assert "0x" + d + ";" == "0x" + x + [] && x[|d|] == ';';
    HexSwallowsPunctuation(x, []);
  }

  /** `;` alone scans to the one operator. */
  lemma {:induction false} SemicolonScan(fixedHex: bool)
    ensures Scan(";", fixedHex) == Scanned([Operator(";")], [])
  {
    SemicolonToken(fixedHex);
    ScanEmpty(";"[1..], fixedHex);
    ScanEmit(";", fixedHex, 1, Operator(";"), [], []);
  }

  /** With the corrected class, `0x1F;` is the number and the `;`. */
  lemma {:induction false} HexThenSemicolonIntended(d: string)
    requires |d| > 0 && forall i :: 0 <= i < |d| ==> IsHexDigit(d[i])
    ensures LexIntended("0x" + d + ";") == Lexed([Number(Int(HexDigitsValue(d))), Operator(";")])
  {
    var s := "0x" + d + ";";
    var tok := Number(Int(HexDigitsValue(d)));
    HexTokenIntended(d, ";");
    assert s[2 + |d|..] == ";";
    SemicolonScan(true);
    ScanEmit(s, true, 2 + |d|, tok, [Operator(";")], []);
    LexScanned(s, true, [tok, Operator(";")]);
  }

  /** A text the scan cannot start is reported whole after the prefix
      `failed to lex: `. */
  lemma {:induction false} HashFails(rest: string)
    ensures Lex("#" + rest) == LexFailed(FailurePrefix + "#" + rest)
  {
    HashStuck(rest, false);
  }

  /** A line comment lexes to nothing, newlines included. */
  lemma {:induction false} LineCommentLexesToNothing(x: string)
    ensures Lex("//" + x) == Lexed([])
  {
    var s := "//" + x;
    LineComment(x, false);
    ScanEmpty(s[|x| + 2..], false);
    ScanSkip(s, false, |x| + 2, Scanned([], []));
    LexScanned(s, false, []);
  }

  /** A block comment emits nothing: the scan goes on after it. */
  lemma {:induction false} BlockCommentDropped(body: string, rest: string, fixedHex: bool)
    requires forall i :: 0 <= i && i + 1 < |body| ==> !(body[i] == '*' && body[i + 1] == '/')
    ensures Scan("/*" + body + "*/" + rest, fixedHex) == Scan(rest, fixedHex)
  {
    var s := "/*" + body + "*/" + rest;
    BlockComment(body, rest, fixedHex);
    assert s[|body| + 4..] == rest;
    ScanSkip(s, fixedHex, |body| + 4, Scan(rest, fixedHex));
  }

  /** Blanks emit nothing: the scan goes on after them. */
  lemma {:induction false} BlanksDropped(b: string, rest: string, fixedHex: bool)
    requires b != [] && forall i :: 0 <= i < |b| ==> IsBlank(b[i])
    requires rest == [] || !IsBlank(rest[0])
    ensures Scan(b + rest, fixedHex) == Scan(rest, fixedHex)
  {
    var s := b + rest;
    BlankRun(b, rest, fixedHex);
    assert s[|b|..] == rest;
    ScanSkip(s, fixedHex, |b|, Scan(rest, fixedHex));
  }

  /** A string literal on its own is one string token carrying its body. */
  lemma {:induction false} StringLexes(body: string)
    requires forall i :: 0 <= i < |body| ==> body[i] != '"'
    ensures Lex("\"" + body + "\"") == Lexed([String(body)])
  {
    var s := "\"" + body + "\"";
    assert s + [] == s && s[|body| + 2..] == [];
    StringToken(body, [], false);
    ScanEmpty(s[|body| + 2..], false);
    ScanEmit(s, false, |body| + 2, String(body), [], []);
    LexScanned(s, false, [String(body)]);
  }

  /** A lower-case letter ends a hexadecimal literal, as written. */
  lemma {:induction false} HexStopsAtLowercase(d: string, c: char, rest: string)
    requires |d| > 0 && forall i :: 0 <= i < |d| ==> IsHexDigit(d[i])
    requires 'a' <= c <= 'f'
    ensures NextMatch("0x" + d + [c] + rest, false) == Emit(2 + |d|, Number(Int(HexDigitsValue(d))))
  {
    assert "0x" + d + [c] + rest == "0x" + d + ([c] + rest);
    HexToken(d, [c] + rest);
  }

  // ---------------------------------------------------------------------
  // The corrected class never raises

  /** With `[0-9A-F]` every hexadecimal literal converts. */
  lemma {:induction false} NoRaiseIntended(s: string)
    requires s != []
    ensures !NextMatch(s, true).Raised?
  {
    var n := HexLength(s, true);
    if FloatLength(s).None? && IntegerLength(s) == 0 && n > 0 {
      var x := s[2..n];
      assert forall i :: 0 <= i < |x| ==> x[i] == s[2..][i];
      assert HexLiteralValue(x).Some?;
    }
  }

  /** With the corrected class `lex` never raises: it reports tokens or
      the text it could not scan. */
  lemma {:induction false} LexIntendedNeverRaises(code: string)
    ensures !LexIntended(code).LexRaised?
  {
    ScanNeverRaises(code);
  }

  /** The scan with the corrected class never raises. */
  lemma {:induction false} ScanNeverRaises(s: string)
    ensures Scan(s, true).Scanned?
    decreases |s|
  {
    if s != [] {
      NoRaiseIntended(s);
      var m := NextMatch(s, true);
      if m.Emit? || m.Skip? {
        ScanNeverRaises(s[m.length..]);
      }
    }
  }
}
