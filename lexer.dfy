/** The lexer of js2py: the token rules of parser.py (an identifier rule with a
    reserved-word lookup, decimal integers, double-quoted strings without escapes, a
    fixed operator set, spaces and tabs ignored).

    `Tokenize` is the specification: at every position it tries the rules in the order
    PLY's master regular expression does (the function rules `t_ID`, `t_NUMBER`, `t_STR`
    in definition order, then the string rules longest regular expression first, so that
    `==` is tried before `=`). `Lex` is the scanning loop, proved to compute it. */
module Lexer {
  import opened Wrappers

  /** The token kinds of parser.py with their values: an identifier's name, a number's
      integer value and a string's text between the quotes. */
  datatype Token =
    | ID(name: string)
    | NUMBER(value: nat)
    | STR(text: string)
    | TRUE | FALSE | IF | ELSE
    | ASSIGN | PLUS | MINUS | GTHAN | EQUALTO | AND | OR
    | LPAREN | RPAREN | LBRACE | RBRACE | SUBSCRIPT

  /** PLY's LexError: no rule matches at offset `pos`, whose character is `c`. */
  datatype LexError = IllegalCharacter(pos: nat, c: char)

  predicate IsDigit(c: char) { '0' <= c <= '9' }

  predicate IsIdStart(c: char) { 'a' <= c <= 'z' || 'A' <= c <= 'Z' || c == '_' }

  predicate IsIdChar(c: char) { IsIdStart(c) || IsDigit(c) }

  /** The characters of `t_ignore`. */
  predicate IsIgnored(c: char) { c == ' ' || c == '\t' }

  /** A whole match of the identifier expression `[a-zA-Z_][a-zA-Z0-9_]*`. */
  predicate IsWord(w: string) {
    w != [] && IsIdStart(w[0]) && forall i | 0 <= i < |w| :: IsIdChar(w[i])
  }

  predicate IsReserved(w: string) {
    w == "true" || w == "false" || w == "if" || w == "else"
  }

  /** The reserved-word lookup of `t_ID`: a reserved word becomes its own token kind,
      every other word an identifier carrying the word. */
  function Keyword(w: string): (t: Token)
    ensures t.ID? <==> !IsReserved(w)
    ensures t.ID? ==> t.name == w
    ensures t.TRUE? <==> w == "true"
    ensures t.FALSE? <==> w == "false"
    ensures t.IF? <==> w == "if"
    ensures t.ELSE? <==> w == "else"
  {
    if w == "true" then TRUE
    else if w == "false" then FALSE
    else if w == "if" then IF
    else if w == "else" then ELSE
    else ID(w)
  }

  /** The length of the longest prefix of `s` made of identifier characters. */
  function IdRunLength(s: string): (n: nat)
    ensures n <= |s|
    ensures forall i | 0 <= i < n :: IsIdChar(s[i])
    ensures n == |s| || !IsIdChar(s[n])
  {
    if s == [] || !IsIdChar(s[0]) then 0 else 1 + IdRunLength(s[1..])
  }

  /** The length of the longest prefix of `s` made of decimal digits. */
  function DigitRunLength(s: string): (n: nat)
    ensures n <= |s|
    ensures forall i | 0 <= i < n :: IsDigit(s[i])
    ensures n == |s| || !IsDigit(s[n])
  {
    if s == [] || !IsDigit(s[0]) then 0 else 1 + DigitRunLength(s[1..])
  }

  function DigitValue(c: char): (d: nat)
    requires IsDigit(c)
    ensures d < 10
  {
    c as int - '0' as int
  }

  /** The integer a run of decimal digits spells, most significant digit first, as
      Python's `int` reads it (leading zeros allowed). */
  function DecimalValue(ds: string): nat
    requires forall i | 0 <= i < |ds| :: IsDigit(ds[i])
  {
    if ds == [] then 0
    else DecimalValue(ds[..|ds| - 1]) * 10 + DigitValue(ds[|ds| - 1])
  }

  /** The first index of `c` in `s`, if any. */
  function IndexOf(s: string, c: char): (r: Option<nat>)
    ensures r.Some? ==> r.value < |s| && s[r.value] == c && c !in s[..r.value]
    ensures r.None? ==> c !in s
  {
    if s == [] then None
    else if s[0] == c then Some(0)
    else match IndexOf(s[1..], c)
      case None => None
      case Some(k) => Some(k + 1)
  }

  /** The one-character operators `+ - = > { } ( ) .`. */
  function OperatorToken(c: char): Option<Token> {
    match c
    case '+' => Some(PLUS)
    case '-' => Some(MINUS)
    case '=' => Some(ASSIGN)
    case '>' => Some(GTHAN)
    case '{' => Some(LBRACE)
    case '}' => Some(RBRACE)
    case '(' => Some(LPAREN)
    case ')' => Some(RPAREN)
    case '.' => Some(SUBSCRIPT)
    case _ => None
  }

  /** The token at the start of `s` and the number of characters it takes, or None when
      no rule matches there. */
  function ScanToken(s: string): (r: Option<(Token, nat)>)
    requires s != []
    ensures r.Some? ==> 0 < r.value.1 <= |s|
  {
    if IsIdStart(s[0]) then
      var n := 1 + IdRunLength(s[1..]);
      Some((Keyword(s[..n]), n))
    else if IsDigit(s[0]) then
      var n := DigitRunLength(s);
      Some((NUMBER(DecimalValue(s[..n])), n))
    else if s[0] == '"' then
      match IndexOf(s[1..], '"')
      case None => None
      case Some(k) => Some((STR(s[1..k + 1]), k + 2))
    else if |s| >= 2 && s[0] == '=' && s[1] == '=' then Some((EQUALTO, 2))
    else if |s| >= 2 && s[0] == '&' && s[1] == '&' then Some((AND, 2))
    else if |s| >= 2 && s[0] == '|' && s[1] == '|' then Some((OR, 2))
    else match OperatorToken(s[0])
      case None => None
      case Some(t) => Some((t, 1))
  }

  function Prepend(ts: seq<Token>, r: Result<seq<Token>, LexError>): Result<seq<Token>, LexError> {
    match r
    case Ok(rest) => Ok(ts + rest)
    case Err(e) => Err(e)
  }

  /** The tokens of `s`, where `pos` is the offset of `s` in the whole input (used only
      to report where an illegal character stands). */
  function TokenizeFrom(s: string, pos: nat): Result<seq<Token>, LexError>
    decreases |s|
  {
    if s == [] then Ok([])
    else if IsIgnored(s[0]) then TokenizeFrom(s[1..], pos + 1)
    else match ScanToken(s)
      case None => Err(IllegalCharacter(pos, s[0]))
      case Some((t, n)) => Prepend([t], TokenizeFrom(s[n..], pos + n))
  }

  function Tokenize(s: string): Result<seq<Token>, LexError> {
    TokenizeFrom(s, 0)
  }

  /** The scanning loop: skip ignored characters, otherwise take one token and advance
      past it; stop at the first character no rule matches. */
  method Lex(s: string) returns (r: Result<seq<Token>, LexError>)
    ensures r == Tokenize(s)
  {
    var toks: seq<Token> := [];
    var i := 0;
    assert s[0..] == s;
    PrependNothing(TokenizeFrom(s, 0));
    while i < |s|
      invariant 0 <= i <= |s|
      invariant Tokenize(s) == Prepend(toks, TokenizeFrom(s[i..], i))
      decreases |s| - i
    {
      if IsIgnored(s[i]) {
        assert s[i..][1..] == s[i + 1..];
        i := i + 1;
      } else {
        match ScanToken(s[i..])
        case None =>
          return Err(IllegalCharacter(i, s[i]));
        case Some((t, n)) =>
          assert s[i..][n..] == s[i + n..];
          PrependTwice(toks, [t], TokenizeFrom(s[i + n..], i + n));
          toks := toks + [t];
          i := i + n;
      }
    }
    assert s[i..] == [];
    assert toks + [] == toks;
    return Ok(toks);
  }

  lemma PrependNothing(r: Result<seq<Token>, LexError>)
    ensures Prepend([], r) == r
  {
    if r.Ok? {
      assert [] + r.value == r.value;
    }
  }

  lemma PrependTwice(a: seq<Token>, b: seq<Token>, r: Result<seq<Token>, LexError>)
    ensures Prepend(a, Prepend(b, r)) == Prepend(a + b, r)
  {
    if r.Ok? {
      assert a + (b + r.value) == (a + b) + r.value;
    }
  }

  // ---------------------------------------------------------------------------
  // What the token rules promise

  /** One step of the tokenizer at a character that is not skipped. */
  lemma TokenizeStep(s: string, pos: nat, t: Token, n: nat)
    requires s != [] && !IsIgnored(s[0]) && ScanToken(s) == Some((t, n))
    ensures TokenizeFrom(s, pos) == Prepend([t], TokenizeFrom(s[n..], pos + n))
  {
  }

  lemma {:induction false} IdRunOfWord(w: string, rest: string)
    requires forall i | 0 <= i < |w| :: IsIdChar(w[i])
    requires rest == [] || !IsIdChar(rest[0])
    ensures IdRunLength(w + rest) == |w|
    decreases |w|
  {
    if w != [] {
      assert (w + rest)[1..] == w[1..] + rest;
      IdRunOfWord(w[1..], rest);
    } else {
      assert w + rest == rest;
    }
  }

  lemma {:induction false} DigitRunOfDigits(ds: string, rest: string)
    requires forall i | 0 <= i < |ds| :: IsDigit(ds[i])
    requires rest == [] || !IsDigit(rest[0])
    ensures DigitRunLength(ds + rest) == |ds|
    decreases |ds|
  {
    if ds != [] {
      assert (ds + rest)[1..] == ds[1..] + rest;
      DigitRunOfDigits(ds[1..], rest);
    } else {
      assert ds + rest == rest;
    }
  }

  lemma ScanWord(w: string, rest: string)
    requires IsWord(w)
    requires rest == [] || !IsIdChar(rest[0])
    ensures ScanToken(w + rest) == Some((Keyword(w), |w|))
  {
    var s := w + rest;
    assert s[1..] == w[1..] + rest;
    IdRunOfWord(w[1..], rest);
    assert s[..|w|] == w;
  }

  /** A maximal identifier run lexes as one token: `ID` carrying the word, or the
      reserved word's own kind. */
  lemma LexWord(w: string, rest: string, pos: nat)
    requires IsWord(w)
    requires rest == [] || !IsIdChar(rest[0])
    ensures TokenizeFrom(w + rest, pos) == Prepend([Keyword(w)], TokenizeFrom(rest, pos + |w|))
  {
    ScanWord(w, rest);
    assert (w + rest)[|w|..] == rest;
    TokenizeStep(w + rest, pos, Keyword(w), |w|);
  }

  lemma ScanNumber(ds: string, rest: string)
    requires ds != [] && forall i | 0 <= i < |ds| :: IsDigit(ds[i])
    requires rest == [] || !IsDigit(rest[0])
    ensures ScanToken(ds + rest) == Some((NUMBER(DecimalValue(ds)), |ds|))
  {
    var s := ds + rest;
    DigitRunOfDigits(ds, rest);
    assert s[..|ds|] == ds;
  }

  /** A maximal run of digits lexes as one `NUMBER` holding the integer it spells. */
  lemma LexNumber(ds: string, rest: string, pos: nat)
    requires ds != [] && forall i | 0 <= i < |ds| :: IsDigit(ds[i])
    requires rest == [] || !IsDigit(rest[0])
    ensures TokenizeFrom(ds + rest, pos) == Prepend([NUMBER(DecimalValue(ds))], TokenizeFrom(rest, pos + |ds|))
  {
    ScanNumber(ds, rest);
    assert (ds + rest)[|ds|..] == rest;
    TokenizeStep(ds + rest, pos, NUMBER(DecimalValue(ds)), |ds|);
  }

  lemma {:induction false} IndexOfAfter(body: string, tail: string)
    requires '"' !in body
    requires tail != [] && tail[0] == '"'
    ensures IndexOf(body + tail, '"') == Some(|body|)
    decreases |body|
  {
    if body == [] {
      assert body + tail == tail;
    } else {
      assert (body + tail)[1..] == body[1..] + tail;
      assert body[0] in body;
      IndexOfAfter(body[1..], tail);
    }
  }

  lemma ScanString(body: string, rest: string)
    requires '"' !in body
    ensures ScanToken("\"" + body + "\"" + rest) == Some((STR(body), |body| + 2))
  {
    var s := "\"" + body + "\"" + rest;
    assert s[1..] == body + ("\"" + rest);
    IndexOfAfter(body, "\"" + rest);
    assert s[1..|body| + 1] == body;
  }

  /** A double-quoted span without an inner quote lexes as `STR` holding exactly the text
      between the quotes; whatever follows the closing quote is lexed on its own. */
  lemma LexString(body: string, rest: string, pos: nat)
    requires '"' !in body
    ensures TokenizeFrom("\"" + body + "\"" + rest, pos)
            == Prepend([STR(body)], TokenizeFrom(rest, pos + |body| + 2))
  {
    var s := "\"" + body + "\"" + rest;
    ScanString(body, rest);
    assert s[|body| + 2..] == rest;
    TokenizeStep(s, pos, STR(body), |body| + 2);
  }

  /** An opening quote with no closing quote after it is an illegal character. */
  lemma LexUnterminatedString(rest: string, pos: nat)
    requires '"' !in rest
    ensures TokenizeFrom("\"" + rest, pos) == Err(IllegalCharacter(pos, '"'))
  {
    assert ("\"" + rest)[1..] == rest;
  }

  lemma ScanPair(t: Token, rest: string)
    requires t == EQUALTO || t == AND || t == OR
    ensures ScanToken(Text(t) + rest) == Some((t, 2))
  {
  }

  /** `==` is one `EQUALTO`, whatever follows it (so `===` is `EQUALTO ASSIGN`). */
  lemma LexEqualTo(rest: string, pos: nat)
    ensures TokenizeFrom("==" + rest, pos) == Prepend([EQUALTO], TokenizeFrom(rest, pos + 2))
  {
    var s := "==" + rest;
    ScanPair(EQUALTO, rest);
    assert s[2..] == rest;
    TokenizeStep(s, pos, EQUALTO, 2);
  }

  /** A single `=` not followed by another is `ASSIGN`. */
  lemma LexAssign(rest: string, pos: nat)
    requires rest == [] || rest[0] != '='
    ensures TokenizeFrom("=" + rest, pos) == Prepend([ASSIGN], TokenizeFrom(rest, pos + 1))
  {
    var s := "=" + rest;
    assert s[1..] == rest;
    TokenizeStep(s, pos, ASSIGN, 1);
  }

  /** Spaces and tabs are skipped between tokens and produce nothing. */
  lemma LexIgnored(c: char, rest: string, pos: nat)
    requires IsIgnored(c)
    ensures TokenizeFrom([c] + rest, pos) == TokenizeFrom(rest, pos + 1)
  {
    assert ([c] + rest)[1..] == rest;
  }

  /** No other character is skipped: a line break, for one, is an illegal character. */
  lemma LexNewline(rest: string, pos: nat)
    ensures TokenizeFrom("\n" + rest, pos) == Err(IllegalCharacter(pos, '\n'))
  {
  }

  // ---------------------------------------------------------------------------
  // Rendering tokens back to text, and the round trip through the lexer

  /** The decimal spelling of `n`, without leading zeros. */
  function Decimal(n: nat): (ds: string)
    ensures ds != [] && forall i | 0 <= i < |ds| :: IsDigit(ds[i])
  {
    var d := ['0' + (n % 10) as char];
    if n < 10 then d else Decimal(n / 10) + d
  }

  lemma {:induction false} DecimalRoundTrip(n: nat)
    ensures DecimalValue(Decimal(n)) == n
    decreases n
  {
    var ds := Decimal(n);
    if n >= 10 {
      DecimalRoundTrip(n / 10);
      assert ds[..|ds| - 1] == Decimal(n / 10);
    }
  }

  /** The tokens the lexer can produce: identifiers that are words and not reserved,
      strings without a quote. */
  predicate Lexable(t: Token) {
    match t
    case ID(x) => IsWord(x) && !IsReserved(x)
    case STR(s) => '"' !in s
    case _ => true
  }

  /** The source text of one token. */
  function Text(t: Token): string {
    match t
    case ID(x) => x
    case NUMBER(n) => Decimal(n)
    case STR(s) => "\"" + s + "\""
    case TRUE => "true"
    case FALSE => "false"
    case IF => "if"
    case ELSE => "else"
    case ASSIGN => "="
    case PLUS => "+"
    case MINUS => "-"
    case GTHAN => ">"
    case EQUALTO => "=="
    case AND => "&&"
    case OR => "||"
    case LPAREN => "("
    case RPAREN => ")"
    case LBRACE => "{"
    case RBRACE => "}"
    case SUBSCRIPT => "."
  }

  /** Tokens written out, each followed by one space. */
  function Render(ts: seq<Token>): string {
    if ts == [] then "" else Text(ts[0]) + " " + Render(ts[1..])
  }

  lemma ScanIdText(t: Token, tail: string)
    requires Lexable(t) && t.ID?
    requires tail != [] && tail[0] == ' '
    ensures ScanToken(Text(t) + tail) == Some((t, |Text(t)|))
  {
    ScanWord(t.name, tail);
  }

  lemma ScanKeywordText(t: Token, tail: string)
    requires t.TRUE? || t.FALSE? || t.IF? || t.ELSE?
    requires tail != [] && tail[0] == ' '
    ensures ScanToken(Text(t) + tail) == Some((t, |Text(t)|))
  {
    ScanWord(Text(t), tail);
  }

  lemma ScanNumberText(t: Token, tail: string)
    requires t.NUMBER?
    requires tail != [] && tail[0] == ' '
    ensures ScanToken(Text(t) + tail) == Some((t, |Text(t)|))
  {
    ScanNumber(Decimal(t.value), tail);
    DecimalRoundTrip(t.value);
  }

  lemma ScanStrText(t: Token, tail: string)
    requires Lexable(t) && t.STR?
    requires tail != [] && tail[0] == ' '
    ensures ScanToken(Text(t) + tail) == Some((t, |Text(t)|))
  {
    ScanString(t.text, tail);
  }

  lemma ScanOperatorText(t: Token, tail: string)
    requires !(t.ID? || t.TRUE? || t.FALSE? || t.IF? || t.ELSE? || t.NUMBER? || t.STR?)
    requires !(t.EQUALTO? || t.AND? || t.OR?)
    requires tail != [] && tail[0] == ' '
    ensures ScanToken(Text(t) + tail) == Some((t, |Text(t)|))
  {
    assert |Text(t)| == 1 && OperatorToken(Text(t)[0]) == Some(t);
  }

  /** The scanner reads back exactly one token from its text when a space follows. */
  lemma ScanText(t: Token, tail: string)
    requires Lexable(t)
    requires tail != [] && tail[0] == ' '
    ensures Text(t) != [] && !IsIgnored(Text(t)[0])
    ensures ScanToken(Text(t) + tail) == Some((t, |Text(t)|))
  {
    if t.ID? {
      ScanIdText(t, tail);
    } else if t.TRUE? || t.FALSE? || t.IF? || t.ELSE? {
      ScanKeywordText(t, tail);
    } else if t.NUMBER? {
      ScanNumberText(t, tail);
    } else if t.STR? {
      ScanStrText(t, tail);
    } else if t.EQUALTO? || t.AND? || t.OR? {
      ScanPair(t, tail);
    } else {
      ScanOperatorText(t, tail);
    }
  }

  /** A token's text and a space in front of text that lexes to `tail` lex to the token
      followed by `tail`. */
  lemma LexTokenThen(t: Token, rest: string, s: string, tail: seq<Token>, pos: nat)
    requires Lexable(t) && s == Text(t) + " " + rest
    requires TokenizeFrom(rest, pos + |Text(t)| + 1) == Ok(tail)
    ensures TokenizeFrom(s, pos) == Ok([t] + tail)
  {
    var k, sp := |Text(t)|, [' '] + rest;
    assert s == Text(t) + sp;
    ScanText(t, sp);
    assert s[k..] == sp;
    TokenizeStep(s, pos, t, k);
    LexIgnored(' ', rest, pos + k);
  }

  lemma RenderStep(ts: seq<Token>)
    requires ts != [] && forall i | 0 <= i < |ts| :: Lexable(ts[i])
    requires forall pos: nat :: TokenizeFrom(Render(ts[1..]), pos) == Ok(ts[1..])
    ensures forall pos: nat :: TokenizeFrom(Render(ts), pos) == Ok(ts)
  {
    var t, tail := ts[0], ts[1..];
    assert [t] + tail == ts;
    forall pos: nat ensures TokenizeFrom(Render(ts), pos) == Ok(ts) {
      LexTokenThen(t, Render(tail), Render(ts), tail, pos);
    }
  }

  /** Round trip: rendering lexable tokens and lexing the text gives the tokens back,
      wherever the text starts. */
  lemma {:induction false} LexRender(ts: seq<Token>)
    requires forall i | 0 <= i < |ts| :: Lexable(ts[i])
    ensures forall pos: nat :: TokenizeFrom(Render(ts), pos) == Ok(ts)
    decreases |ts|
  {
    if ts != [] {
      LexRender(ts[1..]);
      RenderStep(ts);
    }
  }

  lemma TokenizeRender(ts: seq<Token>)
    requires forall i | 0 <= i < |ts| :: Lexable(ts[i])
    ensures Tokenize(Render(ts)) == Ok(ts)
  {
    LexRender(ts);
    assert TokenizeFrom(Render(ts), 0) == Ok(ts);
  }
}
