/** Writing a tree back as tokens and source text, and what that says about the grammar.

    `Unparse` is the inverse the parser is measured against: every printable tree comes
    back from `Parse` unchanged, so the grammar's choices (one precedence level folded from
    the left, the right side of `=` taking the rest, terms on the right of an operator,
    `else` belonging to the nearest `if`) can be read off where the printer has to put
    parentheses. */
module Printer {
  import opened Wrappers
  import opened Lexer
  import opened Syntax
  import opened Parser

  /** An identifier the lexer reads back as an `ID`. */
  predicate IsName(x: string) {
    IsWord(x) && !IsReserved(x)
  }

  predicate PrintableTarget(t: Target) {
    match t
    case NameTarget(x) => IsName(x)
    case SubscriptTarget(b, k) => IsName(b) && IsName(k)
  }

  /** The trees the grammar can produce from lexable tokens: names are identifiers,
      strings hold no quote, every `if` has one body statement and at most one else
      statement. */
  predicate Printable(n: Node) {
    match n
    case Num(_) => true
    case NameConstant(_) => true
    case Str(s) => '"' !in s
    case Name(x) => IsName(x)
    case Subscript(b, k) => IsName(b) && IsName(k)
    case Binary(l, _, r) => Printable(l) && Printable(r)
    case Assign(t, v) => PrintableTarget(t) && Printable(v)
    case If(c, b, o) =>
      Printable(c) && |b| == 1 && Printable(b[0]) && |o| <= 1 && (|o| == 1 ==> Printable(o[0]))
  }

  function TokenOf(op: Operator): (t: Token)
    ensures OperatorOf(t) == Some(op)
  {
    match op
    case Add => PLUS
    case Sub => MINUS
    case Gt => GTHAN
    case Eq => EQUALTO
    case And => AND
    case Or => OR
  }

  /** The nodes the `term` nonterminal produces without brackets. */
  predicate IsTermNode(n: Node) {
    n.Num? || n.NameConstant? || n.Str? || n.Name?
  }

  function Paren(ts: seq<Token>): seq<Token> {
    [LPAREN] + ts + [RPAREN]
  }

  function Braced(ts: seq<Token>): seq<Token> {
    [LBRACE] + ts + [RBRACE]
  }

  /** The tokens of a tree. A left operand is bracketed only when it is an assignment
      (whose right side would otherwise take the operator); a right operand is bracketed
      unless it is a term. */
  function Unparse(n: Node): (ts: seq<Token>)
    ensures ts != []
  {
    match n
    case Num(k) => [NUMBER(k)]
    case NameConstant(b) => if b then [TRUE] else [FALSE]
    case Str(s) => [STR(s)]
    case Name(x) => [ID(x)]
    case Subscript(b, k) => [ID(b), SUBSCRIPT, ID(k)]
    case Binary(l, op, r) =>
      (if l.Assign? then Paren(Unparse(l)) else Unparse(l)) + [TokenOf(op)]
      + (if IsTermNode(r) then Unparse(r) else Paren(Unparse(r)))
    case Assign(NameTarget(x), v) => [ID(x), ASSIGN] + Unparse(v)
    case Assign(SubscriptTarget(b, k), v) => [ID(b), SUBSCRIPT, ID(k), ASSIGN] + Unparse(v)
    case If(c, b, o) =>
      [IF] + Paren(Unparse(c)) + Braced(if b == [] then [] else Unparse(b[0]))
      + (if o == [] then [] else [ELSE] + Braced(Unparse(o[0])))
  }

  /** The tokens of a left operand. */
  function LeftText(l: Node): seq<Token> {
    if l.Assign? then Paren(Unparse(l)) else Unparse(l)
  }

  /** The tokens of a right operand. */
  function RightText(r: Node): seq<Token> {
    if IsTermNode(r) then Unparse(r) else Paren(Unparse(r))
  }

  /** A measure of a tree that counts the parts the printer writes. */
  function Size(n: Node): nat {
    match n
    case Binary(l, _, r) => 1 + Size(l) + Size(r)
    case Assign(_, v) => 1 + Size(v)
    case If(c, b, o) =>
      1 + Size(c) + (if b == [] then 0 else Size(b[0])) + (if o == [] then 0 else Size(o[0]))
    case _ => 1
  }

  /** The source text of a tree: its tokens, each followed by a space. */
  function Source(n: Node): string {
    Render(Unparse(n))
  }

  /** What may follow a tree's tokens without changing how they parse: nothing, a
      closing bracket, or (except after an assignment, whose right side would take it) an
      operator. */
  predicate Delimits(n: Node, rest: seq<Token>) {
    rest == [] || rest[0] == RPAREN || rest[0] == RBRACE
    || (OperatorOf(rest[0]).Some? && !n.Assign?)
  }

  // ---------------------------------------------------------------------------
  // The parser reads printed trees back

  /** The tokens of a tree, then anything that delimits it, parse as the tree with the
      operators after it folded on. */
  lemma {:induction false} ParsesBack(n: Node, rest: seq<Token>)
    requires Printable(n) && Delimits(n, rest)
    ensures ParseExpression(Unparse(n) + rest) == FoldOps(n, rest)
    decreases Size(n), 3
  {
    if n.Binary? {
      BinaryParsesBack(n.left, n.op, n.right, rest);
    } else {
      HeadParsesBack(n, rest);
      ExpressionOfHead(Unparse(n) + rest, n, rest);
    }
  }

  /** A tree followed by a closing bracket parses as exactly that tree. */
  lemma {:induction false} ClosedParsesBack(n: Node, rest: seq<Token>)
    requires Printable(n) && rest != [] && (rest[0] == RPAREN || rest[0] == RBRACE)
    ensures ParseExpression(Unparse(n) + rest) == Ok((n, rest))
    decreases Size(n), 4
  {
    ParsesBack(n, rest);
    FoldStops(n, rest);
  }

  /** A tree that is not an operator application is the head of what it is printed in. */
  lemma {:induction false} HeadParsesBack(n: Node, rest: seq<Token>)
    requires Printable(n) && !n.Binary? && Delimits(n, rest)
    ensures ParseHead(Unparse(n) + rest) == Ok((n, rest))
    decreases Size(n), 2
  {
    match n
    case Subscript(b, k) => LoadHead(b, k, rest);
    case Assign(t, v) => AssignParsesBack(t, v, rest);
    case If(c, b, o) => IfParsesBack(c, b, o, rest);
    case Num(_) => TermHead(n, rest);
    case NameConstant(_) => TermHead(n, rest);
    case Str(_) => TermHead(n, rest);
    case Name(_) => TermHead(n, rest);
  }

  /** The right side of a printed assignment takes everything up to the closing bracket
      or the end. */
  lemma {:induction false} AssignParsesBack(t: Target, v: Node, rest: seq<Token>)
    requires Printable(Assign(t, v)) && Delimits(Assign(t, v), rest)
    ensures ParseHead(Unparse(Assign(t, v)) + rest) == Ok((Assign(t, v), rest))
    decreases Size(Assign(t, v)), 1
  {
    ParsesBack(v, rest);
    FoldStops(v, rest);
    AssignTokens(t, v, rest);
    match t
    case NameTarget(x) => AssignmentTakesRest(x, Unparse(v) + rest, v, rest);
    case SubscriptTarget(b, k) => StoreTakesRest(b, k, Unparse(v) + rest, v, rest);
  }

  lemma AssignTokens(t: Target, v: Node, rest: seq<Token>)
    ensures t.NameTarget? ==>
      Unparse(Assign(t, v)) + rest == [ID(t.id), ASSIGN] + (Unparse(v) + rest)
    ensures t.SubscriptTarget? ==>
      Unparse(Assign(t, v)) + rest == [ID(t.base), SUBSCRIPT, ID(t.key), ASSIGN] + (Unparse(v) + rest)
  {
  }

  lemma TermHead(n: Node, rest: seq<Token>)
    requires Printable(n) && IsTermNode(n) && Delimits(n, rest)
    ensures ParseHead(Unparse(n) + rest) == Ok((n, rest))
  {
    var ts := Unparse(n) + rest;
    assert ts[0] == Unparse(n)[0] && ts[1..] == rest;
    HeadOfTerm(ts);
  }

  lemma {:induction false} BinaryParsesBack(l: Node, op: Operator, r: Node, rest: seq<Token>)
    requires Printable(l) && Printable(r)
    requires Delimits(Binary(l, op, r), rest)
    ensures ParseExpression(Unparse(Binary(l, op, r)) + rest) == FoldOps(Binary(l, op, r), rest)
    decreases Size(Binary(l, op, r)), 0
  {
    var right := RightText(r) + rest;
    var after := [TokenOf(op)] + right;
    BinaryTokens(l, op, r, rest);
    LeftParsesBack(l, after);
    RightParsesBack(r, rest);
    FoldOperatorTerm(l, TokenOf(op), right, r, rest);
  }

  lemma BinaryTokens(l: Node, op: Operator, r: Node, rest: seq<Token>)
    ensures Unparse(Binary(l, op, r)) + rest == LeftText(l) + ([TokenOf(op)] + (RightText(r) + rest))
  {
  }

  /** A left operand, then an operator: the operand and the fold from there. */
  lemma {:induction false} LeftParsesBack(l: Node, rest: seq<Token>)
    requires Printable(l)
    requires rest == [] || rest[0] == RPAREN || rest[0] == RBRACE || OperatorOf(rest[0]).Some?
    ensures ParseExpression(LeftText(l) + rest) == FoldOps(l, rest)
    decreases Size(l), 6
  {
    if l.Assign? {
      var ts := Paren(Unparse(l)) + rest;
      GroupParsesBack(l, rest);
      assert ts[0] == LPAREN;
      HeadOfTerm(ts);
      ExpressionOfHead(ts, l, rest);
    } else {
      ParsesBack(l, rest);
    }
  }

  /** A right operand parses as one term, whatever follows it. */
  lemma {:induction false} RightParsesBack(r: Node, rest: seq<Token>)
    requires Printable(r)
    ensures ParseTerm(RightText(r) + rest) == Ok((r, rest))
    decreases Size(r), 6
  {
    if IsTermNode(r) {
      var ts := Unparse(r) + rest;
      assert ts[0] == Unparse(r)[0] && ts[1..] == rest;
    } else {
      GroupParsesBack(r, rest);
    }
  }

  /** A bracketed tree is a term holding the tree, whatever follows it. */
  lemma {:induction false} GroupParsesBack(n: Node, rest: seq<Token>)
    requires Printable(n)
    ensures ParseTerm(Paren(Unparse(n)) + rest) == Ok((n, rest))
    decreases Size(n), 5
  {
    var inner := Unparse(n) + ([RPAREN] + rest);
    assert Paren(Unparse(n)) + rest == [LPAREN] + inner;
    ClosedParsesBack(n, [RPAREN] + rest);
    GroupIsExpression(LPAREN, RPAREN, inner, n, rest);
  }

  lemma IfThenTokens(c: Node, body: Node, rest: seq<Token>)
    ensures Unparse(If(c, [body], [])) + rest
      == [IF, LPAREN] + (Unparse(c) + ([RPAREN, LBRACE] + (Unparse(body) + ([RBRACE] + rest))))
  {
    IfShape(Unparse(c), Unparse(body), [], rest);
  }

  lemma IfElseTokens(c: Node, body: Node, e: Node, rest: seq<Token>)
    ensures Unparse(If(c, [body], [e])) + rest
      == [IF, LPAREN] + (Unparse(c) + ([RPAREN, LBRACE] + (Unparse(body)
         + ([RBRACE, ELSE, LBRACE] + (Unparse(e) + ([RBRACE] + rest))))))
  {
    var te := Unparse(e) + ([RBRACE] + rest);
    var tail := [ELSE] + Braced(Unparse(e));
    assert Unparse(If(c, [body], [e])) == [IF] + Paren(Unparse(c)) + Braced(Unparse(body)) + tail;
    IfShape(Unparse(c), Unparse(body), tail, rest);
    ElseShape(Unparse(e), rest);
  }

  lemma ElseShape(te: seq<Token>, rest: seq<Token>)
    ensures [RBRACE] + (([ELSE] + Braced(te)) + rest) == [RBRACE, ELSE, LBRACE] + (te + ([RBRACE] + rest))
  {
  }

  /** The printed `if` regrouped around the parts the grammar reads one at a time. */
  lemma IfShape(tc: seq<Token>, tb: seq<Token>, te: seq<Token>, rest: seq<Token>)
    ensures [IF] + Paren(tc) + Braced(tb) + te + rest
      == [IF, LPAREN] + (tc + ([RPAREN, LBRACE] + (tb + ([RBRACE] + (te + rest)))))
  {
  }

  lemma {:induction false} IfParsesBack(c: Node, b: seq<Node>, o: seq<Node>, rest: seq<Token>)
    requires Printable(If(c, b, o)) && Delimits(If(c, b, o), rest)
    ensures ParseHead(Unparse(If(c, b, o)) + rest) == Ok((If(c, b, o), rest))
    decreases Size(If(c, b, o)), 1
  {
    assert b == [b[0]];
    if o == [] {
      IfThenParsesBack(c, b[0], rest);
    } else {
      assert o == [o[0]];
      IfElseParsesBack(c, b[0], o[0], rest);
    }
  }

  lemma {:induction false} IfThenParsesBack(c: Node, body: Node, rest: seq<Token>)
    requires Printable(If(c, [body], [])) && Delimits(If(c, [body], []), rest)
    ensures ParseHead(Unparse(If(c, [body], [])) + rest) == Ok((If(c, [body], []), rest))
    decreases Size(If(c, [body], [])), 0
  {
    var tb := Unparse(body) + ([RBRACE] + rest);
    var tc := Unparse(c) + ([RPAREN, LBRACE] + tb);
    IfThenTokens(c, body, rest);
    ClosedParsesBack(c, [RPAREN, LBRACE] + tb);
    ClosedParsesBack(body, [RBRACE] + rest);
    IfWithoutElse(tc, c, tb, body, rest);
  }

  lemma {:induction false} IfElseParsesBack(c: Node, body: Node, e: Node, rest: seq<Token>)
    requires Printable(If(c, [body], [e])) && Delimits(If(c, [body], [e]), rest)
    ensures ParseHead(Unparse(If(c, [body], [e])) + rest) == Ok((If(c, [body], [e]), rest))
    decreases Size(If(c, [body], [e])), 0
  {
    var te := Unparse(e) + ([RBRACE] + rest);
    var tb := Unparse(body) + ([RBRACE, ELSE, LBRACE] + te);
    var tc := Unparse(c) + ([RPAREN, LBRACE] + tb);
    IfElseTokens(c, body, e, rest);
    ClosedParsesBack(c, [RPAREN, LBRACE] + tb);
    ClosedParsesBack(body, [RBRACE, ELSE, LBRACE] + te);
    ClosedParsesBack(e, [RBRACE] + rest);
    IfWithElse(tc, c, tb, body, te, e, rest);
  }

  /** Round trip: a printable tree is the one statement its tokens parse to. */
  lemma ParseUnparse(n: Node)
    requires Printable(n)
    ensures Parse(Unparse(n)) == Ok(Some(n))
  {
    ParsesBack(n, []);
    FoldStops(n, []);
    assert Unparse(n) + [] == Unparse(n);
  }

  /** The right operand of an operator is a term, so a property load cannot stand there:
      after `e OP b` the `.` of `b.k` is left over and the input is rejected at it. */
  lemma PropertyNotOperand(l: Node, op: Operator, b: string, k: string)
    requires Printable(l) && !l.Assign?
    ensures Parse(Unparse(l) + [TokenOf(op), ID(b), SUBSCRIPT, ID(k)]) == Err(Unexpected(SUBSCRIPT))
  {
    var tail := [SUBSCRIPT, ID(k)];
    var rest := [TokenOf(op)] + ([ID(b)] + tail);
    var ts := Unparse(l) + rest;
    assert ts == Unparse(l) + [TokenOf(op), ID(b), SUBSCRIPT, ID(k)];
    ParsesBack(l, rest);
    assert ParseTerm([ID(b)] + tail) == Ok((Name(b), tail));
    FoldOperatorTerm(l, TokenOf(op), [ID(b)] + tail, Name(b), tail);
    FoldStops(Binary(l, op, Name(b)), tail);
    Leftover(ts, Binary(l, op, Name(b)), tail);
  }

  predicate AllLexable(ts: seq<Token>) {
    forall i | 0 <= i < |ts| :: Lexable(ts[i])
  }

  lemma LexableJoin(a: seq<Token>, b: seq<Token>)
    requires AllLexable(a) && AllLexable(b)
    ensures AllLexable(a + b)
  {
    assert forall i | 0 <= i < |a + b| :: (a + b)[i] == if i < |a| then a[i] else b[i - |a|];
  }

  /** The printer writes only tokens the lexer produces. */
  lemma {:induction false} UnparseLexable(n: Node)
    requires Printable(n)
    ensures AllLexable(Unparse(n))
  {
    match n
    case Binary(l, op, r) =>
      UnparseLexable(l);
      UnparseLexable(r);
      BinaryLexable(l, op, r);
    case Assign(t, v) =>
      UnparseLexable(v);
      AssignLexable(t, v);
    case If(c, b, o) =>
      UnparseLexable(c);
      UnparseLexable(b[0]);
      if o != [] { UnparseLexable(o[0]); }
      IfLexable(c, b, o);
    case _ =>
  }

  lemma BinaryLexable(l: Node, op: Operator, r: Node)
    requires AllLexable(Unparse(l)) && AllLexable(Unparse(r))
    ensures AllLexable(Unparse(Binary(l, op, r)))
  {
    BracketsLexable(Unparse(l));
    BracketsLexable(Unparse(r));
    LexableJoin(LeftText(l), [TokenOf(op)]);
    LexableJoin(LeftText(l) + [TokenOf(op)], RightText(r));
  }

  lemma AssignLexable(t: Target, v: Node)
    requires PrintableTarget(t) && AllLexable(Unparse(v))
    ensures AllLexable(Unparse(Assign(t, v)))
  {
    match t
    case NameTarget(x) => LexableJoin([ID(x), ASSIGN], Unparse(v));
    case SubscriptTarget(b, k) => LexableJoin([ID(b), SUBSCRIPT, ID(k), ASSIGN], Unparse(v));
  }

  lemma BracketsLexable(ts: seq<Token>)
    requires AllLexable(ts)
    ensures AllLexable(Paren(ts)) && AllLexable(Braced(ts))
  {
    LexableJoin([LPAREN], ts);
    LexableJoin([LPAREN] + ts, [RPAREN]);
    LexableJoin([LBRACE], ts);
    LexableJoin([LBRACE] + ts, [RBRACE]);
  }

  lemma IfLexable(c: Node, b: seq<Node>, o: seq<Node>)
    requires |b| == 1 && |o| <= 1
    requires AllLexable(Unparse(c)) && AllLexable(Unparse(b[0]))
    requires o != [] ==> AllLexable(Unparse(o[0]))
    ensures AllLexable(Unparse(If(c, b, o)))
  {
    BracketsLexable(Unparse(c));
    BracketsLexable(Unparse(b[0]));
    LexableJoin([IF], Paren(Unparse(c)));
    var head := [IF] + Paren(Unparse(c));
    LexableJoin(head, Braced(Unparse(b[0])));
    var tail: seq<Token> := [];
    if o != [] {
      BracketsLexable(Unparse(o[0]));
      LexableJoin([ELSE], Braced(Unparse(o[0])));
      tail := [ELSE] + Braced(Unparse(o[0]));
    }
    LexableJoin(head + Braced(Unparse(b[0])), tail);
  }

  /** Round trip through the text: the source of a printable tree lexes to its tokens and
      parses back to it. */
  lemma ParseSource(n: Node)
    requires Printable(n)
    ensures Tokenize(Source(n)) == Ok(Unparse(n))
    ensures Parse(Unparse(n)) == Ok(Some(n))
  {
    UnparseLexable(n);
    assert forall i | 0 <= i < |Unparse(n)| :: Lexable(Unparse(n)[i]);
    TokenizeRender(Unparse(n));
    ParseUnparse(n);
  }
}
