/** The grammar of parser.py, parsed deterministically by recursive descent with the
    result PLY's LALR tables give it.

    The grammar has one nonterminal `expression` with the left-recursive productions
    `expression OP term` for all six operators at one level, plus assignment, property
    store, property load, `if` with an optional `else`, and `term`; a `term` is an `ID` or
    a `factor`; a `factor` is a literal, `( expression )` or `{ expression }`.

    The descent parses a head (assignment, property store or load, `if`, or a term) and
    then folds `OP term` pairs onto it from the left. Yacc resolves the shift/reduce
    conflicts of `ID = expression . OP` and `ID . ID = expression . OP` by shifting, so the
    right side of an assignment takes every operator after it: here the nested
    `ParseExpression` for that right side folds them before the assignment is built. */
module Parser {
  import opened Wrappers
  import opened Lexer
  import opened Syntax

  /** Where the token sequence stops matching the grammar: at a token, or at the end. */
  datatype SyntaxError = Unexpected(t: Token) | UnexpectedEnd

  /** A node and the tokens after it. */
  type Parsed = Result<(Node, seq<Token>), SyntaxError>

  function OperatorOf(t: Token): Option<Operator> {
    match t
    case PLUS => Some(Add)
    case MINUS => Some(Sub)
    case GTHAN => Some(Gt)
    case EQUALTO => Some(Eq)
    case AND => Some(And)
    case OR => Some(Or)
    case _ => None
  }

  predicate StartsWithOperator(ts: seq<Token>) {
    ts != [] && OperatorOf(ts[0]).Some?
  }

  /** The error at the front of `ts`. */
  function Fail(ts: seq<Token>): (r: Parsed)
    ensures r.Err?
  {
    if ts == [] then Err(UnexpectedEnd) else Err(Unexpected(ts[0]))
  }

  /** `r` followed by the token `close`, which is consumed. */
  function Closing(r: Parsed, close: Token): (out: Parsed)
    ensures out.Ok? ==> r.Ok? && out.value.0 == r.value.0
                        && r.value.1 == [close] + out.value.1
  {
    match r
    case Err(e) => Err(e)
    case Ok((n, rest)) =>
      if rest != [] && rest[0] == close then Ok((n, rest[1..])) else Fail(rest)
  }

  /** `factor : NUMBER | TRUE | FALSE | STR | LBRACE expression RBRACE
                | LPAREN expression RPAREN`; a bracketed expression is the factor itself. */
  function ParseFactor(ts: seq<Token>): (r: Parsed)
    ensures r.Ok? ==> |r.value.1| < |ts| && IfShaped(r.value.0)
    decreases |ts|, 0
  {
    if ts == [] then Err(UnexpectedEnd)
    else match ts[0]
      case NUMBER(n) => Ok((Num(n), ts[1..]))
      case TRUE => Ok((NameConstant(true), ts[1..]))
      case FALSE => Ok((NameConstant(false), ts[1..]))
      case STR(s) => Ok((Str(s), ts[1..]))
      case LBRACE => Closing(ParseExpression(ts[1..]), RBRACE)
      case LPAREN => Closing(ParseExpression(ts[1..]), RPAREN)
      case _ => Fail(ts)
  }

  /** `term : factor | ID`, the identifier being a name load. */
  function ParseTerm(ts: seq<Token>): (r: Parsed)
    ensures r.Ok? ==> |r.value.1| < |ts| && IfShaped(r.value.0)
    decreases |ts|, 1
  {
    if ts != [] && ts[0].ID? then Ok((Name(ts[0].name), ts[1..]))
    else ParseFactor(ts)
  }

  /** The productions that do not start with `expression`: `ID ASSIGN expression`,
      `ID SUBSCRIPT ID ASSIGN expression`, `ID SUBSCRIPT ID`, the two `if` forms, and
      `expression : term`. */
  function ParseHead(ts: seq<Token>): (r: Parsed)
    ensures r.Ok? ==> |r.value.1| < |ts| && IfShaped(r.value.0)
    decreases |ts|, 2
  {
    if |ts| >= 2 && ts[0].ID? && ts[1] == ASSIGN then
      match ParseExpression(ts[2..])
      case Err(e) => Err(e)
      case Ok((v, rest)) => Ok((Assign(NameTarget(ts[0].name), v), rest))
    else if |ts| >= 2 && ts[0].ID? && ts[1] == SUBSCRIPT then
      if |ts| < 3 || !ts[2].ID? then Fail(ts[2..])
      else if |ts| >= 4 && ts[3] == ASSIGN then
        match ParseExpression(ts[4..])
        case Err(e) => Err(e)
        case Ok((v, rest)) => Ok((Assign(SubscriptTarget(ts[0].name, ts[2].name), v), rest))
      else Ok((Subscript(ts[0].name, ts[2].name), ts[3..]))
    else if ts != [] && ts[0] == IF then
      ParseIf(ts[1..])
    else ParseTerm(ts)
  }

  /** The rest of `IF LPAREN expression RPAREN LBRACE expression RBRACE` with an optional
      `ELSE LBRACE expression RBRACE`, after the `IF`. An `ELSE` right after the closing
      brace always belongs to this `if`. */
  function ParseIf(ts: seq<Token>): (r: Parsed)
    ensures r.Ok? ==> |r.value.1| < |ts| && IfShaped(r.value.0)
    decreases |ts|, 0
  {
    if ts == [] || ts[0] != LPAREN then Fail(ts)
    else match Closing(ParseExpression(ts[1..]), RPAREN)
      case Err(e) => Err(e)
      case Ok((test, r1)) =>
        if r1 == [] || r1[0] != LBRACE then Fail(r1)
        else match Closing(ParseExpression(r1[1..]), RBRACE)
          case Err(e) => Err(e)
          case Ok((body, r2)) =>
            if r2 != [] && r2[0] == ELSE then
              if |r2| < 2 || r2[1] != LBRACE then Fail(r2[1..])
              else match Closing(ParseExpression(r2[2..]), RBRACE)
                case Err(e) => Err(e)
                case Ok((orelse, r3)) => Ok((If(test, [body], [orelse]), r3))
            else Ok((If(test, [body], []), r2))
  }

  /** The left fold of `expression : expression OP term`: each operator and the term after
      it combine with everything parsed so far. The fold stops only before a token that is
      not an operator. */
  function FoldOps(acc: Node, ts: seq<Token>): (r: Parsed)
    ensures r.Ok? ==> |r.value.1| <= |ts| && (IfShaped(acc) ==> IfShaped(r.value.0))
    ensures r.Ok? ==> !StartsWithOperator(r.value.1)
    decreases |ts|, 0
  {
    if StartsWithOperator(ts) then
      match ParseTerm(ts[1..])
      case Err(e) => Err(e)
      case Ok((t, rest)) => FoldOps(Binary(acc, OperatorOf(ts[0]).value, t), rest)
    else Ok((acc, ts))
  }

  /** `expression`: a head, then the operators folded onto it. What follows a parsed
      expression never starts with an operator. */
  function ParseExpression(ts: seq<Token>): (r: Parsed)
    ensures r.Ok? ==> |r.value.1| < |ts| && IfShaped(r.value.0)
    ensures r.Ok? ==> !StartsWithOperator(r.value.1)
    decreases |ts|, 3
  {
    match ParseHead(ts)
    case Err(e) => Err(e)
    case Ok((h, rest)) => FoldOps(h, rest)
  }

  /** The parse of a whole input: no tokens give no tree (PLY's parse then returns
      None); otherwise one expression followed by nothing. */
  function Parse(ts: seq<Token>): (r: Result<Option<Node>, SyntaxError>)
    ensures ts == [] ==> r == Ok(None)
    ensures r.Ok? ==> (r.value.None? <==> ts == [])
    ensures r.Ok? && r.value.Some? ==> IfShaped(r.value.value)
  {
    if ts == [] then Ok(None)
    else match ParseExpression(ts)
      case Err(e) => Err(e)
      case Ok((n, rest)) => if rest == [] then Ok(Some(n)) else Err(Unexpected(rest[0]))
  }

  // ---------------------------------------------------------------------------
  // What the grammar promises, one production at a time

  /** `expression : term` and the fold: an expression is its head with the operators after
      it folded on. */
  lemma ExpressionOfHead(ts: seq<Token>, h: Node, rest: seq<Token>)
    requires ParseHead(ts) == Ok((h, rest))
    ensures ParseExpression(ts) == FoldOps(h, rest)
  {
  }

  /** A head that is not an assignment, a property access or an `if` is a term. */
  lemma HeadOfTerm(ts: seq<Token>)
    requires ts != [] && ts[0] != IF
    requires ts[0].ID? ==> |ts| == 1 || (ts[1] != ASSIGN && ts[1] != SUBSCRIPT)
    ensures ParseHead(ts) == ParseTerm(ts)
  {
  }

  /** One step of the left fold: an operator and the term after it combine with everything
      parsed before them, and the fold goes on from there. */
  lemma FoldOperatorTerm(acc: Node, t: Token, ts: seq<Token>, r: Node, rest: seq<Token>)
    requires OperatorOf(t).Some? && ParseTerm(ts) == Ok((r, rest))
    ensures FoldOps(acc, [t] + ts) == FoldOps(Binary(acc, OperatorOf(t).value, r), rest)
  {
    assert ([t] + ts)[0] == t && ([t] + ts)[1..] == ts;
  }

  /** The fold keeps what it was given when no operator follows. */
  lemma FoldStops(acc: Node, ts: seq<Token>)
    requires !StartsWithOperator(ts)
    ensures FoldOps(acc, ts) == Ok((acc, ts))
  {
  }

  /** The right side of `ID = ...` is the longest expression there: every operator after
      the `=` belongs to it, and the assignment ends where that expression ends. */
  lemma AssignmentTakesRest(x: string, ts: seq<Token>, v: Node, rest: seq<Token>)
    requires ParseExpression(ts) == Ok((v, rest))
    ensures ParseHead([ID(x), ASSIGN] + ts) == Ok((Assign(NameTarget(x), v), rest))
    ensures ParseExpression([ID(x), ASSIGN] + ts) == Ok((Assign(NameTarget(x), v), rest))
  {
    var s := [ID(x), ASSIGN] + ts;
    assert s[0] == ID(x) && s[1] == ASSIGN && s[2..] == ts;
    ExpressionOfHead(s, Assign(NameTarget(x), v), rest);
  }

  /** The same for a property store `ID . ID = ...`. */
  lemma StoreTakesRest(b: string, k: string, ts: seq<Token>, v: Node, rest: seq<Token>)
    requires ParseExpression(ts) == Ok((v, rest))
    ensures ParseHead([ID(b), SUBSCRIPT, ID(k), ASSIGN] + ts)
            == Ok((Assign(SubscriptTarget(b, k), v), rest))
    ensures ParseExpression([ID(b), SUBSCRIPT, ID(k), ASSIGN] + ts)
            == Ok((Assign(SubscriptTarget(b, k), v), rest))
  {
    var s := [ID(b), SUBSCRIPT, ID(k), ASSIGN] + ts;
    assert s[..4] == [ID(b), SUBSCRIPT, ID(k), ASSIGN] && s[4..] == ts;
    ExpressionOfHead(s, Assign(SubscriptTarget(b, k), v), rest);
  }

  /** `ID . ID` not followed by `=` is a property load. */
  lemma LoadHead(b: string, k: string, rest: seq<Token>)
    requires rest == [] || rest[0] != ASSIGN
    ensures ParseHead([ID(b), SUBSCRIPT, ID(k)] + rest) == Ok((Subscript(b, k), rest))
  {
    var s := [ID(b), SUBSCRIPT, ID(k)] + rest;
    assert s[..3] == [ID(b), SUBSCRIPT, ID(k)] && s[3..] == rest;
  }

  /** `( e )` and `{ e }` in factor position are `e` itself. */
  lemma GroupIsExpression(open: Token, close: Token, ts: seq<Token>, e: Node, rest: seq<Token>)
    requires (open == LPAREN && close == RPAREN) || (open == LBRACE && close == RBRACE)
    requires ParseExpression(ts) == Ok((e, [close] + rest))
    ensures ParseFactor([open] + ts) == Ok((e, rest))
    ensures ParseTerm([open] + ts) == Ok((e, rest))
  {
    assert ([open] + ts)[1..] == ts;
    assert ([close] + rest)[1..] == rest;
  }

  /** `if ( c ) { b }` with no `else` after it has an empty else list. */
  lemma IfWithoutElse(tc: seq<Token>, c: Node, tb: seq<Token>, b: Node, rest: seq<Token>)
    requires ParseExpression(tc) == Ok((c, [RPAREN, LBRACE] + tb))
    requires ParseExpression(tb) == Ok((b, [RBRACE] + rest))
    requires rest == [] || rest[0] != ELSE
    ensures ParseHead([IF, LPAREN] + tc) == Ok((If(c, [b], []), rest))
  {
    var ts := [IF, LPAREN] + tc;
    assert ts[1..][0] == LPAREN && ts[1..][1..] == tc;
    assert ([RPAREN, LBRACE] + tb)[1..][1..] == tb;
    assert ([RBRACE] + rest)[1..] == rest;
  }

  /** An `else` right after the closing brace belongs to this `if`, whose else list then
      holds the one expression in its braces. */
  lemma IfWithElse(tc: seq<Token>, c: Node, tb: seq<Token>, b: Node,
                   te: seq<Token>, e: Node, rest: seq<Token>)
    requires ParseExpression(tc) == Ok((c, [RPAREN, LBRACE] + tb))
    requires ParseExpression(tb) == Ok((b, [RBRACE, ELSE, LBRACE] + te))
    requires ParseExpression(te) == Ok((e, [RBRACE] + rest))
    ensures ParseHead([IF, LPAREN] + tc) == Ok((If(c, [b], [e]), rest))
  {
    var ts := [IF, LPAREN] + tc;
    assert ts[1..][0] == LPAREN && ts[1..][1..] == tc;
    assert ([RPAREN, LBRACE] + tb)[1..][1..] == tb;
    var r2 := [ELSE, LBRACE] + te;
    assert ([RBRACE, ELSE, LBRACE] + te)[1..] == r2;
    assert r2[2..] == te;
    assert ([RBRACE] + rest)[1..] == rest;
  }

  /** A whole input must be one expression: tokens left after it are rejected at the
      first of them. */
  lemma Leftover(ts: seq<Token>, n: Node, rest: seq<Token>)
    requires ParseExpression(ts) == Ok((n, rest)) && rest != []
    ensures Parse(ts) == Err(Unexpected(rest[0]))
  {
  }
}
