/** The cases of tests.py, stated on the tokens of each source text and on the tree the
    grammar gives them; the general lexer lemmas describe how source text maps to
    tokens. */
module Scenarios {
  import opened Wrappers
  import opened Lexer
  import opened Syntax
  import opened Parser
  import opened Interp
  import opened Js2Py
  import Printer

  /** A module of one statement run on a context that neither holds nor is named by
      `__builtins__` is that statement executed on the context. */
  lemma Runs(n: Node, ctx: Globals, h: Globals)
    requires IsStatement(n) && BuiltinsKey !in ctx && BuiltinsKey !in Names(n)
    requires ExecStmt(n, ctx) == Ok(h)
    ensures Run(Module([n]), ctx) == Ok(h)
  {
    assert NamesAll([n]) == Names(n) + NamesAll([]);
    RunIsExec(Module([n]), ctx);
    ExecBodyShort(n, ctx);
  }

  function Let(x: string, e: Node): Node {
    Assign(NameTarget(x), e)
  }

  // ---------------------------------------------------------------------------
  // Assignment

  lemma Empty()
    ensures Js2PyRun("", map["a" := IntVal(1)]) == Ok(map["a" := IntVal(1)])
  {
    var ctx := map["a" := IntVal(1)];
    EmptyProgram("", ctx);
    assert ctx - {BuiltinsKey} == ctx;
  }

  /** Assigning a name the context does not hold binds it. */
  lemma AssignNew()
    ensures Run(Module([Let("a", Num(1))]), map[]) == Ok(map["a" := IntVal(1)])
  {
    Runs(Let("a", Num(1)), map[], map["a" := IntVal(1)]);
  }

  lemma AssignExisting()
    ensures Run(Module([Let("a", Num(1))]), map["a" := IntVal(0)]) == Ok(map["a" := IntVal(1)])
  {
    var ctx := map["a" := IntVal(0)];
    assert ctx["a" := IntVal(1)] == map["a" := IntVal(1)];
    Runs(Let("a", Num(1)), ctx, map["a" := IntVal(1)]);
  }

  /** `True` is an identifier to the lexer (only lower-case `true` is reserved), but a
      name node may not hold it, so `True = 1` fails to compile. */
  lemma CapitalTrue(ctx: Globals)
    ensures Keyword("True") == ID("True")
    ensures Run(Module([Let("True", Num(1))]), ctx) == Err(CompileError)
  {
    assert !IsStatement(Let("True", Num(1)));
  }

  /** `__debug__` is an identifier to the lexer, and its load is the constant `True`
      whatever the context holds. */
  lemma DebugLoad(ctx: Globals)
    requires BuiltinsKey !in ctx
    ensures Keyword("__debug__") == ID("__debug__")
    ensures Run(Module([Let("a", Name("__debug__"))]), ctx) == Ok(ctx["a" := BoolVal(true)])
  {
    Runs(Let("a", Name("__debug__")), ctx, ctx["a" := BoolVal(true)]);
  }

  // ---------------------------------------------------------------------------
  // Arithmetic

  /** `a = 1 + 2`: the right side of `=` is the whole sum. */
  lemma ScalarAdditionParse()
    ensures Parse([ID("a"), ASSIGN, NUMBER(1), PLUS, NUMBER(2)])
         == Ok(Some(Let("a", Binary(Num(1), Add, Num(2)))))
  {
    var n := Let("a", Binary(Num(1), Add, Num(2)));
    assert Printer.Printable(n) by { assert Printer.IsName("a"); }
    assert Printer.Unparse(n) == [ID("a"), ASSIGN, NUMBER(1), PLUS, NUMBER(2)];
    Printer.ParseUnparse(n);
  }

  lemma ScalarAddition()
    ensures Run(Module([Let("a", Binary(Num(1), Add, Num(2)))]), map["a" := IntVal(0)])
         == Ok(map["a" := IntVal(3)])
  {
    var ctx := map["a" := IntVal(0)];
    assert ctx["a" := IntVal(3)] == map["a" := IntVal(3)];
    Runs(Let("a", Binary(Num(1), Add, Num(2))), ctx, map["a" := IntVal(3)]);
  }

  lemma MixedAddition()
    ensures Run(Module([Let("a", Binary(Name("a"), Add, Num(1)))]), map["a" := IntVal(1)])
         == Ok(map["a" := IntVal(2)])
  {
    var ctx := map["a" := IntVal(1)];
    assert ctx["a" := IntVal(2)] == map["a" := IntVal(2)];
    Runs(Let("a", Binary(Name("a"), Add, Num(1))), ctx, map["a" := IntVal(2)]);
  }

  lemma VariableAddition()
    ensures Run(Module([Let("a", Binary(Name("a"), Add, Name("b")))]),
                map["a" := IntVal(1), "b" := IntVal(2)])
         == Ok(map["a" := IntVal(3), "b" := IntVal(2)])
  {
    var ctx := map["a" := IntVal(1), "b" := IntVal(2)];
    assert ctx["a" := IntVal(3)] == map["a" := IntVal(3), "b" := IntVal(2)];
    Runs(Let("a", Binary(Name("a"), Add, Name("b"))), ctx, ctx["a" := IntVal(3)]);
  }

  lemma Subtraction()
    ensures Run(Module([Let("a", Binary(Name("a"), Sub, Name("b")))]),
                map["a" := IntVal(1), "b" := IntVal(2)])
         == Ok(map["a" := IntVal(-1), "b" := IntVal(2)])
  {
    var ctx := map["a" := IntVal(1), "b" := IntVal(2)];
    assert ctx["a" := IntVal(-1)] == map["a" := IntVal(-1), "b" := IntVal(2)];
    Runs(Let("a", Binary(Name("a"), Sub, Name("b"))), ctx, ctx["a" := IntVal(-1)]);
  }

  /** `a.x = a.x - 1`: a property store whose right side is a property load minus one. */
  lemma WithPropertiesParse()
    ensures Parse([ID("a"), SUBSCRIPT, ID("x"), ASSIGN, ID("a"), SUBSCRIPT, ID("x"), MINUS, NUMBER(1)])
         == Ok(Some(Assign(SubscriptTarget("a", "x"), Binary(Subscript("a", "x"), Sub, Num(1)))))
  {
    var n := Assign(SubscriptTarget("a", "x"), Binary(Subscript("a", "x"), Sub, Num(1)));
    assert Printer.Printable(n) by { assert Printer.IsName("a") && Printer.IsName("x"); }
    assert Printer.Unparse(n)
        == [ID("a"), SUBSCRIPT, ID("x"), ASSIGN, ID("a"), SUBSCRIPT, ID("x"), MINUS, NUMBER(1)];
    Printer.ParseUnparse(n);
  }

  lemma WithProperties()
    ensures Run(Module([Assign(SubscriptTarget("a", "x"), Binary(Subscript("a", "x"), Sub, Num(1)))]),
                map["a" := DictVal(map["x" := IntVal(0)])])
         == Ok(map["a" := DictVal(map["x" := IntVal(-1)])])
  {
    var n := Assign(SubscriptTarget("a", "x"), Binary(Subscript("a", "x"), Sub, Num(1)));
    var ctx := map["a" := DictVal(map["x" := IntVal(0)])];
    assert Eval(n.value, ctx) == Ok(IntVal(-1));
    assert map["x" := IntVal(0)]["x" := IntVal(-1)] == map["x" := IntVal(-1)];
    assert ctx["a" := DictVal(map["x" := IntVal(-1)])] == map["a" := DictVal(map["x" := IntVal(-1)])];
    Runs(n, ctx, map["a" := DictVal(map["x" := IntVal(-1)])]);
  }

  /** `1 + a.x` is rejected at the `.`, while `a.x - 1` above is accepted. */
  lemma PropertyOnTheRight()
    ensures Parse([NUMBER(1), PLUS, ID("a"), SUBSCRIPT, ID("x")]) == Err(Unexpected(SUBSCRIPT))
  {
    Printer.PropertyNotOperand(Num(1), Add, "a", "x");
    assert Printer.Unparse(Num(1)) + [Printer.TokenOf(Add), ID("a"), SUBSCRIPT, ID("x")]
        == [NUMBER(1), PLUS, ID("a"), SUBSCRIPT, ID("x")];
  }

  // ---------------------------------------------------------------------------
  // Booleans

  lemma AndOperator()
    ensures Run(Module([Let("a", Binary(Name("a"), And, NameConstant(true)))]), map["a" := BoolVal(false)])
         == Ok(map["a" := BoolVal(false)])
    ensures Run(Module([Let("a", Binary(Name("a"), And, NameConstant(true)))]), map["a" := BoolVal(true)])
         == Ok(map["a" := BoolVal(true)])
  {
    var n := Let("a", Binary(Name("a"), And, NameConstant(true)));
    var f, t := map["a" := BoolVal(false)], map["a" := BoolVal(true)];
    assert f["a" := BoolVal(false)] == f && t["a" := BoolVal(true)] == t;
    Runs(n, f, f);
    Runs(n, t, t);
  }

  lemma OrOperator()
    ensures Run(Module([Let("a", Binary(Name("a"), Or, NameConstant(true)))]), map["a" := BoolVal(false)])
         == Ok(map["a" := BoolVal(true)])
    ensures Run(Module([Let("a", Binary(Name("a"), Or, NameConstant(true)))]), map["a" := BoolVal(true)])
         == Ok(map["a" := BoolVal(true)])
    ensures Run(Module([Let("a", Binary(Name("a"), Or, NameConstant(false)))]), map["a" := BoolVal(false)])
         == Ok(map["a" := BoolVal(false)])
  {
    var n := Let("a", Binary(Name("a"), Or, NameConstant(true)));
    var f, t := map["a" := BoolVal(false)], map["a" := BoolVal(true)];
    assert f["a" := BoolVal(true)] == t && t["a" := BoolVal(true)] == t && f["a" := BoolVal(false)] == f;
    Runs(n, f, t);
    Runs(n, t, t);
    Runs(Let("a", Binary(Name("a"), Or, NameConstant(false))), f, f);
  }

  // ---------------------------------------------------------------------------
  // if and else

  function IfGreater(): Node {
    If(Binary(Name("a"), Gt, Num(3)), [Let("a", Num(0))], [])
  }

  /** `if (a>3 && b == 1) { a = 0}`, which the flat precedence reads as
      `((a > 3) and b) == 1`. */
  function IfAnd(): Node {
    If(Binary(Binary(Binary(Name("a"), Gt, Num(3)), And, Name("b")), Eq, Num(1)), [Let("a", Num(0))], [])
  }

  function IfOr(): Node {
    If(Binary(Binary(Binary(Name("a"), Gt, Num(3)), Or, Name("b")), Eq, Num(1)), [Let("a", Num(0))], [])
  }

  function IfNested(): Node {
    If(Binary(Name("b"), Eq, Num(1)), [IfGreater()], [])
  }

  function IfElse(): Node {
    If(Binary(Name("a"), Gt, Num(3)), [Let("a", Num(0))], [Let("a", Num(1))])
  }

  function IfEqualThree(): Node {
    If(Binary(Name("a"), Eq, Num(3)), [Let("a", Num(2))], [])
  }

  function IfElseIf(): Node {
    If(Binary(Name("a"), Gt, Num(3)), [Let("a", Num(0))], [IfEqualThree()])
  }

  lemma IfAndPrintable()
    ensures Printer.Printable(IfAnd())
  {
    assert Printer.IsName("a") && Printer.IsName("b");
  }

  lemma IfAndUnparse()
    ensures Printer.Unparse(IfAnd())
         == [IF, LPAREN, ID("a"), GTHAN, NUMBER(3), AND, ID("b"), EQUALTO, NUMBER(1),
             RPAREN, LBRACE, ID("a"), ASSIGN, NUMBER(0), RBRACE]
  {
  }

  lemma IfAndParse()
    ensures Parse([IF, LPAREN, ID("a"), GTHAN, NUMBER(3), AND, ID("b"), EQUALTO, NUMBER(1),
                   RPAREN, LBRACE, ID("a"), ASSIGN, NUMBER(0), RBRACE]) == Ok(Some(IfAnd()))
  {
    IfAndPrintable();
    IfAndUnparse();
    Printer.ParseUnparse(IfAnd());
  }

  lemma IfElseIfPrintable()
    ensures Printer.Printable(IfElseIf())
  {
    assert Printer.IsName("a");
    assert Printer.Printable(IfEqualThree());
  }

  /** The tokens of `if (a>3) { a = 0}` and of `if (a == 3) {a = 2}`. */
  function ThenTokens(): seq<Token> {
    [IF, LPAREN, ID("a"), GTHAN, NUMBER(3), RPAREN, LBRACE, ID("a"), ASSIGN, NUMBER(0), RBRACE]
  }

  function InnerTokens(): seq<Token> {
    [IF, LPAREN, ID("a"), EQUALTO, NUMBER(3), RPAREN, LBRACE, ID("a"), ASSIGN, NUMBER(2), RBRACE]
  }

  lemma ThenUnparse()
    ensures [IF] + Printer.Paren(Printer.Unparse(Binary(Name("a"), Gt, Num(3))))
            + Printer.Braced(Printer.Unparse(Let("a", Num(0)))) == ThenTokens()
  {
    var c := [ID("a"), GTHAN, NUMBER(3)];
    var b := [ID("a"), ASSIGN, NUMBER(0)];
    assert Printer.Unparse(Binary(Name("a"), Gt, Num(3))) == c;
    assert Printer.Unparse(Let("a", Num(0))) == b;
  }

  lemma InnerUnparse()
    ensures Printer.Unparse(IfEqualThree()) == InnerTokens()
  {
    assert Printer.Unparse(Binary(Name("a"), Eq, Num(3))) == [ID("a"), EQUALTO, NUMBER(3)];
    assert Printer.Unparse(Let("a", Num(2))) == [ID("a"), ASSIGN, NUMBER(2)];
  }

  lemma IfElseIfUnparse()
    ensures Printer.Unparse(IfElseIf()) == ThenTokens() + [ELSE, LBRACE] + InnerTokens() + [RBRACE]
  {
    ThenUnparse();
    InnerUnparse();
  }

  /** `if (a>3) { a = 0} else { if (a == 3) {a = 2}}`: the inner `if` is the else
      branch's one statement. */
  lemma IfElseIfParse()
    ensures Parse(ThenTokens() + [ELSE, LBRACE] + InnerTokens() + [RBRACE]) == Ok(Some(IfElseIf()))
  {
    IfElseIfPrintable();
    IfElseIfUnparse();
    Printer.ParseUnparse(IfElseIf());
  }

  lemma IfGreaterTaken()
    ensures Run(Module([IfGreater()]), map["a" := IntVal(4)]) == Ok(map["a" := IntVal(0)])
  {
    var c := map["a" := IntVal(4)];
    assert c["a" := IntVal(0)] == map["a" := IntVal(0)];
    assert ExecBody([Let("a", Num(0))], c) == Ok(map["a" := IntVal(0)]);
    Runs(IfGreater(), c, map["a" := IntVal(0)]);
  }

  lemma IfGreaterSkipped()
    ensures Run(Module([IfGreater()]), map["a" := IntVal(3)]) == Ok(map["a" := IntVal(3)])
  {
    var c := map["a" := IntVal(3)];
    assert ExecBody([], c) == Ok(c);
    Runs(IfGreater(), c, c);
  }

  lemma IfAndTaken()
    ensures Run(Module([IfAnd()]), map["a" := IntVal(4), "b" := IntVal(1)])
         == Ok(map["a" := IntVal(0), "b" := IntVal(1)])
  {
    var c := map["a" := IntVal(4), "b" := IntVal(1)];
    assert Eval(Binary(Name("a"), Gt, Num(3)), c) == Ok(BoolVal(true));
    assert Eval(Binary(Binary(Name("a"), Gt, Num(3)), And, Name("b")), c) == Ok(IntVal(1));
    assert ExecBody([Let("a", Num(0))], c) == Ok(c["a" := IntVal(0)]);
    Runs(IfAnd(), c, c["a" := IntVal(0)]);
    assert c["a" := IntVal(0)] == map["a" := IntVal(0), "b" := IntVal(1)];
  }

  /** `True and 2` is `2`, which is not 1, so the body is skipped: this case depends on
      `and` returning its operand (a coerced `True` would equal 1). */
  lemma IfAndSkipped()
    ensures Run(Module([IfAnd()]), map["a" := IntVal(4), "b" := IntVal(2)])
         == Ok(map["a" := IntVal(4), "b" := IntVal(2)])
  {
    var c := map["a" := IntVal(4), "b" := IntVal(2)];
    assert Eval(Binary(Name("a"), Gt, Num(3)), c) == Ok(BoolVal(true));
    assert Eval(Binary(Binary(Name("a"), Gt, Num(3)), And, Name("b")), c) == Ok(IntVal(2));
    assert ExecBody([], c) == Ok(c);
    Runs(IfAnd(), c, c);
  }

  lemma IfOrTaken()
    ensures Run(Module([IfOr()]), map["a" := IntVal(3), "b" := IntVal(1)])
         == Ok(map["a" := IntVal(0), "b" := IntVal(1)])
  {
    var c := map["a" := IntVal(3), "b" := IntVal(1)];
    assert Eval(Binary(Name("a"), Gt, Num(3)), c) == Ok(BoolVal(false));
    assert Eval(Binary(Binary(Name("a"), Gt, Num(3)), Or, Name("b")), c) == Ok(IntVal(1));
    assert ExecBody([Let("a", Num(0))], c) == Ok(c["a" := IntVal(0)]);
    Runs(IfOr(), c, c["a" := IntVal(0)]);
    assert c["a" := IntVal(0)] == map["a" := IntVal(0), "b" := IntVal(1)];
  }

  lemma IfNestedShape()
    ensures IsStatement(IfNested()) && Names(IfNested()) == {"a", "b"}
  {
    assert IsStatement(IfGreater());
    assert Names(IfGreater()) == {"a"} by {
      assert NamesAll([Let("a", Num(0))]) == {"a"} + NamesAll([]);
    }
    assert NamesAll([IfGreater()]) == {"a"} + NamesAll([]);
  }

  lemma IfNestedTaken()
    ensures Run(Module([IfNested()]), map["a" := IntVal(4), "b" := IntVal(1)])
         == Ok(map["a" := IntVal(0), "b" := IntVal(1)])
  {
    var c := map["a" := IntVal(4), "b" := IntVal(1)];
    assert ExecBody([Let("a", Num(0))], c) == Ok(c["a" := IntVal(0)]);
    assert ExecBody([IfGreater()], c) == Ok(c["a" := IntVal(0)]);
    IfNestedShape();
    Runs(IfNested(), c, c["a" := IntVal(0)]);
    assert c["a" := IntVal(0)] == map["a" := IntVal(0), "b" := IntVal(1)];
  }

  lemma IfNestedSkipped()
    ensures Run(Module([IfNested()]), map["a" := IntVal(3), "b" := IntVal(1)])
         == Ok(map["a" := IntVal(3), "b" := IntVal(1)])
  {
    var c := map["a" := IntVal(3), "b" := IntVal(1)];
    assert ExecBody([], c) == Ok(c);
    assert ExecBody([IfGreater()], c) == Ok(c);
    IfNestedShape();
    Runs(IfNested(), c, c);
  }

  lemma IfElseTaken()
    ensures Run(Module([IfElse()]), map["a" := IntVal(4)]) == Ok(map["a" := IntVal(0)])
  {
    var c := map["a" := IntVal(4)];
    assert c["a" := IntVal(0)] == map["a" := IntVal(0)];
    assert ExecBody([Let("a", Num(0))], c) == Ok(map["a" := IntVal(0)]);
    Runs(IfElse(), c, map["a" := IntVal(0)]);
  }

  lemma IfElseOtherwise()
    ensures Run(Module([IfElse()]), map["a" := IntVal(3)]) == Ok(map["a" := IntVal(1)])
  {
    var c := map["a" := IntVal(3)];
    assert c["a" := IntVal(1)] == map["a" := IntVal(1)];
    assert ExecBody([Let("a", Num(1))], c) == Ok(map["a" := IntVal(1)]);
    Runs(IfElse(), c, map["a" := IntVal(1)]);
  }

  lemma IfElseIfShape()
    ensures IsStatement(IfElseIf()) && Names(IfElseIf()) == {"a"}
  {
    assert IsStatement(IfEqualThree());
    assert Names(IfEqualThree()) == {"a"} by {
      assert NamesAll([Let("a", Num(2))]) == {"a"} + NamesAll([]);
    }
    assert NamesAll([Let("a", Num(0))]) == {"a"} + NamesAll([]);
    assert NamesAll([IfEqualThree()]) == {"a"} + NamesAll([]);
  }

  lemma IfElseIfOtherwise()
    ensures Run(Module([IfElseIf()]), map["a" := IntVal(3)]) == Ok(map["a" := IntVal(2)])
  {
    var c := map["a" := IntVal(3)];
    assert c["a" := IntVal(2)] == map["a" := IntVal(2)];
    assert ExecBody([Let("a", Num(2))], c) == Ok(map["a" := IntVal(2)]);
    assert ExecBody([IfEqualThree()], c) == Ok(map["a" := IntVal(2)]);
    IfElseIfShape();
    Runs(IfElseIf(), c, map["a" := IntVal(2)]);
  }

  // ---------------------------------------------------------------------------
  // Strings

  function IfStr(): Node {
    If(Binary(Name("a"), Eq, Str("x")), [Let("a", Str("y"))], [])
  }

  function IfStrElse(): Node {
    If(Binary(Name("a"), Eq, Str("x")), [Let("a", Str("y"))], [Let("a", Str("z"))])
  }

  lemma StringAssign()
    ensures Run(Module([Let("a", Str("x"))]), map["a" := StrVal("b")]) == Ok(map["a" := StrVal("x")])
  {
    var c := map["a" := StrVal("b")];
    assert c["a" := StrVal("x")] == map["a" := StrVal("x")];
    Runs(Let("a", Str("x")), c, map["a" := StrVal("x")]);
  }

  lemma StringIfTaken()
    ensures Run(Module([IfStr()]), map["a" := StrVal("x")]) == Ok(map["a" := StrVal("y")])
  {
    var c := map["a" := StrVal("x")];
    assert c["a" := StrVal("y")] == map["a" := StrVal("y")];
    assert ExecBody([Let("a", Str("y"))], c) == Ok(map["a" := StrVal("y")]);
    Runs(IfStr(), c, map["a" := StrVal("y")]);
  }

  lemma StringIfSkipped()
    ensures Run(Module([IfStr()]), map["a" := StrVal("m")]) == Ok(map["a" := StrVal("m")])
  {
    var c := map["a" := StrVal("m")];
    assert "m" != "x" by { assert "m"[0] != "x"[0]; }
    assert ExecBody([], c) == Ok(c);
    Runs(IfStr(), c, c);
  }

  lemma StringElse()
    ensures Run(Module([IfStrElse()]), map["a" := StrVal("b")]) == Ok(map["a" := StrVal("z")])
  {
    var c := map["a" := StrVal("b")];
    assert c["a" := StrVal("z")] == map["a" := StrVal("z")];
    assert "b" != "x" by { assert "b"[0] != "x"[0]; }
    assert ExecBody([Let("a", Str("z"))], c) == Ok(map["a" := StrVal("z")]);
    Runs(IfStrElse(), c, map["a" := StrVal("z")]);
  }

  lemma StringElseTaken()
    ensures Run(Module([IfStrElse()]), map["a" := StrVal("x")]) == Ok(map["a" := StrVal("y")])
  {
    var c := map["a" := StrVal("x")];
    assert c["a" := StrVal("y")] == map["a" := StrVal("y")];
    assert ExecBody([Let("a", Str("y"))], c) == Ok(map["a" := StrVal("y")]);
    Runs(IfStrElse(), c, map["a" := StrVal("y")]);
  }
}
