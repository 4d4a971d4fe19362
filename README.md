# js2py in Dafny

js2py translates a small JavaScript subset into a Python `ast.Module` and runs it. The
subset has:

- assignment to a name `a = e`, a property store `a.x = e` and a property load `a.x`;
- the operators `+ - > == && ||`;
- `if (e) {e}` with an optional `else {e}`;
- number, boolean and double-quoted string literals, and `( e )` and `{ e }` groups.

`js2py(js, context)` copies the context and runs the program on the copy. It then returns
the copy without the `__builtins__` entry that Python's `exec` put there.

This project models the two core files.

- **parser.py** is modelled in two modules.
  - `Lexer` holds the PLY token rules. `Tokenize` states them as a function and the
    scanning method `Lex` is proved to compute it.
  - `Parser` holds the yacc grammar, as a deterministic recursive-descent parser with
    the same results as PLY's LALR tables. It parses a head, then folds `OP term` pairs
    onto it from the left. The right side of `=` takes the rest of the expression, because
    yacc resolves that shift/reduce conflict by shifting.
  - The AST is in `Syntax`.
- **js2py.py** is modelled in two modules.
  - `Interp` replaces Python's `compile` and `exec` with a checker of where nodes may
    stand, and an evaluator with Python's semantics:
    - `bool` counts as an integer;
    - `+` also joins strings;
    - `>` orders strings;
    - `==` compares dictionaries deeply;
    - `and`/`or` short-circuit and return an operand.
  - `Js2Py` holds `transform` and `js2py`. `Js2PyRun` is the function form. The method
    `Js2Py` works in place on a dictionary object (`PyDict`), through the store-by-store
    executor `ExecStatement`/`ExecBlock`, and is proved equal to `Js2PyRun`.

Two modules hold the evidence.

- `Printer` writes a tree back as tokens and source text. Every printable tree parses back
  to itself, and its source lexes back to its tokens. This pins down the grammar's
  choices: one precedence level folded from the left, `=` taking the rest, a term on the
  right of every operator, and `else` belonging to its `if`.
- `Scenarios` restates the cases of tests.py on tokens and trees.

The model follows what the code does:

- An assignment to a name the context does not hold binds it, as `exec` does. The test
  at tests.py:11 looks as if it expects an error, but it evaluates `js2py` before
  `assertRaises` and so asserts nothing; `Scenarios.AssignNew` proves the binding.
- `and`/`or` return an operand, not a coerced boolean, and do not evaluate the right side
  when the left side decides. Of the flat-precedence `if` tests, the one at tests.py:58
  depends on this: `True and 2` is `2`, and `2 == 1` is false, so the body is skipped.
- `bool` takes part in `+ - > ==` as 0 and 1.
- `compile` rejects a name node holding `True`, `False` or `None` (all three lex as
  identifiers) and a store to `__debug__`. A load of `__debug__` compiles to the constant
  `True`, whatever the context holds.
- Errors are the Python exceptions that would be raised:
  - `LexError` for an illegal character, with its offset;
  - a syntax error, modelled as a plain failure (see Left out);
  - `NameError`, `KeyError` and `TypeError` from `exec`.

## Model

| member | source | states |
|---|---|---|
| Lexer.Keyword | parser.py:56-69 | a word is an `ID` carrying the word exactly when it is none of `true false if else`; those four give `TRUE`, `FALSE`, `IF`, `ELSE` |
| Lexer.IdRunLength | parser.py:66-67 | the length of the longest prefix of identifier characters `[a-zA-Z0-9_]` |
| Lexer.DigitRunLength | parser.py:72-73 | the length of the longest prefix of digits |
| Lexer.IndexOf | parser.py:79-82 | the first position of the closing quote, or its absence |
| Lexer.Lex | parser.py:66-89 | the scanning loop skips spaces and tabs and takes one token at a time, stopping at the first character no rule matches; the list it returns, or the `IllegalCharacter` error with that character's offset, equals `Tokenize` |
| Lexer.TokenizeStep | parser.py:36-89 | after a token the rest of the input lexes independently, at its own offset |
| Lexer.LexWord | parser.py:56-69 | a maximal run `[a-zA-Z_][a-zA-Z0-9_]*` lexes as one token, `Keyword` of the run, and lexing goes on right after it |
| Lexer.LexNumber | parser.py:72-76 | a maximal run of digits lexes as one `NUMBER` whose value is the decimal integer the digits spell |
| Lexer.DecimalRoundTrip | parser.py:72-76 | the digits of any natural number spell that number back |
| Lexer.LexString | parser.py:79-85 | `"body"` with no quote in the body lexes as `STR(body)`: the text strictly between the quotes, with no escape processing |
| Lexer.LexUnterminatedString | parser.py:79-85 | a `"` with no closing quote after it is an illegal character at its own offset |
| Lexer.LexEqualTo | parser.py:39-41 | `==` lexes as one `EQUALTO`, never as two `ASSIGN`s |
| Lexer.LexAssign | parser.py:39-41 | `=` not followed by `=` lexes as `ASSIGN` |
| Lexer.LexIgnored | parser.py:88-89 | a space or a tab is skipped and produces no token |
| Lexer.LexNewline | parser.py:88-89 | a newline is not ignored: it is an illegal character at its offset |
| Lexer.TokenizeRender | parser.py:15-89 | a token list written out with spaces lexes back to exactly that list, for every list of lexable tokens |
| Parser.Parse | parser.py:92-225 | no tokens always give no tree (never an error), and any other tokens that parse give a tree; every `if` in it has one body statement and at most one else statement |
| Parser.ParseExpression | parser.py:92-225 | an expression consumes at least one token, and what follows it never starts with an operator |
| Parser.FoldOps | parser.py:137-180 | the fold stops only before a token that is not an operator |
| Parser.ParseHead | parser.py:92-134 | a head consumes at least one token and builds a grammar-shaped tree |
| Parser.Closing | parser.py:99-114 | a bracketed parse succeeds only if the expression is followed by the closing token, which it consumes |
| Parser.ExpressionOfHead | parser.py:183-185 | an expression is its head with the operators after it folded on |
| Parser.HeadOfTerm | parser.py:183-195 | tokens that start neither an assignment, a property access nor an `if` parse as a term |
| Parser.FoldOperatorTerm | parser.py:137-180 | `OP term` combines with everything parsed before it (left association), for each of the six operators |
| Parser.FoldStops | parser.py:137-185 | with no operator next, the fold returns its tree and tokens unchanged |
| Parser.AssignmentTakesRest | parser.py:92-96 | the right side of `ID = ...` is the whole expression there, so every operator after `=` belongs to it |
| Parser.StoreTakesRest | parser.py:117-126 | the same for a property store `ID . ID = ...` |
| Parser.LoadHead | parser.py:129-134 | `ID . ID` not followed by `=` is a load of the name subscripted by the property name as a string key |
| Parser.GroupIsExpression | parser.py:218-225 | `( e )` and `{ e }` in factor position are `e` itself |
| Parser.IfWithoutElse | parser.py:99-105 | `if ( c ) { b }` with no `else` after it gives `If(c, [b], [])` |
| Parser.IfWithElse | parser.py:108-114 | an `else` right after the closing brace belongs to this `if`, whose else list holds the one expression in its braces |
| Parser.Leftover | parser.py:92-185 | tokens left after a complete expression are a syntax error at the first of them |
| Printer.TokenOf | parser.py:137-180 | each operator's token maps back to that operator |
| Printer.ParsesBack | parser.py:92-225 | the tokens of a printable tree, followed by anything that delimits it, parse as the tree with the operators after it folded on |
| Printer.ClosedParsesBack | parser.py:218-225 | a printed tree followed by a closing bracket parses as exactly that tree |
| Printer.HeadParsesBack | parser.py:92-134 | a printed assignment, property access, `if` or term parses back as a head |
| Printer.AssignParsesBack | parser.py:92-126 | a printed assignment or property store parses back to itself |
| Printer.TermHead | parser.py:188-215 | a printed literal or name parses back as a term |
| Printer.BinaryParsesBack | parser.py:137-180 | a printed binary node parses back to itself; the left operand needs brackets only when it is an assignment |
| Printer.LeftParsesBack | parser.py:137-180 | a left operand's printed form parses back to it before any operator |
| Printer.RightParsesBack | parser.py:137-195 | a right operand parses back as a single term: written bare when it is a literal or a name, in brackets otherwise |
| Printer.GroupParsesBack | parser.py:223-225 | a bracketed printed tree is a term standing for that tree |
| Printer.IfParsesBack | parser.py:99-114 | a printed `if`, with or without `else`, parses back to itself |
| Printer.IfThenParsesBack | parser.py:99-105 | a printed `if` without `else` parses back to itself |
| Printer.IfElseParsesBack | parser.py:108-114 | a printed `if` with `else` parses back to itself |
| Printer.ParseUnparse | parser.py:92-225 | the parser inverts the printer: every printable tree parses back from its tokens unchanged |
| Printer.PropertyNotOperand | parser.py:129-195 | a property load cannot be the right operand of an operator: `l OP b . k` is rejected at the `.` |
| Printer.UnparseLexable | parser.py:66-85 | the tokens printed for a printable tree are all ones the lexer can produce |
| Printer.ParseSource | parser.py:15-225 | the printed source of a printable tree lexes to its tokens, and they parse back to the tree |
| Interp.PyEqReflexive | parser.py:161-166 | Python's `==` on the model's values is reflexive |
| Interp.PyEqSymmetric | parser.py:161-166 | Python's `==` is symmetric |
| Interp.PyEqIsEquality | parser.py:161-166 | for values without booleans, `==` holds exactly when the values are equal (numbers, strings, dictionaries entry by entry) |
| Interp.Arithmetic | parser.py:137-166 | on numbers (booleans as 0 and 1), `+ - > ==` are unbounded integer addition, subtraction, comparison and equality |
| Interp.StringComparison | parser.py:137-166 | on strings, `==` compares content, `+` concatenates and `>` is the lexicographic order |
| Interp.StrLessIrreflexive | parser.py:153-158 | no string is greater than itself |
| Interp.StrLessTransitive | parser.py:153-158 | the string order is transitive |
| Interp.LogicOnBooleans | parser.py:169-180 | on booleans, `and` and `or` are conjunction and disjunction |
| Interp.LogicReturnsOperand | parser.py:169-180 | `and`/`or` always succeed and return one of their operands, whose truthiness is the conjunction or disjunction of the operands' truthiness |
| Interp.ShortCircuit | parser.py:169-180 | `and` with a false left side, and `or` with a true one, give the left value without evaluating the right side, even when the right side would fail |
| Interp.BinaryOfValues | parser.py:137-180 | once both operands have values, a binary node's value is the operator applied to them |
| Interp.EvalReadsOnly | parser.py:129-195 | an expression's value depends only on the names it loads |
| Interp.AssignFrame | parser.py:92-96 | `x = e` binds `x`, new or not, to the value of `e` and leaves every other name as it was; an error in `e` is the statement's error |
| Interp.StoreFrame | parser.py:117-126 | `b.k = e` is one of the following: `e`'s error; a type error if `b` is `__debug__` (the constant `True`); a `NameError` if `b` is absent; a type error if `b` does not hold a dictionary; otherwise a change to key `k` inside the dictionary at `b` and nothing else |
| Interp.IfChooses | parser.py:99-114 | `if` runs its body when the test is truthy, its else list otherwise (nothing when that is empty), and fails with the test's error |
| Interp.ExecBodyShort | js2py.py:26 | an empty block leaves the globals as they are; a block of one statement is that statement |
| Interp.ExecFrame | js2py.py:26 | a statement only adds keys, among the names it writes, and leaves the value of every name it does not write unchanged |
| Interp.ExecBodyFrame | js2py.py:26 | the same for a block of statements |
| Interp.ExecIgnoresUnnamed | js2py.py:26-28 | a name a statement does not mention plays no part in running it: binding it before gives the outcome of binding it after |
| Interp.ExecBodyIgnoresUnnamed | js2py.py:26-28 | the same for a block of statements |
| Interp.WritesNamed | js2py.py:26 | a statement writes only names it mentions |
| Interp.WritesAllNamed | js2py.py:26 | a block writes only names it mentions |
| Js2Py.Transform | js2py.py:6-15 | the module body holds at most one node, and is empty exactly when the source has no tokens |
| Js2Py.ExecGlobals | js2py.py:26-27 | `exec` adds `__builtins__`, unless present, and changes nothing else |
| Js2Py.PyDict.Copy | js2py.py:23 | `copy` gives a new dictionary with the same entries |
| Js2Py.PyDict.Set | js2py.py:26 | a store changes the one key |
| Js2Py.PyDict.Delete | js2py.py:28 | `del` removes the key, or raises `KeyError` and leaves the dictionary as it was |
| Js2Py.ExecStatement | js2py.py:26 | running one statement in place leaves the dictionary holding what `ExecStmt` computes, or stops with its error |
| Js2Py.ExecBlock | js2py.py:26 | running a block in place, one statement at a time, leaves what `ExecBody` computes, or stops with its error |
| Js2Py.Js2Py | js2py.py:18-29 | the method succeeds exactly when `Js2PyRun` does, returns a fresh dictionary holding its result, raises its error otherwise, and leaves the caller's dictionary unchanged |
| Js2Py.RunFrame | js2py.py:23-29 | a compiled program's run fails only if execution does (the deletion never fails); the result has no `__builtins__`, keeps every caller key, adds only written names and leaves unwritten names unchanged |
| Js2Py.NoStoresNoChange | js2py.py:23-29 | a program that stores nothing returns the caller's context (less any `__builtins__`) |
| Js2Py.NoBuiltinsReturned | js2py.py:26-28 | the returned context never holds `__builtins__` |
| Js2Py.EmptyProgram | js2py.py:10-15 | source with no tokens returns the caller's context (less any `__builtins__`) |
| Js2Py.SourceRuns | js2py.py:18-29 | the printed source of any printable tree runs as the module holding that tree |
| Js2Py.RunIsExec | js2py.py:26-28 | when neither the context nor the program names `__builtins__`, the run is the program executed on the context itself |
| Scenarios.Runs | js2py.py:23-29 | a one-statement module on such a context returns what the statement leaves |
| Scenarios.Empty | tests.py:7-8 | the empty program returns `{a: 1}` for `{a: 1}` |
| Scenarios.AssignNew | tests.py:10-11 | `a = 1` on `{}` binds the new name: `{a: 1}` |
| Scenarios.AssignExisting | tests.py:13-14 | `a = 1` on `{a: 0}` gives `{a: 1}` |
| Scenarios.CapitalTrue | parser.py:66-69 | `True` lexes as an identifier, and `True = 1` fails to compile |
| Scenarios.DebugLoad | parser.py:66-69 | `__debug__` lexes as an identifier, and `a = __debug__` binds `True` whatever the context holds |
| Scenarios.ScalarAdditionParse | tests.py:19-20 | `a = 1 + 2` parses as `a = (1 + 2)` |
| Scenarios.ScalarAddition | tests.py:19-20 | which assigns 3 |
| Scenarios.MixedAddition | tests.py:22-23 | `a = a + 1` on `{a: 1}` gives `{a: 2}` |
| Scenarios.VariableAddition | tests.py:25-26 | `a = a + b` on `{a: 1, b: 2}` gives `{a: 3, b: 2}` |
| Scenarios.Subtraction | tests.py:28-29 | `a = a - b` on `{a: 1, b: 2}` gives `{a: -1, b: 2}` |
| Scenarios.WithPropertiesParse | tests.py:31-32 | `a.x = a.x - 1` parses as a property store of a property load minus one |
| Scenarios.WithProperties | tests.py:31-32 | which turns `{a: {x: 0}}` into `{a: {x: -1}}` |
| Scenarios.PropertyOnTheRight | parser.py:137-195 | `1 + a.x` is a syntax error at the `.` |
| Scenarios.AndOperator | tests.py:37-41 | `a = a && true` keeps `a` for `false` and for `true` |
| Scenarios.OrOperator | tests.py:43-49 | `a = a or true` (written with the double bar) gives `true` from `false` and from `true`; `a = a or false` keeps `false` |
| Scenarios.IfAndParse | tests.py:57-58 | `a>3 && b == 1` parses as `((a > 3) and b) == 1` |
| Scenarios.IfElseIfParse | tests.py:69 | an `if` inside an else branch is that branch's one statement |
| Scenarios.IfGreaterTaken | tests.py:55 | `if (a>3) { a = 0}` on `{a: 4}` gives `{a: 0}` |
| Scenarios.IfGreaterSkipped | tests.py:56 | and leaves `{a: 3}` as it is |
| Scenarios.IfAndTaken | tests.py:57 | `if (a>3 && b == 1) { a = 0}` on `{a: 4, b: 1}` gives `{a: 0, b: 1}` |
| Scenarios.IfAndSkipped | tests.py:58 | and leaves `{a: 4, b: 2}` as it is, because `True and 2` is `2`, which is not 1 |
| Scenarios.IfOrTaken | tests.py:59 | `if (a>3 or b == 1) { a = 0}` (the double bar) on `{a: 3, b: 1}` gives `{a: 0, b: 1}`, as `((a > 3) or b) == 1` |
| Scenarios.IfNestedShape | tests.py:60-61 | the nested `if` compiles and mentions only `a` and `b` |
| Scenarios.IfNestedTaken | tests.py:60 | `if (b == 1){ if (a > 3) { a = 0}}` on `{a: 4, b: 1}` gives `{a: 0, b: 1}` |
| Scenarios.IfNestedSkipped | tests.py:61 | and leaves `{a: 3, b: 1}` as it is |
| Scenarios.IfElseTaken | tests.py:67 | `if (a>3) { a = 0} else { a = 1}` on `{a: 4}` gives `{a: 0}` |
| Scenarios.IfElseOtherwise | tests.py:68 | and on `{a: 3}` gives `{a: 1}` |
| Scenarios.IfElseIfShape | tests.py:69 | the else-if program compiles and mentions only `a` |
| Scenarios.IfElseIfOtherwise | tests.py:69 | `if (a>3) { a = 0} else { if (a == 3) {a = 2}}` on `{a: 3}` gives `{a: 2}` |
| Scenarios.StringAssign | tests.py:78 | `a = "x"` on `{a: "b"}` gives `{a: "x"}` |
| Scenarios.StringIfTaken | tests.py:79 | `if (a == "x") { a = "y"}` on `{a: "x"}` gives `{a: "y"}` |
| Scenarios.StringIfSkipped | tests.py:80 | and leaves `{a: "m"}` as it is |
| Scenarios.StringElse | tests.py:81 | `if (a == "x") { a = "y"} else { a = "z"}` on `{a: "b"}` gives `{a: "z"}` |
| Scenarios.StringElseTaken | tests.py:82 | and on `{a: "x"}` gives `{a: "y"}` |

## Left out

- PLY's table generation (parser.py:229-230) is not modelled. The parser is a recursive
  descent proved to make the same choices: a left fold at one precedence level, the
  shift that lets `=` take the rest, and `else` belonging to its `if`.
- The duplicate `'ID'` in `tokens` (parser.py:15, parser.py:32) has no effect. The string
  rules `t_TRUE`, `t_FALSE`, `t_IF` and `t_ELSE` (parser.py:48-52) never match, because
  `t_ID` is tried first and its reserved-word lookup produces those tokens.
- PLY's error recovery is not modelled. The grammar has no `p_error`, so PLY reports a
  syntax error and resynchronises; `parse` can then return `None`, which `transform`
  treats as an empty program. A syntax error is a plain `SyntaxFailure` here, and
  no-tree-means-empty-module arises only from input with no tokens.
- `Transform`: the order of failures is simplified. PLY's parser pulls tokens lazily, so
  it may meet a syntax error before an illegal character further on. Here the whole input
  is lexed first.
- Line and column fields of the AST, and Python-version differences of the `ast` API, are
  not modelled.
- `Interp.Eval`: a name the globals do not hold (other than `__debug__`) is a
  `NameError`. Python would first look it up among the builtins (such as `print` or
  `len`), whose values are outside this value model.
- The builtins dictionary is one opaque value, and subscripting it is `BuiltinsAccess`.
  Its entries, and operators applied to it (which raise `TypeError` in Python as here,
  except `==`), are not modelled further.
- `Js2Py.Js2Py`: aliasing through the shallow copy is not captured. `context.copy()`
  shares nested dictionaries with the caller, so in Python a property store also changes
  the caller's nested dictionary. Values here are immutable maps.
- Partial state after an error inside a multi-statement block is not modelled: the
  grammar yields at most one statement, and the copy is discarded on any error.
- Unicode is not modelled. `\d` in `t_NUMBER` matches only ASCII digits here, while
  Python's `re` also matches other Unicode decimal digits.
- tests.py is restated on tokens and trees, not on source strings: no lemma lexes a test's
  source text itself. The general lexer lemmas (`LexWord`, `LexNumber`, `LexString`,
  `LexEqualTo`, `LexIgnored`, `TokenizeRender`) describe how source text maps to tokens.
- `Printer.ParseUnparse` covers printable trees: names are identifiers and every `if` has
  exactly one body statement and at most one else statement. `Parser.Parse` proves the
  `if` shape of every tree it returns; that its names are identifiers when the tokens
  came from the lexer is not proved.
