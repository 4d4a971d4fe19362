/** js2py.py: `transform` turns the source into a module whose body is the parser's tree,
    if any, and `js2py` runs that module on a copy of the caller's context and returns the
    copy without the `__builtins__` entry execution adds. */
module Js2Py {
  import opened Wrappers
  import opened Lexer
  import opened Syntax
  import opened Parser
  import opened Interp
  import Printer

  /** Why `js2py` raised. */
  datatype Failure =
    | LexFailure(lex: LexError)
    | SyntaxFailure(syntax: SyntaxError)
    | RunFailure(run: RunError)

  const BuiltinsKey: string := "__builtins__"

  /** `transform`: the tree the parser returns is the one statement of the module; no tree
      gives an empty module. */
  function Transform(js: string): (r: Result<Module, Failure>)
    ensures r.Ok? ==> |r.value.body| <= 1
    ensures r.Ok? ==> (r.value.body == [] <==> Tokenize(js) == Ok([]))
  {
    match Tokenize(js)
    case Err(e) => Err(LexFailure(e))
    case Ok(ts) =>
      match Parse(ts)
      case Err(e) => Err(SyntaxFailure(e))
      case Ok(None) => Ok(Module([]))
      case Ok(Some(n)) => Ok(Module([n]))
  }

  /** The globals `exec` runs on: the context, with the builtins dictionary added under
      `__builtins__` unless the context already has that key. */
  function ExecGlobals(ctx: Globals): (g: Globals)
    ensures BuiltinsKey in g && g.Keys == ctx.Keys + {BuiltinsKey}
    ensures forall x | x in ctx :: g[x] == ctx[x]
  {
    if BuiltinsKey in ctx then ctx else ctx[BuiltinsKey := Builtins]
  }

  /** `compile`, `exec` and `del new_context['__builtins__']` on a copy of `ctx`. */
  function Run(m: Module, ctx: Globals): Result<Globals, RunError> {
    if !Compiles(m) then Err(CompileError)
    else
      var h :- ExecBody(m.body, ExecGlobals(ctx));
      if BuiltinsKey in h then Ok(h - {BuiltinsKey}) else Err(KeyError(BuiltinsKey))
  }

  /** What `js2py(js, context)` returns, or why it raises. */
  function Js2PyRun(js: string, ctx: Globals): Result<Globals, Failure> {
    var m :- Transform(js);
    match Run(m, ctx)
    case Err(e) => Err(RunFailure(e))
    case Ok(h) => Ok(h)
  }

  // ---------------------------------------------------------------------------
  // The dictionary `exec` updates in place

  /** A Python `dict` from names to values. */
  class PyDict {
    var items: Globals

    constructor(items: Globals)
      ensures this.items == items
    {
      this.items := items;
    }

    /** `dict.copy()`: a new dictionary with the same entries. */
    method Copy() returns (d: PyDict)
      ensures fresh(d) && d.items == items
    {
      d := new PyDict(items);
    }

    /** `d[k] = v`. */
    method Set(k: string, v: Value)
      modifies this
      ensures items == old(items)[k := v]
    {
      items := items[k := v];
    }

    /** `del d[k]`, which raises `KeyError` when `k` is absent. */
    method Delete(k: string) returns (err: Option<RunError>)
      modifies this
      ensures k in old(items) ==> err == None && items == old(items) - {k}
      ensures k !in old(items) ==> err == Some(KeyError(k)) && items == old(items)
    {
      if k in items {
        items := items - {k};
        err := None;
      } else {
        err := Some(KeyError(k));
      }
    }
  }

  /** The outcome of a run in place: the error it stopped with, or the globals it left. */
  function Outcome(err: Option<RunError>, items: Globals): Result<Globals, RunError> {
    if err.Some? then Err(err.value) else Ok(items)
  }

  /** One statement, storing into `g` in place. */
  method ExecStatement(s: Node, g: PyDict) returns (err: Option<RunError>)
    requires IsStatement(s)
    modifies g
    ensures Outcome(err, g.items) == ExecStmt(s, old(g.items))
  {
    match s
    case Assign(NameTarget(x), v) =>
      var val := Eval(v, g.items);
      if val.Err? {
        return Some(val.error);
      }
      g.Set(x, val.value);
      return None;
    case Assign(SubscriptTarget(b, k), v) =>
      var val := Eval(v, g.items);
      if val.Err? {
        return Some(val.error);
      }
      var base := Lookup(g.items, b);
      if base.Err? {
        return Some(base.error);
      }
      match base.value {
        case DictVal(m) =>
          g.Set(b, DictVal(m[k := val.value]));
          return None;
        case Builtins =>
          return Some(BuiltinsAccess(k));
        case _ =>
          return Some(TypeError);
      }
    case If(c, body, orelse) =>
      var t := Eval(c, g.items);
      if t.Err? {
        return Some(t.error);
      }
      if Truthy(t.value) {
        err := ExecBlock(body, g);
      } else {
        err := ExecBlock(orelse, g);
      }
  }

  /** The statements of a block in order, stopping at the first error. */
  method ExecBlock(ss: seq<Node>, g: PyDict) returns (err: Option<RunError>)
    requires forall i | 0 <= i < |ss| :: IsStatement(ss[i])
    modifies g
    ensures Outcome(err, g.items) == ExecBody(ss, old(g.items))
  {
    var i := 0;
    while i < |ss|
      invariant 0 <= i <= |ss|
      invariant ExecBody(ss, old(g.items)) == ExecBody(ss[i..], g.items)
    {
      assert ss[i..][0] == ss[i] && ss[i..][1..] == ss[i + 1..];
      err := ExecStatement(ss[i], g);
      if err.Some? {
        return;
      }
      i := i + 1;
    }
    return None;
  }

  /** `js2py`: copy the context, transform, compile and run the module on the copy, and
      delete `__builtins__` from it. The caller's dictionary is left as it was. */
  method Js2Py(js: string, context: PyDict) returns (r: Result<PyDict, Failure>)
    ensures r.Ok? <==> Js2PyRun(js, context.items).Ok?
    ensures r.Ok? ==> fresh(r.value) && r.value.items == Js2PyRun(js, context.items).value
    ensures r.Err? ==> r.error == Js2PyRun(js, context.items).error
    ensures context.items == old(context.items)
  {
    var newContext := context.Copy();
    var tokens := Lex(js);
    if tokens.Err? {
      return Err(LexFailure(tokens.error));
    }
    var tree := Parse(tokens.value);
    if tree.Err? {
      return Err(SyntaxFailure(tree.error));
    }
    var m := if tree.value.Some? then Module([tree.value.value]) else Module([]);
    if !Compiles(m) {
      return Err(RunFailure(CompileError));
    }
    if BuiltinsKey !in newContext.items {
      newContext.Set(BuiltinsKey, Builtins);
    }
    var err := ExecBlock(m.body, newContext);
    if err.Some? {
      return Err(RunFailure(err.value));
    }
    err := newContext.Delete(BuiltinsKey);
    if err.Some? {
      return Err(RunFailure(err.value));
    }
    return Ok(newContext);
  }

  // ---------------------------------------------------------------------------
  // Properties of a run

  /** The deletion never fails: a run that compiles and executes returns, and what it
      returns is the context with the program's stores applied, every name the program
      does not write unchanged, and no `__builtins__`. */
  lemma RunFrame(m: Module, ctx: Globals)
    requires Compiles(m)
    ensures Run(m, ctx).Ok? <==> ExecBody(m.body, ExecGlobals(ctx)).Ok?
    ensures Run(m, ctx).Ok? ==>
      var r := Run(m, ctx).value;
      BuiltinsKey !in r
      && ctx.Keys - {BuiltinsKey} <= r.Keys <= ctx.Keys + WritesAll(m.body) - {BuiltinsKey}
      && forall y | y in ctx && y != BuiltinsKey && y !in WritesAll(m.body) :: r[y] == ctx[y]
  {
    var g := ExecGlobals(ctx);
    if ExecBody(m.body, g).Ok? {
      ExecBodyFrame(m.body, g);
    }
  }

  /** A program that stores nothing returns the context it was given (less any
      `__builtins__`), so running it leaves no trace from one call to the next. */
  lemma NoStoresNoChange(m: Module, ctx: Globals)
    requires Compiles(m) && WritesAll(m.body) == {}
    ensures Run(m, ctx).Ok? ==> Run(m, ctx).value == ctx - {BuiltinsKey}
  {
    RunFrame(m, ctx);
    if Run(m, ctx).Ok? {
      var r := Run(m, ctx).value;
      assert r.Keys == ctx.Keys - {BuiltinsKey};
    }
  }

  /** The returned context never holds `__builtins__`, whether or not the caller's did. */
  lemma NoBuiltinsReturned(js: string, ctx: Globals)
    ensures Js2PyRun(js, ctx).Ok? ==> BuiltinsKey !in Js2PyRun(js, ctx).value
  {
  }

  /** Source with no tokens runs as the empty module: the result is the context itself,
      less any `__builtins__` entry. */
  lemma EmptyProgram(js: string, ctx: Globals)
    requires Tokenize(js) == Ok([])
    ensures Js2PyRun(js, ctx) == Ok(ctx - {BuiltinsKey})
  {
    var g := ExecGlobals(ctx);
    assert g - {BuiltinsKey} == ctx - {BuiltinsKey};
  }

  /** The printed source of a printable tree runs as the module holding that tree. */
  lemma SourceRuns(n: Node, ctx: Globals)
    requires Printer.Printable(n)
    ensures Js2PyRun(Printer.Source(n), ctx)
      == match Run(Module([n]), ctx)
         case Err(e) => Err(RunFailure(e))
         case Ok(h) => Ok(h)
  {
    Printer.ParseSource(n);
  }

  /** For a context without `__builtins__` and a program that does not name it, the
      entry `exec` adds and `js2py` deletes is invisible: the run is the program's
      statements executed on the context itself. */
  lemma RunIsExec(m: Module, ctx: Globals)
    requires Compiles(m) && BuiltinsKey !in ctx && BuiltinsKey !in NamesAll(m.body)
    ensures Run(m, ctx) == ExecBody(m.body, ctx)
  {
    ExecBodyIgnoresUnnamed(m.body, ctx, BuiltinsKey, Builtins);
    assert ExecGlobals(ctx) == ctx[BuiltinsKey := Builtins];
    if ExecBody(m.body, ctx).Ok? {
      var h := ExecBody(m.body, ctx).value;
      ExecBodyFrame(m.body, ctx);
      WritesAllNamed(m.body);
      assert h[BuiltinsKey := Builtins] - {BuiltinsKey} == h;
    }
  }
}
