/** What Python's `compile` and `exec` do with the tree `transform` builds, written as a
    direct evaluator over the globals dictionary.

    `compile` checks that each node stands where Python's grammar allows it: only
    assignments and `if` are statements, and they may not appear inside an expression.
    `exec` then runs the statements one after another against the globals: a name load
    reads a key, an assignment binds a key (a new one as well), and a property store
    writes a key of the nested dictionary a name holds. The operators follow Python:
    `bool` counts as an integer in `+`, `-`, `>` and `==`, `+` also joins strings, `>`
    orders strings by code point, `==` compares dictionaries entry by entry and never
    fails, and `and`/`or` return one of their operands without evaluating the second
    when the first decides the result. */
module Interp {
  import opened Wrappers
  import opened Syntax

  /** The values a program meets: the contents of the context it is given, and the
      builtins dictionary `exec` adds under `__builtins__`, whose entries are not held. */
  datatype Value =
    | IntVal(i: int)
    | BoolVal(b: bool)
    | StrVal(s: string)
    | DictVal(items: map<string, Value>)
    | Builtins

  type Globals = map<string, Value>

  /** The Python exception a run stops with. */
  datatype RunError =
    | CompileError              // a node where `compile` does not allow it
    | NameError(name: string)   // a load of a name the globals do not hold
    | KeyError(key: string)     // a property load of a key the dictionary does not hold
    | TypeError                 // an operator or a subscript applied to the wrong types
    | BuiltinsAccess(key: string) // a subscript of the builtins dictionary (not held)

  // ---------------------------------------------------------------------------
  // compile: which node may stand where

  /** The names an `ast.Name` may not carry: Python writes these constants as
      `ast.Constant`, and `compile` rejects a name node holding one. */
  predicate IsConstantName(x: string) {
    x == "True" || x == "False" || x == "None"
  }

  /** A node Python accepts in expression position. */
  predicate IsExpression(n: Node) {
    match n
    case Name(x) => !IsConstantName(x)
    case Subscript(b, _) => !IsConstantName(b)
    case Binary(l, _, r) => IsExpression(l) && IsExpression(r)
    case Assign(_, _) => false
    case If(_, _, _) => false
    case _ => true
  }

  /** A store target `compile` accepts: no constant name, and no assignment to
      `__debug__`. */
  predicate IsTarget(t: Target) {
    match t
    case NameTarget(x) => !IsConstantName(x) && x != "__debug__"
    case SubscriptTarget(b, _) => !IsConstantName(b)
  }

  /** A node Python accepts in statement position: an assignment of an expression to a
      valid target, or an `if` whose test is an expression and whose non-empty body and
      else list are statements. */
  predicate IsStatement(n: Node) {
    match n
    case Assign(t, v) => IsTarget(t) && IsExpression(v)
    case If(c, b, o) =>
      IsExpression(c) && b != []
      && (forall i | 0 <= i < |b| :: IsStatement(b[i]))
      && (forall i | 0 <= i < |o| :: IsStatement(o[i]))
    case _ => false
  }

  predicate Compiles(m: Module) {
    forall i | 0 <= i < |m.body| :: IsStatement(m.body[i])
  }

  // ---------------------------------------------------------------------------
  // The operators

  /** Python's truth value. A dictionary is true when it has an entry; the builtins
      dictionary always has. */
  predicate Truthy(v: Value) {
    match v
    case IntVal(i) => i != 0
    case BoolVal(b) => b
    case StrVal(s) => s != []
    case DictVal(m) => m != map[]
    case Builtins => true
  }

  /** `int` and its subclass `bool`. */
  predicate IsNumber(v: Value) {
    v.IntVal? || v.BoolVal?
  }

  function NumOf(v: Value): int
    requires IsNumber(v)
  {
    if v.IntVal? then v.i else if v.b then 1 else 0
  }

  /** Python's `<` on strings: the first differing character decides, and a proper prefix
      comes first. */
  predicate StrLess(a: string, b: string) {
    if b == [] then false
    else if a == [] then true
    else if a[0] != b[0] then a[0] < b[0]
    else StrLess(a[1..], b[1..])
  }

  /** Python's `==`: numbers by value across `int` and `bool`, strings by content,
      dictionaries by their keys and the `==` of their entries; different kinds are
      unequal. */
  predicate PyEq(a: Value, b: Value) {
    if IsNumber(a) && IsNumber(b) then NumOf(a) == NumOf(b)
    else match (a, b)
      case (StrVal(x), StrVal(y)) => x == y
      case (DictVal(m), DictVal(n)) => m.Keys == n.Keys && forall k | k in m :: PyEq(m[k], n[k])
      case (Builtins, Builtins) => true
      case _ => false
  }

  /** The value of `a op b` once both operands are known. For `and` and `or` this is the
      operand Python returns. */
  function Apply(op: Operator, a: Value, b: Value): Result<Value, RunError> {
    match op
    case Add =>
      if IsNumber(a) && IsNumber(b) then Ok(IntVal(NumOf(a) + NumOf(b)))
      else if a.StrVal? && b.StrVal? then Ok(StrVal(a.s + b.s))
      else Err(TypeError)
    case Sub =>
      if IsNumber(a) && IsNumber(b) then Ok(IntVal(NumOf(a) - NumOf(b)))
      else Err(TypeError)
    case Gt =>
      if IsNumber(a) && IsNumber(b) then Ok(BoolVal(NumOf(a) > NumOf(b)))
      else if a.StrVal? && b.StrVal? then Ok(BoolVal(StrLess(b.s, a.s)))
      else Err(TypeError)
    case Eq => Ok(BoolVal(PyEq(a, b)))
    case And => Ok(if Truthy(a) then b else a)
    case Or => Ok(if Truthy(a) then a else b)
  }

  /** `and` with a false left operand and `or` with a true one do not evaluate the right
      operand. */
  predicate ShortCircuits(op: Operator, a: Value) {
    (op == And && !Truthy(a)) || (op == Or && Truthy(a))
  }

  // ---------------------------------------------------------------------------
  // Evaluation

  /** A name load. Python's compiler replaces a load of `__debug__` by the constant
      `True` (assertions are on), whatever the globals hold; every other name is looked
      up in the globals. */
  function Lookup(g: Globals, x: string): Result<Value, RunError> {
    if x == "__debug__" then Ok(BoolVal(true))
    else if x in g then Ok(g[x]) else Err(NameError(x))
  }

  /** `base[key]` with a string key. */
  function Index(base: Value, key: string): Result<Value, RunError> {
    match base
    case DictVal(m) => if key in m then Ok(m[key]) else Err(KeyError(key))
    case Builtins => Err(BuiltinsAccess(key))
    case _ => Err(TypeError)
  }

  function Eval(e: Node, g: Globals): Result<Value, RunError>
    requires IsExpression(e)
  {
    match e
    case Num(n) => Ok(IntVal(n))
    case NameConstant(b) => Ok(BoolVal(b))
    case Str(s) => Ok(StrVal(s))
    case Name(x) => Lookup(g, x)
    case Subscript(b, k) =>
      var base :- Lookup(g, b);
      Index(base, k)
    case Binary(l, op, r) =>
      var a :- Eval(l, g);
      if ShortCircuits(op, a) then Ok(a)
      else
        var b :- Eval(r, g);
        Apply(op, a, b)
  }

  /** One statement against the globals. The right side of an assignment is evaluated
      before the target's base is loaded, and an `if` runs the body when its test is true
      and the else list otherwise. */
  function ExecStmt(s: Node, g: Globals): Result<Globals, RunError>
    requires IsStatement(s)
  {
    match s
    case Assign(NameTarget(x), v) =>
      var val :- Eval(v, g);
      Ok(g[x := val])
    case Assign(SubscriptTarget(b, k), v) =>
      var val :- Eval(v, g);
      var base :- Lookup(g, b);
      match base {
        case DictVal(m) => Ok(g[b := DictVal(m[k := val])])
        case Builtins => Err(BuiltinsAccess(k))
        case _ => Err(TypeError)
      }
    case If(c, body, orelse) =>
      var t :- Eval(c, g);
      if Truthy(t) then ExecBody(body, g) else ExecBody(orelse, g)
  }

  /** Statements in order; the first error stops the run. */
  function ExecBody(ss: seq<Node>, g: Globals): Result<Globals, RunError>
    requires forall i | 0 <= i < |ss| :: IsStatement(ss[i])
  {
    if ss == [] then Ok(g)
    else
      var h :- ExecStmt(ss[0], g);
      ExecBody(ss[1..], h)
  }

  /** The names a statement may bind or store into. */
  function Writes(s: Node): set<string> {
    match s
    case Assign(NameTarget(x), _) => {x}
    case Assign(SubscriptTarget(b, _), _) => {b}
    case If(_, body, orelse) => WritesAll(body) + WritesAll(orelse)
    case _ => {}
  }

  function WritesAll(ss: seq<Node>): set<string> {
    if ss == [] then {} else Writes(ss[0]) + WritesAll(ss[1..])
  }

  // ---------------------------------------------------------------------------
  // Properties of the operators

  lemma {:induction false} PyEqReflexive(a: Value)
    ensures PyEq(a, a)
  {
    match a
    case DictVal(m) =>
      forall k | k in m
        ensures PyEq(m[k], m[k])
      {
        PyEqReflexive(m[k]);
      }
    case _ =>
  }

  lemma {:induction false} PyEqSymmetric(a: Value, b: Value)
    ensures PyEq(a, b) == PyEq(b, a)
  {
    if a.DictVal? && b.DictVal? {
      forall k | k in a.items && k in b.items
        ensures PyEq(a.items[k], b.items[k]) == PyEq(b.items[k], a.items[k])
      {
        PyEqSymmetric(a.items[k], b.items[k]);
      }
    }
  }

  /** A value with no `bool` anywhere in it. */
  predicate BoolFree(v: Value) {
    match v
    case BoolVal(_) => false
    case DictVal(m) => forall k | k in m :: BoolFree(m[k])
    case _ => true
  }

  /** Without booleans (which `==` identifies with 0 and 1) Python's `==` is equality of
      values: numbers by value, strings by content, dictionaries entry by entry. */
  lemma {:induction false} PyEqIsEquality(a: Value, b: Value)
    requires BoolFree(a) && BoolFree(b)
    ensures PyEq(a, b) <==> a == b
  {
    if a.DictVal? && b.DictVal? {
      var m, n := a.items, b.items;
      forall k | k in m && k in n
        ensures PyEq(m[k], n[k]) <==> m[k] == n[k]
      {
        PyEqIsEquality(m[k], n[k]);
      }
      if PyEq(a, b) {
        assert m == n;
      } else if a == b {
        PyEqReflexive(a);
      }
    } else if a == b {
      PyEqReflexive(a);
    }
  }

  /** Integer arithmetic is unbounded; `bool` operands count as 0 and 1. */
  lemma Arithmetic(a: Value, b: Value)
    requires IsNumber(a) && IsNumber(b)
    ensures Apply(Add, a, b) == Ok(IntVal(NumOf(a) + NumOf(b)))
    ensures Apply(Sub, a, b) == Ok(IntVal(NumOf(a) - NumOf(b)))
    ensures Apply(Gt, a, b) == Ok(BoolVal(NumOf(a) > NumOf(b)))
    ensures Apply(Eq, a, b) == Ok(BoolVal(NumOf(a) == NumOf(b)))
  {
  }

  /** Comparing two strings compares their contents. */
  lemma StringComparison(x: string, y: string)
    ensures Apply(Eq, StrVal(x), StrVal(y)) == Ok(BoolVal(x == y))
    ensures Apply(Add, StrVal(x), StrVal(y)) == Ok(StrVal(x + y))
    ensures Apply(Gt, StrVal(x), StrVal(y)) == Ok(BoolVal(StrLess(y, x)))
  {
  }

  /** `<` on strings is a strict order. */
  lemma {:induction false} StrLessIrreflexive(a: string)
    ensures !StrLess(a, a)
  {
    if a != [] {
      StrLessIrreflexive(a[1..]);
    }
  }

  lemma {:induction false} StrLessTransitive(a: string, b: string, c: string)
    requires StrLess(a, b) && StrLess(b, c)
    ensures StrLess(a, c)
  {
    if a != [] && a[0] == b[0] && b[0] == c[0] {
      StrLessTransitive(a[1..], b[1..], c[1..]);
    }
  }

  /** `and` and `or` on two booleans are the boolean connectives. */
  lemma LogicOnBooleans(x: bool, y: bool)
    ensures Apply(And, BoolVal(x), BoolVal(y)) == Ok(BoolVal(x && y))
    ensures Apply(Or, BoolVal(x), BoolVal(y)) == Ok(BoolVal(x || y))
  {
  }

  /** `and` and `or` return an operand, not a coerced boolean: `True and 1` is `1`. */
  lemma LogicReturnsOperand(op: Operator, a: Value, b: Value)
    requires op == And || op == Or
    ensures Apply(op, a, b).Ok?
    ensures Apply(op, a, b).value == a || Apply(op, a, b).value == b
    ensures Truthy(Apply(op, a, b).value) == (if op == And then Truthy(a) && Truthy(b)
                                                           else Truthy(a) || Truthy(b))
  {
  }

  // ---------------------------------------------------------------------------
  // Properties of evaluation

  /** When the left operand decides `and` or `or`, the right one is not evaluated: the
      result is the left operand even where the right one would fail. */
  lemma ShortCircuit(l: Node, op: Operator, r: Node, g: Globals, a: Value)
    requires IsExpression(l) && IsExpression(r)
    requires Eval(l, g) == Ok(a) && ShortCircuits(op, a)
    ensures Eval(Binary(l, op, r), g) == Ok(a)
  {
  }

  /** Where both operands evaluate, an operator application is `Apply` of their values:
      the short circuit changes which errors can happen, never a result. */
  lemma BinaryOfValues(l: Node, op: Operator, r: Node, g: Globals, a: Value, b: Value)
    requires IsExpression(l) && IsExpression(r)
    requires Eval(l, g) == Ok(a) && Eval(r, g) == Ok(b)
    ensures Eval(Binary(l, op, r), g) == Apply(op, a, b)
  {
  }

  /** The names an expression loads. */
  function Reads(e: Node): set<string> {
    match e
    case Name(x) => {x}
    case Subscript(b, _) => {b}
    case Binary(l, _, r) => Reads(l) + Reads(r)
    case _ => {}
  }

  predicate AgreeOn(g: Globals, h: Globals, names: set<string>) {
    forall x | x in names :: (x in g <==> x in h) && (x in g ==> g[x] == h[x])
  }

  /** An expression depends only on the names it loads. */
  lemma {:induction false} EvalReadsOnly(e: Node, g: Globals, h: Globals)
    requires IsExpression(e) && AgreeOn(g, h, Reads(e))
    ensures Eval(e, g) == Eval(e, h)
  {
    match e
    case Binary(l, op, r) =>
      EvalReadsOnly(l, g, h);
      EvalReadsOnly(r, g, h);
    case Name(x) => assert x in Reads(e);
    case Subscript(b, _) => assert b in Reads(e);
    case _ =>
  }

  // ---------------------------------------------------------------------------
  // Properties of statements

  /** `x = e` binds `x`, new or not, to the value of `e` and leaves every other name as it
      was; an error in `e` is the error of the statement. */
  lemma AssignFrame(x: string, e: Node, g: Globals)
    requires IsTarget(NameTarget(x)) && IsExpression(e)
    ensures ExecStmt(Assign(NameTarget(x), e), g).Ok? <==> Eval(e, g).Ok?
    ensures Eval(e, g).Err? ==> ExecStmt(Assign(NameTarget(x), e), g) == Err(Eval(e, g).error)
    ensures Eval(e, g).Ok? ==>
      var r := ExecStmt(Assign(NameTarget(x), e), g).value;
      r.Keys == g.Keys + {x} && r[x] == Eval(e, g).value
      && forall y | y in g && y != x :: r[y] == g[y]
  {
  }

  /** `b.k = e` evaluates `e`, then needs `b` bound to a dictionary (`__debug__` is the
      constant `True`, which is not one), and sets key `k` of that dictionary and nothing
      else: the globals keep their keys and every other name its value, the dictionary
      keeps its other entries. */
  lemma StoreFrame(b: string, k: string, e: Node, g: Globals)
    requires !IsConstantName(b) && IsExpression(e)
    ensures Eval(e, g).Err? ==> ExecStmt(Assign(SubscriptTarget(b, k), e), g) == Err(Eval(e, g).error)
    ensures Eval(e, g).Ok? && b == "__debug__" ==>
      ExecStmt(Assign(SubscriptTarget(b, k), e), g) == Err(TypeError)
    ensures Eval(e, g).Ok? && b != "__debug__" && b !in g ==>
      ExecStmt(Assign(SubscriptTarget(b, k), e), g) == Err(NameError(b))
    ensures Eval(e, g).Ok? && b != "__debug__" && b in g && !g[b].DictVal? ==>
      ExecStmt(Assign(SubscriptTarget(b, k), e), g)
        == Err(if g[b].Builtins? then BuiltinsAccess(k) else TypeError)
    ensures Eval(e, g).Ok? && b != "__debug__" && b in g && g[b].DictVal? ==>
      var r := ExecStmt(Assign(SubscriptTarget(b, k), e), g);
      r.Ok? && r.value.Keys == g.Keys
      && (forall y | y in g && y != b :: r.value[y] == g[y])
      && r.value[b].DictVal? && r.value[b].items.Keys == g[b].items.Keys + {k}
      && r.value[b].items[k] == Eval(e, g).value
      && (forall j | j in g[b].items && j != k :: r.value[b].items[j] == g[b].items[j])
  {
  }

  /** `if` runs its body when the test is true and its else list (maybe empty) when it
      is false; an error in the test is the error of the statement. */
  lemma IfChooses(c: Node, body: seq<Node>, orelse: seq<Node>, g: Globals)
    requires IsStatement(If(c, body, orelse))
    ensures Eval(c, g).Err? ==> ExecStmt(If(c, body, orelse), g) == Err(Eval(c, g).error)
    ensures Eval(c, g).Ok? && Truthy(Eval(c, g).value) ==>
      ExecStmt(If(c, body, orelse), g) == ExecBody(body, g)
    ensures Eval(c, g).Ok? && !Truthy(Eval(c, g).value) ==>
      ExecStmt(If(c, body, orelse), g) == ExecBody(orelse, g)
  {
  }

  /** A body of one statement is that statement; an empty body changes nothing. */
  lemma ExecBodyShort(s: Node, g: Globals)
    requires IsStatement(s)
    ensures ExecBody([], g) == Ok(g)
    ensures ExecBody([s], g) == ExecStmt(s, g)
  {
    assert [s][1..] == [];
  }

  /** A statement never removes a name, binds no name outside what it writes, and leaves
      the value of every other name unchanged. */
  lemma {:induction false} ExecFrame(s: Node, g: Globals)
    requires IsStatement(s) && ExecStmt(s, g).Ok?
    ensures g.Keys <= ExecStmt(s, g).value.Keys <= g.Keys + Writes(s)
    ensures forall y | y in g && y !in Writes(s) :: ExecStmt(s, g).value[y] == g[y]
  {
    match s
    case Assign(_, _) =>
    case If(c, body, orelse) =>
      if Truthy(Eval(c, g).value) {
        ExecBodyFrame(body, g);
      } else {
        ExecBodyFrame(orelse, g);
      }
  }

  lemma {:induction false} ExecBodyFrame(ss: seq<Node>, g: Globals)
    requires forall i | 0 <= i < |ss| :: IsStatement(ss[i])
    requires ExecBody(ss, g).Ok?
    ensures g.Keys <= ExecBody(ss, g).value.Keys <= g.Keys + WritesAll(ss)
    ensures forall y | y in g && y !in WritesAll(ss) :: ExecBody(ss, g).value[y] == g[y]
  {
    if ss != [] {
      var h := ExecStmt(ss[0], g).value;
      ExecFrame(ss[0], g);
      ExecBodyFrame(ss[1..], h);
    }
  }

  /** Every name a statement loads or stores. */
  function Names(s: Node): set<string> {
    match s
    case Assign(NameTarget(x), v) => {x} + Reads(v)
    case Assign(SubscriptTarget(b, _), v) => {b} + Reads(v)
    case If(c, body, orelse) => Reads(c) + NamesAll(body) + NamesAll(orelse)
    case _ => Reads(s)
  }

  function NamesAll(ss: seq<Node>): set<string> {
    if ss == [] then {} else Names(ss[0]) + NamesAll(ss[1..])
  }

  /** The outcome of a run with `x` then bound to `v`. */
  function Rebind(r: Result<Globals, RunError>, x: string, v: Value): Result<Globals, RunError> {
    match r
    case Ok(h) => Ok(h[x := v])
    case Err(e) => Err(e)
  }

  /** A name a statement does not mention plays no part in running it: binding it first
      or binding it afterwards gives the same outcome. */
  lemma {:induction false} ExecIgnoresUnnamed(s: Node, g: Globals, x: string, v: Value)
    requires IsStatement(s) && x !in Names(s)
    ensures ExecStmt(s, g[x := v]) == Rebind(ExecStmt(s, g), x, v)
  {
    var gx := g[x := v];
    match s
    case Assign(t, e) =>
      EvalReadsOnly(e, g, gx);
      match t {
        case NameTarget(y) =>
          if Eval(e, g).Ok? {
            assert gx[y := Eval(e, g).value] == g[y := Eval(e, g).value][x := v];
          }
        case SubscriptTarget(b, k) =>
          if Eval(e, g).Ok? && b in g && g[b].DictVal? {
            var d := DictVal(g[b].items[k := Eval(e, g).value]);
            assert gx[b := d] == g[b := d][x := v];
          }
      }
    case If(c, body, orelse) =>
      EvalReadsOnly(c, g, gx);
      if Eval(c, g).Ok? {
        if Truthy(Eval(c, g).value) {
          ExecBodyIgnoresUnnamed(body, g, x, v);
        } else {
          ExecBodyIgnoresUnnamed(orelse, g, x, v);
        }
      }
  }

  lemma {:induction false} ExecBodyIgnoresUnnamed(ss: seq<Node>, g: Globals, x: string, v: Value)
    requires forall i | 0 <= i < |ss| :: IsStatement(ss[i])
    requires x !in NamesAll(ss)
    ensures ExecBody(ss, g[x := v]) == Rebind(ExecBody(ss, g), x, v)
  {
    if ss != [] {
      ExecIgnoresUnnamed(ss[0], g, x, v);
      if ExecStmt(ss[0], g).Ok? {
        ExecBodyIgnoresUnnamed(ss[1..], ExecStmt(ss[0], g).value, x, v);
      }
    }
  }

  /** What a statement writes it also mentions. */
  lemma {:induction false} WritesNamed(s: Node)
    ensures Writes(s) <= Names(s)
  {
    match s
    case If(_, body, orelse) =>
      WritesAllNamed(body);
      WritesAllNamed(orelse);
    case _ =>
  }

  lemma {:induction false} WritesAllNamed(ss: seq<Node>)
    ensures WritesAll(ss) <= NamesAll(ss)
  {
    if ss != [] {
      WritesNamed(ss[0]);
      WritesAllNamed(ss[1..]);
    }
  }
}
