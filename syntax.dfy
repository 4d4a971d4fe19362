/** The tree parser.py builds: the subset of Python's `ast` nodes its grammar actions
    construct, without line and column fields. Statements and expressions share one type,
    as they do in what the parser returns; which node may stand where is decided later,
    when the module is compiled (see `Interp.IsStatement`). */
module Syntax {

  /** The six binary operators of the grammar. `Add` and `Sub` build `ast.BinOp`, `Gt` and
      `Eq` a one-operator `ast.Compare`, `And` and `Or` a two-value `ast.BoolOp`. */
  datatype Operator = Add | Sub | Gt | Eq | And | Or

  /** What an `ast.Assign` stores to: a name, or a name subscripted by a string key. */
  datatype Target =
    | NameTarget(id: string)
    | SubscriptTarget(base: string, key: string)

  datatype Node =
    | Num(n: nat)                                   // ast.Num
    | NameConstant(b: bool)                         // ast.NameConstant True / False
    | Str(s: string)                                // ast.Str
    | Name(id: string)                              // ast.Name, load
    | Subscript(base: string, key: string)          // ast.Subscript of a Name by an ast.Str, load
    | Binary(left: Node, op: Operator, right: Node) // ast.BinOp, ast.Compare, ast.BoolOp
    | Assign(target: Target, value: Node)           // ast.Assign with one target
    | If(test: Node, body: seq<Node>, orelse: seq<Node>) // ast.If

  /** `ast.Module`: the statements `transform` puts in the body. */
  datatype Module = Module(body: seq<Node>)

  /** The shape every `if` built by the grammar has: one statement in the body and at
      most one in the else list. */
  predicate IfShaped(n: Node) {
    match n
    case Binary(l, _, r) => IfShaped(l) && IfShaped(r)
    case Assign(_, v) => IfShaped(v)
    case If(t, b, o) =>
      IfShaped(t) && |b| == 1 && IfShaped(b[0]) && |o| <= 1 && (|o| == 1 ==> IfShaped(o[0]))
    case _ => true
  }
}
