/** The abstract syntax tree the parser produces and the evaluator walks. */
module Ast {
  import opened Utf16
  import Token
  import Types

  /** AST nodes. A number literal keeps only its value (the integer/real flavour of
      the original only affects display). */
  datatype Node =
    | Program(nodes: seq<Node>)
    | NumberLit(value: Types.Number)
    | StringLit(str: Str)
    | BoolLit(boolean: bool)
    | NullLit
    | UndefinedLit
    | Ident(name: Str)
    | UnaryExpr(operator: Token.Type, operand: Node)
    | MemberExpr(obj: Node, property: Str)
    | CallExpr(callee: Node, args: seq<Node>)
    | VarDecl(name: Str, init: Node)
    | VarDecls(decls: seq<Node>)
    | FunDecl(name: Str, params: seq<Str>, body: Node)
  {
    /** The expression nodes: literals, identifiers, unary, member and call expressions. */
    predicate IsExpr() {
      NumberLit? || StringLit? || BoolLit? || NullLit? || UndefinedLit? ||
      Ident? || UnaryExpr? || MemberExpr? || CallExpr?
    }
  }

  /** A Program node, the only kind of root the parser returns. */
  type ProgramNode = n: Node | n.Program? witness Program([])
}
