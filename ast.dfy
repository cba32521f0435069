/**
 * The syntax tree: a closed sum type over the five node kinds of the `ast`
 * package (Program, ExpressionStatement, BinaryExpression,
 * NumericLiteralExpression, IdentifierExpression).
 */
module Ast {

  datatype Node =
    | Program(statements: seq<Node>)
    | ExprStmt(expression: Node)
    | Binary(left: Node, operator: char, right: Node)
    | Num(value: nat)
    | Ident(symbol: string)

  predicate IsOperator(c: char) {
    c == '+' || c == '-' || c == '*' || c == '/'
  }

  /** A fully resolved expression tree: binary nodes over the four operators, numbers and identifiers. */
  predicate IsExpr(n: Node) {
    match n
    case Binary(l, op, r) => IsOperator(op) && IsExpr(l) && IsExpr(r)
    case Num(_) => true
    case Ident(_) => true
    case _ => false
  }

  predicate IsStatement(n: Node) {
    n.ExprStmt? && IsExpr(n.expression)
  }

  predicate IsProgram(n: Node) {
    n.Program? && forall k :: 0 <= k < |n.statements| ==> IsStatement(n.statements[k])
  }
}
