/**
 * The syntax tree the evaluator walks. The parser that builds it is not part of
 * this model, so the tree is taken as given: every node kind the evaluator
 * dispatches on, plus string literals (produced by the lexer's STRING_LITERAL
 * tokens), which the evaluator has no case for.
 */
module Ast {
  import opened Numbers

  datatype Option<T> = None | Some(value: T)

  datatype Node =
    | Program(statements: seq<Node>)
      // `let`, `int` and `float` declarations: three node kinds, one meaning
    | LetStatement(name: string, value: Node)
    | IntStatement(name: string, value: Node)
    | FloatStatement(name: string, value: Node)
    | ExpressionStatement(expression: Node)
    | ReturnStatement(returnValue: Node)
    | BlockStatement(statements: seq<Node>)
    | IfExpression(condition: Node, consequence: Node, alternative: Option<Node>)
    | FunctionLiteral(parameters: seq<string>, body: Node)
    | CallExpression(callee: Node, arguments: seq<Node>)
    | Identifier(name: string)
    | IntegerLiteral(intValue: Int64)
    | FloatLiteral(floatValue: Float64)
    | BooleanLiteral(boolValue: bool)
    | StringLiteral(strValue: string)
    | PrefixExpression(operator: string, right: Node)
    | InfixExpression(left: Node, operator: string, right: Node)
  {
    predicate IsDeclaration() { LetStatement? || IntStatement? || FloatStatement? }
  }
}
