/** The abstract syntax of Structured Text. */
module StAst {
  import opened Machine

  datatype StLiteral = BoolLit(b: bool) | IntLit(i: i64) | FloatLit(f: real) | StringLit(s: string)

  datatype BinaryOp =
    | Add | Sub | Mul | Div | Mod
    | Equal | NotEqual | LessThan | GreaterThan | LessOrEqual | GreaterOrEqual
    | And | Or | Xor

  datatype UnaryOp = Not | Negate

  datatype StExpr =
    | Literal(lit: StLiteral)
    | Variable(name: string)
    | Unary(uop: UnaryOp, expr: StExpr)
    | Binary(op: BinaryOp, left: StExpr, right: StExpr)

  datatype ElsifBranch = ElsifBranch(cond: StExpr, body: seq<StStatement>)

  /** An absent ELSE is not the same as an ELSE with no statements. */
  datatype ElsePart = NoElse | Else(body: seq<StStatement>)

  datatype FbInput = FbInput(param: string, expr: StExpr)

  datatype StStatement =
    | Assignment(variable: string, value: StExpr)
    | If(condition: StExpr, thenBody: seq<StStatement>, elsifs: seq<ElsifBranch>, elsePart: ElsePart)
    | While(whileCond: StExpr, whileBody: seq<StStatement>)
    | Repeat(repeatBody: seq<StStatement>, untilCond: StExpr)
    | For(loopVar: string, start: StExpr, end: StExpr, step: Option<StExpr>, forBody: seq<StStatement>)
    | FbCall(name: string, inputs: seq<FbInput>)
}
