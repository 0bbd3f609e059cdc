/** The tokens of Structured Text, and how they stand for operators and literals. */
module StTokens {
  import opened Machine
  import opened StAst

  datatype Token =
    // keywords
    | KwIf | KwThen | KwElsif | KwElse | KwEndIf
    | KwWhile | KwDo | KwEndWhile
    | KwRepeat | KwUntil | KwEndRepeat
    | KwFor | KwTo | KwBy | KwEndFor
    | KwTrue | KwFalse | KwAnd | KwOr | KwNot | KwXor | KwMod
    // identifiers and literals
    | Identifier(id: string)
    | IntLiteral(i: i64)
    | FloatLiteral(f: real)
    | StringLiteral(s: string)
    // symbols
    | Assign | Equals | NotEquals | Less | Greater | LessEq | GreaterEq
    | Plus | Minus | Star | Slash
    | Semicolon | Colon | Comma | LeftParen | RightParen | OutputAssign

  /** Binding strength of the binary operators; OR and XOR share the weakest level. */
  function LevelOf(op: BinaryOp): (lvl: nat)
    ensures lvl <= 4
  {
    match op
    case Or => 0
    case Xor => 0
    case And => 1
    case Equal => 2
    case NotEqual => 2
    case LessThan => 2
    case GreaterThan => 2
    case LessOrEqual => 2
    case GreaterOrEqual => 2
    case Add => 3
    case Sub => 3
    case Mul => 4
    case Div => 4
    case Mod => 4
  }

  function OperatorToken(op: BinaryOp): Token {
    match op
    case Or => KwOr
    case Xor => KwXor
    case And => KwAnd
    case Equal => Equals
    case NotEqual => NotEquals
    case LessThan => Less
    case GreaterThan => Greater
    case LessOrEqual => LessEq
    case GreaterOrEqual => GreaterEq
    case Add => Plus
    case Sub => Minus
    case Mul => Star
    case Div => Slash
    case Mod => KwMod
  }

  /** The binary operator a token stands for. */
  function OperatorOf(t: Token): (op: Option<BinaryOp>)
    ensures op.Some? ==> OperatorToken(op.value) == t
    ensures op.None? ==> forall o :: OperatorToken(o) != t
  {
    match t
    case KwOr => Some(Or)
    case KwXor => Some(Xor)
    case KwAnd => Some(And)
    case Equals => Some(Equal)
    case NotEquals => Some(NotEqual)
    case Less => Some(LessThan)
    case Greater => Some(GreaterThan)
    case LessEq => Some(LessOrEqual)
    case GreaterEq => Some(GreaterOrEqual)
    case Plus => Some(Add)
    case Minus => Some(Sub)
    case Star => Some(Mul)
    case Slash => Some(Div)
    case KwMod => Some(BinaryOp.Mod)
    case _ => None
  }

  function UnaryToken(op: UnaryOp): Token {
    match op
    case Not => KwNot
    case Negate => Minus
  }

  function LiteralToken(lit: StLiteral): Token {
    match lit
    case BoolLit(b) => if b then KwTrue else KwFalse
    case IntLit(i) => IntLiteral(i)
    case FloatLit(f) => FloatLiteral(f)
    case StringLit(s) => StringLiteral(s)
  }
}
