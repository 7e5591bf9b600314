/** Tokens and expressions of the restricted expression language (packages/model-option-map/src). */
module CelTokens {
  import opened Texts

  datatype Kind = Identifier | Str | Number | Operator | Punctuation | Eof

  datatype Token = Token(kind: Kind, value: Text, offset: nat, end: nat)

  datatype ErrorKind =
    | UnsupportedToken
    | InvalidNumber
    | UnterminatedString
    | UnterminatedEscape
    | InvalidUnicodeEscape
    | UnsupportedEscape
    | MemberAccess
    | FunctionCall
    | UnexpectedToken
    | Expected(value: Text)
    | UnknownIdentifier
    | NumberNotSafe
    | KeyNotString
    | DuplicateKey

  datatype CelError = CelError(kind: ErrorKind, offset: nat)

  /** Expressions without their offsets; a number literal is kept as its source text. */
  datatype Expr =
    | NullLiteral
    | BoolLiteral(flag: bool)
    | NumberLiteral(number: Text)
    | StringLiteral(text: Text)
    | Input
    | ArrayLiteral(elements: seq<Expr>)
    | ObjectLiteral(entries: seq<Entry>)
    | Unary(operator: Text, operand: Expr)
    | Binary(operator: Text, left: Expr, right: Expr)
    | Conditional(condition: Expr, whenTrue: Expr, whenFalse: Expr)

  datatype Entry = Entry(key: Text, value: Expr)

  const NOT: Text := [33]
  const PERCENT: Text := [37]
  const AND: Text := [38, 38]
  const LPAREN: Text := [40]
  const RPAREN: Text := [41]
  const TIMES: Text := [42]
  const PLUS: Text := [43]
  const COMMA: Text := [44]
  const MINUS: Text := [45]
  const DOT: Text := [46]
  const SLASH: Text := [47]
  const COLON: Text := [58]
  const LESS: Text := [60]
  const LESS_EQUAL: Text := [60, 61]
  const EQUAL: Text := [61, 61]
  const NOT_EQUAL: Text := [33, 61]
  const GREATER: Text := [62]
  const GREATER_EQUAL: Text := [62, 61]
  const QUESTION: Text := [63]
  const LBRACKET: Text := [91]
  const RBRACKET: Text := [93]
  const LBRACE: Text := [123]
  const OR: Text := [124, 124]
  const RBRACE: Text := [125]
  const TRUE: Text := [116, 114, 117, 101]
  const FALSE: Text := [102, 97, 108, 115, 101]
  const NULL: Text := [110, 117, 108, 108]

  /** The operators each binary level of the grammar accepts, loosest first. */
  function Operators(level: nat): set<Text> {
    match level
    case 1 => {OR}
    case 2 => {AND}
    case 3 => {EQUAL, NOT_EQUAL}
    case 4 => {LESS, LESS_EQUAL, GREATER, GREATER_EQUAL}
    case 5 => {PLUS, MINUS}
    case 6 => {TIMES, SLASH, PERCENT}
    case _ => {}
  }

  /** The level an operator binds at, 0 for none. */
  function LevelOf(value: Text): (level: nat)
    ensures level <= 6
  {
    if value in Operators(1) then 1
    else if value in Operators(2) then 2
    else if value in Operators(3) then 3
    else if value in Operators(4) then 4
    else if value in Operators(5) then 5
    else if value in Operators(6) then 6
    else 0
  }

  predicate IsUnary(value: Text) {
    value == NOT || value == MINUS || value == PLUS
  }

  lemma LevelsDisjoint(value: Text, level: nat)
    requires 1 <= level <= 6
    ensures value in Operators(level) <==> LevelOf(value) == level
  {
    assert OR[0] == 124 && AND[0] == 38 && EQUAL[0] == 61 && NOT_EQUAL[0] == 33 && LESS[0] == 60;
    assert LESS_EQUAL[0] == 60 && GREATER[0] == 62 && GREATER_EQUAL[0] == 62 && PLUS[0] == 43 && MINUS[0] == 45;
    assert TIMES[0] == 42 && SLASH[0] == 47 && PERCENT[0] == 37;
  }
}
