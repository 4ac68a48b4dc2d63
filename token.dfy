/** The token kinds of the interpreter's lexer. */
module Token {

  /** A token's kind. */
  datatype Type =
    | EOF
    | Illegal
    | Decimal
    | Hexadecimal
    | String
    | Ident
    | LineTerminator
    | Dot
    | Comma
    | LParen
    | RParen
    | Plus
    | Minus
}
