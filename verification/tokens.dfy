/** Token kinds and tokens (rlok_lib/src/tokens.rs), plus the `NewLine` kind that
    span.rs matches on but tokens.rs does not declare. */
module Tokens {
  import opened Wrappers

  datatype TokenType =
    // single-character tokens
    | LeftParen | RightParen | LeftBrace | RightBrace
    | Comma | Dot | Minus | Plus | Semicolon | Slash | Star
    // one- or two-character tokens
    | Bang | BangEqual | Equal | EqualEqual
    | Greater | GreaterEqual | Less | LessEqual
    // literals
    | Ident | StringLit | NumberLit
    // keywords
    | AND | CLASS | ELSE | FALSE | FUN | FOR | IF | NIL | OR
    | PRINT | RETURN | SUPER | THIS | TRUE | VAR | WHILE
    | EOF
    | NewLine

  /** A token: its kind, the source text it was read from, the literal text of a
      number or string, and the 1-based line it was recorded on. */
  datatype Token = Token(ty: TokenType, lexeme: string, literal: Option<string>, line: int)
}
