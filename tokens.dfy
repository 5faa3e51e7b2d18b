/** The values the Lox scanner produces: token kinds, literal values, tokens
    and the (line, message) reports it hands to the interpreter's error sink. */
module Tokens {

  /** The closed set of token kinds a Lox scanner can emit. */
  datatype TokenType =
    // single-character tokens
    | LeftParen | RightParen | LeftBrace | RightBrace
    | Comma | Dot | Minus | Plus | Semicolon | Slash | Star
    // one- or two-character tokens
    | Bang | BangEqual | Equal | EqualEqual
    | Greater | GreaterEqual | Less | LessEqual
    // literals
    | Identifier | String | Number
    // keywords
    | And | Class | Else | False | Fun | For | If | Nil | Or
    | Print | Return | Super | This | True | Var | While
    // end of input
    | Eof

  /** The decoded value a token carries. A number literal is kept exactly, as
      the decimal mantissa / 10^scale, rather than as a rounded double. */
  datatype Literal =
    | NoValue
    | NumberValue(mantissa: nat, scale: nat)
    | StringValue(text: string)

  /** One token: its kind, the exact source text, its literal and the line
      the scanner was on when it emitted the token. */
  datatype Token = Token(kind: TokenType, lexeme: string, literal: Literal, line: int)

  /** A lexical error handed to the interpreter: (line, message). */
  type Report = (int, string)

  datatype Option<T> = None | Some(value: T)

  /** The zero- or one-element sequence holding the value of o. */
  function Elements<T>(o: Option<T>): seq<T>
  {
    match o
    case None => []
    case Some(v) => [v]
  }
}
