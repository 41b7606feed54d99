/**
 * The data model of the lexer (lexer.h): the source buffer's bytes, the
 * closed set of token kinds, and tokens as half-open spans of the buffer.
 */
module TokenTypes {

  /** One byte of the source buffer (a C `char`); classification uses ASCII codes. */
  type Byte = c: char | c as int < 256

  datatype Option<T> = None | Some(value: T)

  /** The closed token-kind enumeration, in the order lexer.h declares it. */
  datatype TokenType =
    | Let | Whitespace | Error | Eof | Plus | Minus | Eq | Star | Slash | Dot | Mod
    | Name | Number | Line | String | LeftParen | RightParen | Semicolon

  /**
   * A classified token: the half-open byte range [start, end) of the buffer.
   * A token never owns text; its lexeme is read back from the buffer.
   */
  datatype Token = Token(kind: TokenType, start: nat, end: nat)
}
