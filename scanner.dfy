/**
 * The imperative scanner of lexer.c: a Lexer object whose cursor `pos`
 * advances over the buffer, whose `start` marks the beginning of the token
 * being scanned, and whose `tokens` grow by appending. Tokenize is proved
 * to produce exactly LexSpec.TokenStream of its input.
 */
module Scanner {
  import opened TokenTypes
  import opened LexSpec
  import opened LexProps

  class Lexer {
    const source: seq<Byte>
    var start: nat
    var pos: nat
    var tokens: seq<Token>

    ghost predicate Valid()
      reads this
    {
      start <= pos <= |source|
    }

    /** A fresh lexer over `input`, with the cursor at the beginning. */
    constructor (input: seq<Byte>)
      ensures source == input && start == 0 && pos == 0 && tokens == []
      ensures Valid()
    {
      source := input;
      start := 0;
      pos := 0;
      tokens := [];
    }

    /** The byte under the cursor, or NUL once the cursor is at the end. */
    function Peek(): (c: Byte)
      reads this
      requires pos <= |source|
      ensures pos < |source| ==> c == source[pos]
      ensures pos == |source| ==> c == '\0'
    {
      if pos < |source| then source[pos] else '\0'
    }

    /** Consumes the byte under the cursor and returns it. */
    method Next() returns (c: Byte)
      requires pos < |source|
      modifies this`pos
      ensures pos == old(pos) + 1
      ensures c == source[old(pos)]
    {
      c := Peek();
      pos := pos + 1;
    }

    /** Appends the token spanning [start, pos) with the given kind. */
    method AddToken(kind: TokenType)
      modifies this`tokens
      ensures tokens == old(tokens) + [Token(kind, start, pos)]
    {
      tokens := tokens + [Token(kind, start, pos)];
    }

    /** Extends a name over letters, digits and underscores; `let` becomes LET. */
    method ReadName()
      requires Valid()
      modifies this`pos, this`tokens
      ensures Valid()
      ensures pos == RunEnd(source, old(pos), NameChars)
      ensures tokens == old(tokens) +
        [Token(if IsKeyword(source, start, pos, "let") then Let else Name, start, pos)]
    {
      while IsName(Peek()) || IsDigit(Peek())
        invariant old(pos) <= pos <= |source| && tokens == old(tokens)
        invariant RunEnd(source, pos, NameChars) == RunEnd(source, old(pos), NameChars)
        decreases |source| - pos
      {
        var _ := Next();
      }
      var kind := Name;
      if IsKeyword(source, start, pos, "let") {
        kind := Let;
      }
      AddToken(kind);
    }

    /** Extends a number over the digits that follow. */
    method ReadNum()
      requires Valid()
      modifies this`pos, this`tokens
      ensures Valid()
      ensures pos == RunEnd(source, old(pos), Digits)
      ensures tokens == old(tokens) + [Token(Number, start, pos)]
    {
      while IsDigit(Peek())
        invariant old(pos) <= pos <= |source| && tokens == old(tokens)
        invariant RunEnd(source, pos, Digits) == RunEnd(source, old(pos), Digits)
        decreases |source| - pos
      {
        var _ := Next();
      }
      AddToken(Number);
    }

    /**
     * Consumes bytes up to and including the next quote. If the buffer ends
     * first, the run up to the end becomes an ERROR token.
     */
    method ReadString()
      requires Valid()
      modifies this`pos, this`tokens
      ensures Valid()
      ensures var q := RunEnd(source, old(pos), NonQuotes);
        && pos == (if q < |source| then q + 1 else |source|)
        && tokens == old(tokens) + [Token(if q < |source| then String else Error, start, pos)]
    {
      var closed := false;
      while !closed && pos < |source|
        invariant old(pos) <= pos <= |source| && tokens == old(tokens)
        invariant !closed ==> RunEnd(source, pos, NonQuotes) == RunEnd(source, old(pos), NonQuotes)
        invariant closed ==> pos == RunEnd(source, old(pos), NonQuotes) + 1
        decreases |source| - pos, if closed then 0 else 1
      {
        var c := Next();
        closed := c == '"';
      }
      AddToken(if closed then String else Error);
    }

    /** Extends a whitespace token over the spaces that follow. */
    method ReadWhitespace()
      requires Valid()
      modifies this`pos, this`tokens
      ensures Valid()
      ensures pos == RunEnd(source, old(pos), Spaces)
      ensures tokens == old(tokens) + [Token(Whitespace, start, pos)]
    {
      while Peek() == ' '
        invariant old(pos) <= pos <= |source| && tokens == old(tokens)
        invariant RunEnd(source, pos, Spaces) == RunEnd(source, old(pos), Spaces)
        decreases |source| - pos
      {
        var _ := Next();
      }
      AddToken(Whitespace);
    }

    /**
     * One iteration of the scanning loop: marks the token start, consumes a
     * byte and dispatches on it. The token appended is the one the
     * specification scans at the old cursor.
     */
    method ScanNext()
      requires Valid() && pos < |source|
      modifies this`start, this`pos, this`tokens
      ensures Valid()
      ensures start == old(pos)
      ensures pos == ScanToken(source, old(pos)).end
      ensures tokens == old(tokens) + [ScanToken(source, old(pos))]
    {
      start := pos;
      var c := Next();
      match c {
      case '(' => AddToken(LeftParen);
      case ')' => AddToken(RightParen);
      case '%' => AddToken(Mod);
      case '.' => AddToken(Dot);
      case '/' => AddToken(Slash);
      case '*' => AddToken(Star);
      case '=' => AddToken(Eq);
      case '-' => AddToken(Minus);
      case '+' => AddToken(Plus);
      case ' ' => ReadWhitespace();
      case '"' => ReadString();
      case '\n' => AddToken(Line);
      case _ =>
        if IsName(c) {
          ReadName();
        } else if IsDigit(c) {
          ReadNum();
        } else {
          AddToken(Error);
        }
      }
    }
  }

  /**
   * Scans the whole buffer once, left to right, and returns its tokens,
   * ending with a zero-width EOF token at the buffer's length.
   */
  method Tokenize(input: seq<Byte>) returns (tokens: seq<Token>)
    ensures tokens == TokenStream(input)
  {
    var l := new Lexer(input);
    while l.pos < |l.source|
      invariant l.source == input && l.Valid()
      invariant l.tokens + TokensFrom(input, l.pos) == TokenStream(input)
      decreases |input| - l.pos
    {
      ghost var done, p := l.tokens, l.pos;
      l.ScanNext();
      ScanStep(input, done, p);
    }
    ScanDone(input, l.tokens);
    l.start := l.pos;
    l.AddToken(Eof);
    tokens := l.tokens;
  }
}
