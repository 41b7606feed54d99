/**
 * Worked examples of the token stream: a let binding, a parenthesised sum,
 * strings closed and unclosed, an unknown byte, the empty buffer, and the
 * exactness of the keyword match. Each example names its buffer `s` and
 * fixes its bytes in the precondition; the stream follows from the token
 * scanned at each offset by ScanFromUnique.
 */
module LexExamples {
  import opened TokenTypes
  import opened LexSpec
  import opened LexProps

  /** `let x = 12` is LET, then alternating spaces, a name, `=` and the number 12. */
  lemma LetBindingExample(s: seq<Byte>)
    requires s == "let x = 12"
    ensures TokenStream(s) ==
      [ Token(Let, 0, 3), Token(Whitespace, 3, 4), Token(Name, 4, 5), Token(Whitespace, 5, 6)
      , Token(Eq, 6, 7), Token(Whitespace, 7, 8), Token(Number, 8, 10), Token(Eof, 10, 10) ]
  {
    LetBindingLeft(s);
    LetBindingRight(s);
    ScanFromUnique(s, 0,
      [ Token(Let, 0, 3), Token(Whitespace, 3, 4), Token(Name, 4, 5), Token(Whitespace, 5, 6)
      , Token(Eq, 6, 7), Token(Whitespace, 7, 8), Token(Number, 8, 10), Token(Eof, 10, 10) ]);
  }

  /** The tokens of `let x` in `let x = 12`: the keyword, a space and a one-letter name. */
  lemma LetBindingLeft(s: seq<Byte>)
    requires s == "let x = 12"
    ensures ScanToken(s, 0) == Token(Let, 0, 3)
    ensures ScanToken(s, 3) == Token(Whitespace, 3, 4)
    ensures ScanToken(s, 4) == Token(Name, 4, 5)
  {
    assert RunEnd(s, 3, NameChars) == 3;
    assert IsKeyword(s, 0, 3, "let");
    assert RunEnd(s, 5, NameChars) == 5;
    assert !IsKeyword(s, 4, 5, "let");
  }

  /** The tokens of ` = 12` in `let x = 12`: spaces around `=`, then the whole number. */
  lemma LetBindingRight(s: seq<Byte>)
    requires s == "let x = 12"
    ensures ScanToken(s, 5) == Token(Whitespace, 5, 6)
    ensures ScanToken(s, 6) == Token(Eq, 6, 7)
    ensures ScanToken(s, 7) == Token(Whitespace, 7, 8)
    ensures ScanToken(s, 8) == Token(Number, 8, 10)
  {
    assert RunEnd(s, 10, Digits) == 10;
  }

  /** `(a+1)` is a parenthesis, a name, a plus, a number and a parenthesis. */
  lemma ParenthesisedSumExample(s: seq<Byte>)
    requires s == "(a+1)"
    ensures TokenStream(s) ==
      [ Token(LeftParen, 0, 1), Token(Name, 1, 2), Token(Plus, 2, 3), Token(Number, 3, 4)
      , Token(RightParen, 4, 5), Token(Eof, 5, 5) ]
  {
    ParenthesisedSumScans(s);
    ScanFromUnique(s, 0,
      [ Token(LeftParen, 0, 1), Token(Name, 1, 2), Token(Plus, 2, 3), Token(Number, 3, 4)
      , Token(RightParen, 4, 5), Token(Eof, 5, 5) ]);
  }

  /** The token scanned at each offset of `(a+1)`: every one is a single byte wide. */
  lemma ParenthesisedSumScans(s: seq<Byte>)
    requires s == "(a+1)"
    ensures ScanToken(s, 0) == Token(LeftParen, 0, 1)
    ensures ScanToken(s, 1) == Token(Name, 1, 2)
    ensures ScanToken(s, 2) == Token(Plus, 2, 3)
    ensures ScanToken(s, 3) == Token(Number, 3, 4)
    ensures ScanToken(s, 4) == Token(RightParen, 4, 5)
  {
    assert RunEnd(s, 2, NameChars) == 2;
    assert !IsKeyword(s, 1, 2, "let");
    assert RunEnd(s, 4, Digits) == 4;
  }

  /** A closed string is one STRING token from quote to quote. */
  lemma ClosedStringExample(s: seq<Byte>)
    requires s == "\"hi\""
    ensures TokenStream(s) == [Token(String, 0, 4), Token(Eof, 4, 4)]
  {
    var ts := [Token(String, 0, 4), Token(Eof, 4, 4)];
    assert RunEnd(s, 3, NonQuotes) == 3;
    assert RunEnd(s, 1, NonQuotes) == 3;
    assert ScanToken(s, 0) == ts[0];
    ScanFromUnique(s, 0, ts);
  }

  /** An unclosed string is one ERROR token up to the end of the buffer. */
  lemma UnterminatedStringExample(s: seq<Byte>)
    requires s == "\"unterminated"
    ensures TokenStream(s) == [Token(Error, 0, 13), Token(Eof, 13, 13)]
  {
    var ts := [Token(Error, 0, 13), Token(Eof, 13, 13)];
    RunEndUnique(s, 1, 13, NonQuotes);
    assert ScanToken(s, 0) == ts[0];
    ScanFromUnique(s, 0, ts);
  }

  /** A byte of no class, such as `#` or a tab, is a one-byte ERROR token. */
  lemma UnknownByteExample(s: seq<Byte>)
    requires s == "#" || s == "\t"
    ensures TokenStream(s) == [Token(Error, 0, 1), Token(Eof, 1, 1)]
  {
    var ts := [Token(Error, 0, 1), Token(Eof, 1, 1)];
    assert ScanToken(s, 0) == ts[0];
    ScanFromUnique(s, 0, ts);
  }

  /** The empty buffer is the EOF token alone. */
  lemma EmptyBufferExample(s: seq<Byte>)
    requires s == []
    ensures TokenStream(s) == [Token(Eof, 0, 0)]
  {
  }

  /** `let` alone is the keyword. */
  lemma KeywordExample(s: seq<Byte>)
    requires s == "let"
    ensures TokenStream(s) == [Token(Let, 0, 3), Token(Eof, 3, 3)]
  {
    var ts := [Token(Let, 0, 3), Token(Eof, 3, 3)];
    assert RunEnd(s, 3, NameChars) == 3;
    assert RunEnd(s, 1, NameChars) == 3;
    assert IsKeyword(s, 0, 3, "let");
    assert ScanToken(s, 0) == ts[0];
    ScanFromUnique(s, 0, ts);
  }

  /** `lett`, `Let` and `_let` only resemble the keyword: each is one NAME token. */
  lemma NearKeywordExample(s: seq<Byte>)
    requires s == "lett" || s == "Let" || s == "_let"
    ensures TokenStream(s) == [Token(Name, 0, |s|), Token(Eof, |s|, |s|)]
  {
    var ts := [Token(Name, 0, |s|), Token(Eof, |s|, |s|)];
    assert RunEnd(s, |s|, NameChars) == |s|;
    assert RunEnd(s, 1, NameChars) == |s|;
    assert s[0] != 'l' || |s| != 3;
    assert !IsKeyword(s, 0, |s|, "let");
    assert ScanToken(s, 0) == ts[0];
    ScanFromUnique(s, 0, ts);
  }
}
