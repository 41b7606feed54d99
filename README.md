# Lexer model

This project models the lexer in `lexer.c`, with the types it declares in
`lexer.h`. The lexer scans a fixed-length byte buffer once, left to right.
It turns the buffer into an ordered list of classified tokens:
- the operators `+ - = * / . %` and the parentheses
- newline
- runs of spaces
- names, and the keyword `let`
- runs of digits
- quoted strings
- one-byte errors

The list ends with a zero-width EOF token. A token owns no text: it is a
half-open span `[start, end)` of the buffer.

The project has six modules:
- `TokenTypes` (`tokens.dfy`): the data model of `lexer.h`, namely the byte, the
  token kinds and the token span.
- `LexSpec` (`lex_spec.dfy`): the lexer as pure functions.
  - `ScanToken` is the token that starts at a given offset. It is the dispatch
    of the main loop, with each run extended greedily.
  - `TokensFrom` and `TokenStream` are the whole output of one call.
- `Scanner` (`scanner.dfy`): the imperative lexer.
  - A `Lexer` class holds the fields `source`, `start`, `pos` and `tokens`. Its
    methods mirror `peek`, `next`, `addToken` and the `read*` helpers.
  - `Tokenize` is the main loop. It is proved to return exactly
    `TokenStream` of its input.
- `LexProps` (`lex_props.dfy`): what the stream promises. Each byte class gives
  the token it should. The stream is contiguous, begins at 0, ends with EOF at
  the buffer's length and covers the buffer. Its lexemes concatenate back to the
  buffer. Neighbouring tokens never split a run.
- `LexExamples` (`lex_examples.dfy`): worked inputs and their exact streams.
- `LexFindings` (`lex_findings.dfy`): the loop condition as written, which stops
  at a NUL byte (see Findings).

`lexer.c` does not compile as written. The model follows the evident intent
at each of these points:
- The `Lexer *l` of `tokenize` is never initialised (lexer.c:53). The model
  creates a fresh lexer for each call.
- `readNumber(c)` is called (lexer.c:87), but `readNum(l)` is defined
  (lexer.c:114). The model scans a digit run.
- `isName(l)` is given the lexer (lexer.c:105). The model reads it as the test
  of the byte under the cursor.
- `emitToken` and `lexer.start` (lexer.c:91, 97-98) are undefined. The model
  reads them as `addToken` and `l->start`.
- `readString` has no end-of-buffer check (lexer.c:123) and so runs past the
  buffer when the closing quote is missing. The model bounds the scan by the
  buffer's length. An unterminated string becomes one ERROR token from the
  quote to the end of the buffer.
- The main loop stops at a NUL byte (lexer.c:60) rather than at the buffer's
  `size` (lexer.h:13). The model bounds it by the length (see Findings).
- `peek` at the end of the buffer returns NUL in the model, which is the
  sentinel the C loops rely on. No loop of the model reads past the end.

## Model

| member | source | states |
|---|---|---|
| LexSpec.IsName | lexer.c:135-138 | an ASCII letter or underscore; every such byte is 7-bit and none is a space or a quote, so the dispatch's cases for those bytes never claim it; its meaning in the stream is stated by LexProps.NameToken |
| LexSpec.IsDigit | lexer.c:140-143 | an ASCII decimal digit, with a digit value from 0 to 9; every such byte is 7-bit, not a space or quote, and never a byte that starts a name, so the dispatch tests the name class and the digit class in either order; its meaning in the stream is stated by LexProps.NumberToken |
| LexSpec.SingleByteKind | lexer.c:67-78 | the switch table: a byte that forms a token on its own gets an operator, parenthesis or LINE kind, and no such byte is a space, a quote, a name byte or a digit, so those switch cases never overlap the default branch |
| LexSpec.Unrecognized | lexer.c:89-92 | the default branch's error case: every byte from 0x80 up, and NUL, tab, carriage return, `;` and `#`, fall into it; LexProps.ErrorToken states that each such byte is a one-byte ERROR token |
| LexSpec.RunEnd | lexer.c:128-133 | a greedy scan over one byte class from offset i stops at the end of the maximal run: every byte before the stop is in the class, and the byte at the stop, if any, is not |
| LexSpec.IsKeyword | lexer.c:145-150 | the lexeme `s[start..pos]` equals the keyword exactly, in length and in every byte |
| LexSpec.ScanToken | lexer.c:62-94 | the token that starts at p begins at p, is at least one byte wide, stays inside the buffer, and is never EOF or SEMICOLON |
| LexSpec.TokensFrom | lexer.c:60-98 | the tokens of `s[p..]` are never empty, begin at p and end with a zero-width EOF at the buffer's length |
| LexSpec.TokenStream | lexer.c:51-101 | the stream of a whole buffer begins at offset 0 and ends with a zero-width EOF at the buffer's length |
| LexSpec.Text | lexer.c:31-37 | a token's lexeme has the token's width and holds the buffer's bytes of its span, in order |
| Scanner.Lexer.constructor | lexer.c:53-58 | a fresh lexer over the input has both cursors at 0 and no tokens |
| Scanner.Lexer.Peek | lexer.c:159-162 | the byte under the cursor, or NUL once the cursor is at the end of the buffer |
| Scanner.Lexer.Next | lexer.c:152-157 | returns the byte under the cursor and advances the cursor by one |
| Scanner.Lexer.AddToken | lexer.c:164-181 | appends one token of the given kind spanning `[start, pos)` and changes nothing else |
| Scanner.Lexer.ReadName | lexer.c:103-112 | moves the cursor to the end of the maximal run of letters, digits and underscores, then appends LET when the lexeme is exactly `let`, otherwise NAME |
| Scanner.Lexer.ReadNum | lexer.c:114-119 | moves the cursor to the end of the maximal digit run and appends a NUMBER token |
| Scanner.Lexer.ReadString | lexer.c:121-126 | moves the cursor past the next quote and appends STRING; with no closing quote, moves it to the end of the buffer and appends ERROR |
| Scanner.Lexer.ReadWhitespace | lexer.c:128-133 | moves the cursor to the end of the maximal run of spaces and appends a WHITESPACE token |
| Scanner.Lexer.ScanNext | lexer.c:62-94 | one loop iteration: sets `start` to the old cursor, consumes a byte, dispatches on it, and appends exactly the token that `ScanToken` specifies at the old cursor |
| Scanner.Tokenize | lexer.c:51-101 | the imperative scan terminates and returns exactly `TokenStream` of its input |
| LexProps.ScanStep | lexer.c:60-95 | one iteration keeps "tokens so far, then the tokens of the rest" equal to the whole stream |
| LexProps.ScanDone | lexer.c:97-98 | once the cursor is at the end, the final EOF token completes the stream |
| LexProps.RunEndUnique | lexer.c:128-133 | the end of the maximal run is unique: an end is maximal if and only if it is where the greedy scan stops |
| LexProps.SingleByteToken | lexer.c:67-78 | each of `( ) % . / * = - +` and newline is one token one byte wide of its own kind, and only those bytes give those kinds |
| LexProps.WhitespaceToken | lexer.c:128-133 | a WHITESPACE token starts exactly at a space and covers the maximal run of spaces |
| LexProps.NameToken | lexer.c:103-112 | NAME or LET tokens start exactly at a letter or underscore and cover the maximal run of letters, digits and underscores; the kind is LET if and only if the lexeme is `let` |
| LexProps.NumberToken | lexer.c:114-119 | a NUMBER token starts exactly at a digit and covers the maximal digit run |
| LexProps.StringToken | lexer.c:121-126 | a STRING token runs from a quote to the next quote with no quote inside; a quote with no closing quote gives one ERROR token up to the end of the buffer |
| LexProps.ErrorToken | lexer.c:89-92 | an unrecognised byte is one ERROR token one byte wide, and an ERROR token starts only at such a byte or at an unclosed quote |
| LexProps.TokensFromStructure | lexer.c:60-95 | every token of `s[p..]` lies in the buffer from p on, and the tokens are a scan from p (`IsScanFrom`): every token but the last starts inside the buffer, is the token scanned there and ends where the next begins, and the last is EOF at the buffer's length |
| LexProps.ScanFromUnique | lexer.c:60-98 | a token sequence is the stream of `s[p..]` if and only if it is a contiguous chain of scanned tokens from p that ends with EOF at the buffer's length |
| LexProps.TokensFromRoundTrip | lexer.c:62-66 | the lexemes of the tokens of `s[p..]` concatenate back to `s[p..]` |
| LexProps.TokenStreamShape | lexer.c:51-101 | the stream starts at 0, is contiguous, has no empty token and no EOF before the last token, ends with a zero-width EOF at the buffer's length, and its lexemes concatenate back to the buffer |
| LexProps.NoAdjacentRuns | lexer.c:103-133 | maximal munch: WHITESPACE is never followed by WHITESPACE, NUMBER never by NUMBER, and a name never by a name or a number |
| LexExamples.LetBindingExample | lexer.c:51-101 | `let x = 12` gives LET, WHITESPACE, NAME, WHITESPACE, EQ, WHITESPACE, NUMBER and EOF with their spans |
| LexExamples.LetBindingLeft | lexer.c:103-112 | in `let x = 12`, the tokens at 0, 3 and 4 are LET `let`, one space and NAME `x` |
| LexExamples.LetBindingRight | lexer.c:114-119 | in `let x = 12`, the tokens at 5 to 8 are a space, `=`, a space and NUMBER `12` |
| LexExamples.ParenthesisedSumExample | lexer.c:62-94 | `(a+1)` gives LEFT_PAREN, NAME, PLUS, NUMBER, RIGHT_PAREN and EOF |
| LexExamples.ParenthesisedSumScans | lexer.c:65-94 | in `(a+1)`, the token scanned at each offset is one byte wide: a parenthesis, NAME `a`, `+`, NUMBER `1` and a parenthesis |
| LexExamples.ClosedStringExample | lexer.c:121-126 | a quoted `hi` is one STRING token including both quotes |
| LexExamples.UnterminatedStringExample | lexer.c:121-126 | an unclosed string is one ERROR token up to the end of the buffer, then EOF |
| LexExamples.UnknownByteExample | lexer.c:89-92 | `#` or a tab alone is one ERROR token one byte wide, then EOF |
| LexExamples.EmptyBufferExample | lexer.c:60-98 | the empty buffer gives the EOF token alone |
| LexExamples.KeywordExample | lexer.c:145-150 | `let` alone is one LET token |
| LexExamples.NearKeywordExample | lexer.c:145-150 | `lett`, `Let` and `_let` are each one NAME token |
| LexFindings.NulStopTokensFrom | lexer.c:60 | the loop as written ends with a zero-width EOF token that sits at the end of the buffer or at a NUL byte |
| LexFindings.NulStopFirstNul | lexer.c:60 | the loop as written stops at the first NUL where a token would start: every token before its EOF starts inside the buffer at a byte that is not NUL |
| LexFindings.NulStopAgreesWithoutNul | lexer.c:60 | without a NUL byte in the rest of the buffer, the loop as written produces the same tokens as the model |
| LexFindings.NulStopLosesInput | lexer.c:60 | for `a`, NUL, `b`, the loop as written stops after `a` with EOF at offset 1, while the bounded loop gives NAME, ERROR, NAME and EOF at offset 3 |

## Left out

- `newBuffer` and `freeBuffer` (lexer.c:3-16) are allocation plumbing. The buffer is an immutable sequence of bytes whose length is its `size`.
- `printToken` (lexer.c:31-37) writes to the console. Only the slice it walks is modelled, as `LexSpec.Text`.
- The doubly-linked token list is replaced by a sequence that grows by appending. This covers the `previous`/`next` fields, the head/tail splicing in `addToken` (lexer.c:168-180) and `unlinkToken` (lexer.c:39-48). `tokenize` never unlinks.
- Allocation failure in `newToken` (lexer.c:21) is outside the model, because memory is unbounded here.
- The `lineNum` field (lexer.h:43) is never set by lexer.c, so tokens carry no line number.
- `TOKEN_SEMICOLON` (lexer.h:35) is in the kind enumeration, but no byte produces it. `LexSpec.ScanToken` states that it never appears.
- Token offsets are `int` in the source (lexer.h:41-42). They are unbounded naturals here, so buffers longer than `INT_MAX` bytes are not modelled.
- Scanner.Lexer.ReadString: does not model reading past the end of the buffer when the closing quote is missing. As written that reading is unbounded; the model stops at the end and emits ERROR.

## Findings

| source | as written | input that shows it | evidently intended | confidence | as-written member | corrected member |
|---|---|---|---|---|---|---|
| lexer.c:60 | the main loop runs while the byte under the cursor is not NUL, although the buffer carries its `size` | the three bytes `a`, NUL, `b`: the scan stops after `a`, drops the last two bytes, and puts EOF at offset 1 instead of 3 | scan until the cursor reaches the buffer's length, so the tokens cover the buffer and EOF sits at its length | high, not executed | LexFindings.NulStopLosesInput | LexProps.TokenStreamShape |
