/**
 * The pure specification of the lexer: byte classification, maximal runs,
 * the token that starts at a given offset, and the whole token stream of a
 * buffer. The imperative scanner in module Scanner is proved equal to
 * TokenStream.
 */
module LexSpec {
  import opened TokenTypes

  /**
   * ASCII letter or underscore: the bytes that may start a name. All of
   * them are 7-bit, and none is a space or a quote.
   */
  predicate IsName(c: Byte): (r: bool)
    ensures r ==> c as int < 128 && c != ' ' && c != '"'
    ensures c == '_' ==> r
  {
    ('a' <= c <= 'z') || ('A' <= c <= 'Z') || c == '_'
  }

  /** ASCII decimal digit: 7-bit, and never a byte that starts a name. */
  predicate IsDigit(c: Byte): (r: bool)
    ensures r ==> c as int < 128 && c != ' ' && c != '"' && !IsName(c)
    ensures r <==> 0 <= c as int - '0' as int < 10
  {
    '0' <= c <= '9'
  }

  /** The byte classes over which a scan extends its run. */
  datatype Run = Spaces | NameChars | Digits | NonQuotes

  predicate InRun(run: Run, c: Byte) {
    match run
    case Spaces => c == ' '
    case NameChars => IsName(c) || IsDigit(c)
    case Digits => IsDigit(c)
    case NonQuotes => c != '"'
  }

  /** [from, to) is a run of `run` bytes that cannot be extended to the right. */
  ghost predicate MaximalRun(s: seq<Byte>, from: nat, to: nat, run: Run) {
    && from <= to <= |s|
    && (forall k :: from <= k < to ==> InRun(run, s[k]))
    && (to < |s| ==> !InRun(run, s[to]))
  }

  /** Where a greedy scan over `run` bytes starting at offset i stops. */
  function RunEnd(s: seq<Byte>, i: nat, run: Run): (e: nat)
    requires i <= |s|
    ensures MaximalRun(s, i, e, run)
    decreases |s| - i
  {
    if i < |s| && InRun(run, s[i]) then RunEnd(s, i + 1, run) else i
  }

  /**
   * The kind of the bytes that form a token on their own, one byte wide:
   * operators, parentheses and newline, none of which starts a run, so the
   * order of the dispatch's cases does not matter.
   */
  function SingleByteKind(c: Byte): (r: Option<TokenType>)
    ensures r.Some? ==> r.value in {LeftParen, RightParen, Mod, Dot, Slash, Star, Eq, Minus, Plus, Line}
    ensures r.Some? ==> c != ' ' && c != '"' && !IsName(c) && !IsDigit(c)
  {
    match c
    case '(' => Some(LeftParen)
    case ')' => Some(RightParen)
    case '%' => Some(Mod)
    case '.' => Some(Dot)
    case '/' => Some(Slash)
    case '*' => Some(Star)
    case '=' => Some(Eq)
    case '-' => Some(Minus)
    case '+' => Some(Plus)
    case '\n' => Some(Line)
    case _ => None
  }

  /**
   * A byte that starts no token of its own class and so is an error: every
   * byte from 0x80 up, NUL, tab and carriage return among them.
   */
  predicate Unrecognized(c: Byte): (r: bool)
    ensures c as int >= 128 ==> r
    ensures c == '\0' || c == '\t' || c == '\r' || c == ';' || c == '#' ==> r
  {
    SingleByteKind(c).None? && c != ' ' && c != '"' && !IsName(c) && !IsDigit(c)
  }

  /**
   * The lexeme s[start..pos] is exactly `keyword`: the lengths agree and
   * so does every byte.
   */
  function IsKeyword(s: seq<Byte>, start: nat, pos: nat, keyword: seq<Byte>): (r: bool)
    requires start <= pos <= |s|
    ensures r <==> s[start..pos] == keyword
  {
    pos - start == |keyword| &&
    forall k :: 0 <= k < |keyword| ==> s[start + k] == keyword[k]
  }

  /**
   * The token that the scanner produces when a token starts at offset p:
   * the dispatch on the first byte, with each run extended greedily.
   */
  function ScanToken(s: seq<Byte>, p: nat): (t: Token)
    requires p < |s|
    ensures t.start == p < t.end <= |s|
    ensures t.kind != Eof && t.kind != Semicolon
  {
    var c := s[p];
    if SingleByteKind(c).Some? then
      Token(SingleByteKind(c).value, p, p + 1)
    else if c == ' ' then
      Token(Whitespace, p, RunEnd(s, p + 1, Spaces))
    else if c == '"' then
      var q := RunEnd(s, p + 1, NonQuotes);
      if q < |s| then Token(String, p, q + 1) else Token(Error, p, |s|)
    else if IsName(c) then
      var e := RunEnd(s, p + 1, NameChars);
      Token(if IsKeyword(s, p, e, "let") then Let else Name, p, e)
    else if IsDigit(c) then
      Token(Number, p, RunEnd(s, p + 1, Digits))
    else
      Token(Error, p, p + 1)
  }

  /**
   * The tokens of s[p..]: one scanned token after another, then a
   * zero-width end-of-file token at the buffer's length.
   */
  function TokensFrom(s: seq<Byte>, p: nat): (ts: seq<Token>)
    requires p <= |s|
    ensures |ts| >= 1 && ts[0].start == p
    ensures ts[|ts| - 1] == Token(Eof, |s|, |s|)
    decreases |s| - p
  {
    if p == |s| then [Token(Eof, p, p)]
    else
      var t := ScanToken(s, p);
      [t] + TokensFrom(s, t.end)
  }

  /** The token stream of a whole buffer. */
  function TokenStream(s: seq<Byte>): (ts: seq<Token>)
    ensures |ts| >= 1 && ts[0].start == 0
    ensures ts[|ts| - 1] == Token(Eof, |s|, |s|)
  {
    TokensFrom(s, 0)
  }

  /** Every token lies inside the buffer. */
  ghost predicate InBounds(s: seq<Byte>, ts: seq<Token>) {
    forall i :: 0 <= i < |ts| ==> ts[i].start <= ts[i].end <= |s|
  }

  /** The lexeme of a token: the bytes of its span, in order. */
  function Text(s: seq<Byte>, t: Token): (lexeme: seq<Byte>)
    requires t.start <= t.end <= |s|
    ensures |lexeme| == t.end - t.start
    ensures forall k :: 0 <= k < |lexeme| ==> lexeme[k] == s[t.start + k]
  {
    s[t.start..t.end]
  }

  /** The lexemes of a token sequence, concatenated in order. */
  function Concat(s: seq<Byte>, ts: seq<Token>): seq<Byte>
    requires InBounds(s, ts)
  {
    if ts == [] then [] else Text(s, ts[0]) + Concat(s, ts[1..])
  }
}
