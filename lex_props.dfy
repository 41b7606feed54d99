/**
 * Properties of the lexer's specification: what each dispatch case produces,
 * the shape of the whole token stream (contiguous, covering, ending in EOF),
 * the round trip from tokens back to the buffer, maximal munch across
 * neighbouring tokens, and worked examples.
 */
module LexProps {
  import opened TokenTypes
  import opened LexSpec

  // ---------------------------------------------------------------------
  // The scanning loop, one iteration at a time

  /**
   * Appending the token scanned at p and moving the cursor to its end keeps
   * "tokens so far ++ tokens of the rest" equal to the whole stream.
   */
  lemma ScanStep(s: seq<Byte>, done: seq<Token>, p: nat)
    requires p < |s|
    requires done + TokensFrom(s, p) == TokenStream(s)
    ensures done + [ScanToken(s, p)] + TokensFrom(s, ScanToken(s, p).end) == TokenStream(s)
  {
    var t := ScanToken(s, p);
    assert TokensFrom(s, p) == [t] + TokensFrom(s, t.end);
  }

  /** Once the cursor is at the end, the EOF token completes the stream. */
  lemma ScanDone(s: seq<Byte>, done: seq<Token>)
    requires done + TokensFrom(s, |s|) == TokenStream(s)
    ensures done + [Token(Eof, |s|, |s|)] == TokenStream(s)
  {
    assert TokensFrom(s, |s|) == [Token(Eof, |s|, |s|)];
  }

  // ---------------------------------------------------------------------
  // Runs

  /** A greedy scan stops exactly at the end of the maximal run: RunEnd is the only such end. */
  lemma {:induction false} RunEndUnique(s: seq<Byte>, i: nat, e: nat, run: Run)
    requires i <= |s|
    ensures MaximalRun(s, i, e, run) <==> RunEnd(s, i, run) == e
    decreases |s| - i
  {
    if MaximalRun(s, i, e, run) && i < e {
      RunEndUnique(s, i + 1, e, run);
    }
  }

  // ---------------------------------------------------------------------
  // The dispatch: what the token starting at p is, by its first byte

  /** Each operator, parenthesis and newline byte is a token of its own kind, one byte wide. */
  lemma SingleByteToken(s: seq<Byte>, p: nat)
    requires p < |s|
    ensures SingleByteKind(s[p]).Some? ==>
      ScanToken(s, p) == Token(SingleByteKind(s[p]).value, p, p + 1)
    ensures ScanToken(s, p).kind in {LeftParen, RightParen, Mod, Dot, Slash, Star, Eq, Minus, Plus, Line} ==>
      SingleByteKind(s[p]) == Some(ScanToken(s, p).kind)
  {
  }

  /** A space starts a WHITESPACE token over the maximal run of spaces, and only a space does. */
  lemma WhitespaceToken(s: seq<Byte>, p: nat)
    requires p < |s|
    ensures ScanToken(s, p).kind == Whitespace <==> s[p] == ' '
    ensures s[p] == ' ' ==> MaximalRun(s, p, ScanToken(s, p).end, Spaces)
  {
  }

  /**
   * A letter or underscore starts a name over the maximal run of letters,
   * digits and underscores; it is LET exactly when its lexeme is "let".
   */
  lemma NameToken(s: seq<Byte>, p: nat)
    requires p < |s|
    ensures (ScanToken(s, p).kind == Name || ScanToken(s, p).kind == Let) <==> IsName(s[p])
    ensures IsName(s[p]) ==> MaximalRun(s, p, ScanToken(s, p).end, NameChars)
    ensures ScanToken(s, p).kind == Let <==> Text(s, ScanToken(s, p)) == "let"
  {
  }

  /** A digit starts a NUMBER token over the maximal run of digits, and only a digit does. */
  lemma NumberToken(s: seq<Byte>, p: nat)
    requires p < |s|
    ensures ScanToken(s, p).kind == Number <==> IsDigit(s[p])
    ensures IsDigit(s[p]) ==> MaximalRun(s, p, ScanToken(s, p).end, Digits)
  {
  }

  /**
   * A quote starts a STRING token that ends with the next quote and holds
   * no quote inside; with no closing quote the rest of the buffer is one
   * ERROR token.
   */
  lemma StringToken(s: seq<Byte>, p: nat)
    requires p < |s|
    ensures var t := ScanToken(s, p);
      t.kind == String ==>
        && s[p] == '"' && p + 2 <= t.end && s[t.end - 1] == '"'
        && forall k :: p < k < t.end - 1 ==> s[k] != '"'
    ensures var t := ScanToken(s, p);
      s[p] == '"' && t.kind != String ==>
        && t == Token(Error, p, |s|)
        && forall k :: p < k < |s| ==> s[k] != '"'
  {
  }

  /**
   * Every other byte is one ERROR token one byte wide; the only wider
   * ERROR token is an unterminated string.
   */
  lemma ErrorToken(s: seq<Byte>, p: nat)
    requires p < |s|
    ensures Unrecognized(s[p]) ==> ScanToken(s, p) == Token(Error, p, p + 1)
    ensures ScanToken(s, p).kind == Error ==> Unrecognized(s[p]) || s[p] == '"'
  {
  }

  // ---------------------------------------------------------------------
  // The whole stream

  /**
   * ts is a scan of s from p: it starts at p, every token but the last
   * begins inside the buffer, is the token scanned there and ends where the
   * next begins, and the last is a zero-width EOF at the buffer's length.
   */
  ghost predicate IsScanFrom(s: seq<Byte>, p: nat, ts: seq<Token>) {
    && |ts| >= 1
    && ts[0].start == p
    && ts[|ts| - 1] == Token(Eof, |s|, |s|)
    && forall i :: 0 <= i < |ts| - 1 ==>
         ts[i].start < |s| && ts[i] == ScanToken(s, ts[i].start) && ts[i].end == ts[i + 1].start
  }

  /**
   * The tokens of s[p..] lie in the buffer from p on, and they are a scan
   * of s from p: every token but the last begins inside the buffer, is the
   * token scanned at its start, and ends where the next one begins.
   */
  lemma {:induction false} TokensFromStructure(s: seq<Byte>, p: nat)
    requires p <= |s|
    ensures InBounds(s, TokensFrom(s, p))
    ensures forall i :: 0 <= i < |TokensFrom(s, p)| ==> p <= TokensFrom(s, p)[i].start
    ensures IsScanFrom(s, p, TokensFrom(s, p))
    decreases |s| - p
  {
    if p < |s| {
      var t := ScanToken(s, p);
      TokensFromStructure(s, t.end);
      var rest := TokensFrom(s, t.end);
      var ts := TokensFrom(s, p);
      assert ts == [t] + rest;
      forall i | 0 < i < |ts|
        ensures ts[i] == rest[i - 1]
      {
      }
    }
  }

  /** TokensFrom(s, p) is exactly the one scan of s from p. */
  lemma {:induction false} ScanFromUnique(s: seq<Byte>, p: nat, ts: seq<Token>)
    requires p <= |s|
    ensures IsScanFrom(s, p, ts) <==> ts == TokensFrom(s, p)
    decreases |s| - p
  {
    TokensFromStructure(s, p);
    if IsScanFrom(s, p, ts) {
      if p == |s| {
        assert |ts| == 1 by {
          if |ts| > 1 {
            assert false;
          }
        }
      } else {
        assert |ts| > 1;
        var t := ScanToken(s, p);
        assert ts[0] == t;
        assert IsScanFrom(s, t.end, ts[1..]);
        ScanFromUnique(s, t.end, ts[1..]);
        assert ts == [t] + ts[1..];
      }
    }
  }

  /** Concatenating the lexemes of the tokens of s[p..] gives back s[p..]. */
  lemma {:induction false} TokensFromRoundTrip(s: seq<Byte>, p: nat)
    requires p <= |s|
    ensures InBounds(s, TokensFrom(s, p)) && Concat(s, TokensFrom(s, p)) == s[p..]
    decreases |s| - p
  {
    TokensFromStructure(s, p);
    var ts := TokensFrom(s, p);
    if p == |s| {
      assert ts == [Token(Eof, p, p)];
      assert Concat(s, ts) == Text(s, ts[0]) + Concat(s, []);
    } else {
      var t := ScanToken(s, p);
      var rest := TokensFrom(s, t.end);
      TokensFromRoundTrip(s, t.end);
      assert ts == [t] + rest;
      assert ts[1..] == rest;
      assert Concat(s, ts) == Text(s, t) + Concat(s, rest);
      SliceSplit(s, p, t.end);
    }
  }

  lemma SliceSplit(s: seq<Byte>, i: nat, j: nat)
    requires i <= j <= |s|
    ensures s[i..j] + s[j..] == s[i..]
  {
  }

  /**
   * The stream of a whole buffer starts at offset 0, is contiguous, has no
   * empty token and no EOF before its last token, ends with a zero-width EOF
   * at the buffer's length, and its lexemes concatenate back to the buffer.
   */
  lemma TokenStreamShape(s: seq<Byte>)
    ensures var ts := TokenStream(s);
      && ts[0].start == 0
      && ts[|ts| - 1] == Token(Eof, |s|, |s|)
      && (forall i :: 0 <= i < |ts| - 1 ==> ts[i].end == ts[i + 1].start)
      && (forall i :: 0 <= i < |ts| - 1 ==> ts[i].start < ts[i].end && ts[i].kind != Eof)
      && InBounds(s, ts)
      && Concat(s, ts) == s
  {
    TokensFromStructure(s, 0);
    TokensFromRoundTrip(s, 0);
    var ts := TokenStream(s);
    forall i | 0 <= i < |ts| - 1
      ensures ts[i].start < ts[i].end && ts[i].kind != Eof
    {
      var t := ScanToken(s, ts[i].start);
    }
  }

  /**
   * Maximal munch seen from the stream: a whitespace run is never followed
   * by whitespace, a number never by a digit run, and a name never by a
   * name or a number.
   */
  lemma NoAdjacentRuns(s: seq<Byte>)
    ensures var ts := TokenStream(s);
      forall i :: 0 <= i < |ts| - 1 ==>
        && (ts[i].kind == Whitespace ==> ts[i + 1].kind != Whitespace)
        && (ts[i].kind == Number ==> ts[i + 1].kind != Number)
        && (ts[i].kind == Name || ts[i].kind == Let ==>
              ts[i + 1].kind != Name && ts[i + 1].kind != Let && ts[i + 1].kind != Number)
  {
    TokensFromStructure(s, 0);
    var ts := TokenStream(s);
    forall i | 0 <= i < |ts| - 1
      ensures ts[i].kind == Whitespace ==> ts[i + 1].kind != Whitespace
      ensures ts[i].kind == Number ==> ts[i + 1].kind != Number
      ensures ts[i].kind == Name || ts[i].kind == Let ==>
        ts[i + 1].kind != Name && ts[i + 1].kind != Let && ts[i + 1].kind != Number
    {
      var p := ts[i].start;
      WhitespaceToken(s, p);
      NumberToken(s, p);
      NameToken(s, p);
      if i + 1 < |ts| - 1 {
        var q := ts[i + 1].start;
        WhitespaceToken(s, q);
        NumberToken(s, q);
        NameToken(s, q);
      }
    }
  }
}
