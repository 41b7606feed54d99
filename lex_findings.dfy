/**
 * The scanning loop of lexer.c as written stops at the first NUL byte found
 * where a token would start, although the buffer carries its own length.
 * A buffer holding a NUL byte then loses every byte from it on, and the EOF
 * token sits at the NUL rather than at the buffer's length. The rest of the
 * model bounds the loop by the length instead (LexSpec.TokensFrom).
 */
module LexFindings {
  import opened TokenTypes
  import opened LexSpec
  import opened LexProps

  /**
   * The token stream of s[p..] as the loop is written: the scan ends at the
   * end of the buffer or at a NUL byte, whichever comes first.
   */
  function NulStopTokensFrom(s: seq<Byte>, p: nat): (ts: seq<Token>)
    requires p <= |s|
    ensures |ts| >= 1 && ts[0].start == p
    ensures var last := ts[|ts| - 1];
      last.kind == Eof && last.start == last.end <= |s|
      && (last.end == |s| || s[last.end] == '\0')
    decreases |s| - p
  {
    if p == |s| || s[p] == '\0' then [Token(Eof, p, p)]
    else
      var t := ScanToken(s, p);
      [t] + NulStopTokensFrom(s, t.end)
  }

  /**
   * The loop as written stops at the first NUL where a token would start:
   * every token before its EOF starts inside the buffer at a byte that is
   * not NUL.
   */
  lemma {:induction false} NulStopFirstNul(s: seq<Byte>, p: nat)
    requires p <= |s|
    ensures forall i :: 0 <= i < |NulStopTokensFrom(s, p)| - 1 ==>
      NulStopTokensFrom(s, p)[i].start < |s| && s[NulStopTokensFrom(s, p)[i].start] != '\0'
    decreases |s| - p
  {
    if p < |s| && s[p] != '\0' {
      var t := ScanToken(s, p);
      NulStopFirstNul(s, t.end);
      var ts := NulStopTokensFrom(s, p);
      var rest := NulStopTokensFrom(s, t.end);
      assert ts == [t] + rest;
      forall i | 0 <= i < |ts| - 1
        ensures ts[i].start < |s| && s[ts[i].start] != '\0'
      {
        if i > 0 {
          assert ts[i] == rest[i - 1];
        }
      }
    }
  }

  /** Without a NUL byte at or after p, the loop as written scans what the model scans. */
  lemma {:induction false} NulStopAgreesWithoutNul(s: seq<Byte>, p: nat)
    requires p <= |s|
    requires forall k :: p <= k < |s| ==> s[k] != '\0'
    ensures NulStopTokensFrom(s, p) == TokensFrom(s, p)
    decreases |s| - p
  {
    if p < |s| {
      NulStopAgreesWithoutNul(s, ScanToken(s, p).end);
    }
  }

  /**
   * `a`, NUL, `b`: the loop as written stops after the name `a`, drops the
   * last two bytes and places EOF at offset 1; the stream bounded by the
   * buffer's length scans the NUL as an ERROR byte, then `b`, and ends at 3.
   */
  lemma NulStopLosesInput(s: seq<Byte>)
    requires s == "a\0b"
    ensures NulStopTokensFrom(s, 0) == [Token(Name, 0, 1), Token(Eof, 1, 1)]
    ensures TokenStream(s) ==
      [Token(Name, 0, 1), Token(Error, 1, 2), Token(Name, 2, 3), Token(Eof, 3, 3)]
  {
    assert RunEnd(s, 1, NameChars) == 1;
    assert RunEnd(s, 3, NameChars) == 3;
    assert !IsKeyword(s, 0, 1, "let");
    assert !IsKeyword(s, 2, 3, "let");
    assert ScanToken(s, 0) == Token(Name, 0, 1);
    assert ScanToken(s, 1) == Token(Error, 1, 2);
    assert ScanToken(s, 2) == Token(Name, 2, 3);
    assert NulStopTokensFrom(s, 1) == [Token(Eof, 1, 1)];
    ScanFromUnique(s, 0,
      [Token(Name, 0, 1), Token(Error, 1, 2), Token(Name, 2, 3), Token(Eof, 3, 3)]);
  }
}
