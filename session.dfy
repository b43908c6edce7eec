/** Calling the reader repeatedly, as its consumer does: from a cursor until
    the end of the input or the first failure. */
module Session {
  import opened CharClass
  import opened Tokens
  import opened Scanner

  /** The tokens of a whole scan, or the failure that stopped it. */
  datatype Tokenized = Done(tokens: seq<Token>) | Failed(kind: ErrorKind)

  /** Calls `next()` on a reader whose cursor is `pos`, again and again,
      until it reports the end of the input or fails. */
  function TokenizeFrom(source: string, pos: nat): (r: Tokenized)
    requires pos <= |source|
    decreases |source| - pos
  {
    var scanned := NextSpec(source, pos);
    match scanned.step
    case End => Done([])
    case Fail(kind) => Failed(kind)
    case Tok(t) =>
      var rest := TokenizeFrom(source, scanned.next);
      if rest.Failed? then rest else Done([t] + rest.tokens)
  }

  /** The same scan, written on the rest of the source as each call of
      `next()` reads it with `substring(pos)`: every call starts at 0 on
      what is left. Each token read moves the cursor, so a scan yields at
      most one token per character, and every token is well formed. */
  function Tokenize(source: string): (r: Tokenized)
    ensures r.Done? ==> |r.tokens| <= |source|
    ensures r.Done? ==> forall i :: 0 <= i < |r.tokens| ==> WellFormed(r.tokens[i])
    decreases |source|
  {
    var scanned := NextSpec(source, 0);
    match scanned.step
    case End => Done([])
    case Fail(kind) => Failed(kind)
    case Tok(t) =>
      TokenSpelling(source, 0);
      var rest := Tokenize(source[scanned.next..]);
      if rest.Failed? then rest else Done([t] + rest.tokens)
  }

  /** After a token, a scan goes on with the source after that token. */
  lemma TokenizeAfterToken(source: string, t: Token, n: nat)
    requires NextSpec(source, 0) == Scanned(Tok(t), n)
    ensures n <= |source|
    ensures var later := Tokenize(source[n..]);
      Tokenize(source) == if later.Failed? then later else Done([t] + later.tokens)
  {
  }

  /** Scanning with a moving cursor, as a reader does, gives the same
      tokens, or the same failure, as scanning what is left of the source. */
  lemma {:induction false} TokenizeFromCursor(source: string, pos: nat)
    requires pos <= |source|
    ensures TokenizeFrom(source, pos) == Tokenize(source[pos..])
    decreases |source| - pos
  {
    ReadsOnlyFrom(source, pos, pos);
    var scanned := NextSpec(source, pos);
    if scanned.step.Tok? {
      TokenizeFromCursor(source, scanned.next);
      var n := scanned.next - pos;
      TokenizeAfterToken(source[pos..], scanned.step.token, n);
      assert source[pos..][n..] == source[scanned.next..];
    }
  }

  /** Two scans whose first calls agree and that go on with the same rest
      of the source agree. */
  lemma TokenizeAgree(a: string, b: string)
    requires NextSpec(a, 0).step == NextSpec(b, 0).step
    requires NextSpec(a, 0).step.Tok? ==>
      a[NextSpec(a, 0).next..] == b[NextSpec(b, 0).next..]
    ensures Tokenize(a) == Tokenize(b)
  {
  }

  /** A leading space or newline does not change a scan. */
  lemma TokenizeSkipsSpace(c: char, rest: string)
    requires IsSpace(c)
    ensures Tokenize([c] + rest) == Tokenize(rest)
  {
    var source := [c] + rest;
    NextAfterSpace(c, rest);
    var n := NextSpec(rest, 0).next;
    assert source[1 + n..] == rest[n..];
    TokenizeAgree(source, rest);
  }

  /** Tokens written out one after another, each followed by a space. */
  function Layout(tokens: seq<Token>): string
  {
    if tokens == [] then [] else Spelling(tokens[0]) + [' '] + Layout(tokens[1..])
  }

  /** A well-formed token written out and followed by a space is read back
      as that token, and the scan goes on after the space. */
  lemma ReadSpelledToken(t: Token, rest: string)
    requires WellFormed(t)
    ensures var later := Tokenize(rest);
      Tokenize(Spelling(t) + [' '] + rest)
      == if later.Failed? then later else Done([t] + later.tokens)
  {
    var after := [' '] + rest;
    var source := Spelling(t) + after;
    assert Spelling(t) + [' '] + rest == source;
    var n := |Spelling(t)|;
    ReadSpelling(t, after);
    TokenizeAfterToken(source, t, n);
    assert source[n..] == after;
    TokenizeSkipsSpace(' ', rest);
  }

  /** Writing out well-formed tokens, each followed by a space, and scanning
      the result gives back exactly those tokens. The space matters: a name
      or number at the very end of the source would fail. */
  lemma {:induction false} ReadLayout(tokens: seq<Token>)
    requires forall i :: 0 <= i < |tokens| ==> WellFormed(tokens[i])
    ensures Tokenize(Layout(tokens)) == Done(tokens)
  {
    if tokens == [] {
      assert NextSpec([], 0).step == End;
    } else {
      ReadSpelledToken(tokens[0], Layout(tokens[1..]));
      ReadLayout(tokens[1..]);
      assert [tokens[0]] + tokens[1..] == tokens;
    }
  }
}
