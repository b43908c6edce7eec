/** The token reader itself: an immutable source and a cursor that each call
    to Next moves, with the scanning loops of the Java `MyTokenReader`.
    Indices here are absolute positions in the source, where the Java reader
    counts from the cursor. */
module Reader {
  import opened CharClass
  import opened Tokens
  import opened Scanner

  class MyTokenReader {
    const source: string
    var pos: nat

    ghost predicate Valid()
      reads this
    {
      pos <= |source|
    }

    /** A reader over the whole source, positioned at its start. */
    constructor (source: string)
      ensures Valid()
      ensures this.source == source && pos == 0
    {
      this.source := source;
      pos := 0;
    }

    /** Reads one token: skips spaces and newlines, then scans the token
        that starts there. Returns End at the end of the input and Fail on
        malformed input, in both cases leaving the cursor past the skipped
        whitespace. */
    method Next() returns (r: Step)
      requires Valid()
      modifies this`pos
      ensures Valid()
      ensures Scanned(r, pos) == NextSpec(source, old(pos))
    {
      // Each space or newline moves the cursor by one before the
      // classification starts again.
      while pos < |source| && IsSpace(source[pos])
        invariant old(pos) <= pos <= |source|
        invariant RunEnd(source, pos, IsSpace) == TokenStart(source, old(pos))
        decreases |source| - pos
      {
        pos := pos + 1;
      }
      if pos == |source| {
        return End;
      }
      var c := source[pos];
      if IsSymbol(c) {
        pos := pos + 1;
        return Tok(Symbol(c));
      }
      var scanned: Scanned;
      if c == '"' {
        scanned := ReadString();
      } else if IsLetter(c) {
        scanned := ReadName();
      } else if IsNumberChar(c) {
        scanned := ReadNumber();
      } else {
        return Fail(SyntaxError);
      }
      pos := scanned.next;
      return scanned.step;
    }

    /** The string branch of `next()`, with the cursor on the opening quote. */
    method ReadString() returns (r: Scanned)
      requires Valid() && pos < |source| && source[pos] == '"'
      ensures r == StringSpec(source, pos)
    {
      // the opening quote is not part of the text
      var start := pos + 1;
      var end := start;
      if end == |source| {
        // the loop's first read, one past a quote at the very end
        return Scanned(Fail(StringIndexOutOfBounds), pos);
      }
      while source[end] != '"'
        invariant start <= end < |source|
        invariant RunEnd(source, end, IsNotQuote) == RunEnd(source, start, IsNotQuote)
        decreases |source| - end
      {
        end := end + 1;
        if end > |source| - 1 {
          return Scanned(Fail(UnclosedString), pos);
        }
      }
      var text := source[start..end];
      return Scanned(Tok(Str(text)), end + 1);
    }

    /** The name branch of `next()`, with the cursor on a letter. */
    method ReadName() returns (r: Scanned)
      requires Valid() && pos < |source| && IsLetter(source[pos])
      ensures r == NameSpec(source, pos)
    {
      var end := pos;
      while IsNameChar(source[end])
        invariant pos <= end < |source|
        invariant RunEnd(source, end, IsNameChar) == RunEnd(source, pos, IsNameChar)
        decreases |source| - end
      {
        end := end + 1;
        if end > |source| - 1 {
          return Scanned(Fail(InvalidName), pos);
        }
      }
      var name := source[pos..end];
      return Scanned(Tok(Name(name)), end);
    }

    /** The number branch of `next()`, with the cursor on a digit or a
        decimal point. */
    method ReadNumber() returns (r: Scanned)
      requires Valid() && pos < |source| && IsNumberChar(source[pos])
      ensures r == NumberSpec(source, pos)
    {
      // a double holds at most one decimal point; `decimals` counts the
      // points in the run read so far, the character at `end` included
      var decimals := 0;
      if source[pos] == '.' {
        decimals := decimals + 1;
      }
      var end := pos;
      while IsNumberChar(source[end])
        invariant pos <= end < |source|
        invariant RunEnd(source, end, IsNumberChar) == RunEnd(source, pos, IsNumberChar)
        invariant decimals == DotCount(source[pos..end + 1])
        decreases |source| - end
      {
        end := end + 1;
        if end == |source| {
          // the look-ahead read past the last character is out of range
          return Scanned(Fail(NumberIndexOutOfBounds), pos);
        }
        assert source[pos..end + 1] == source[pos..end] + [source[end]];
        if source[end] == '.' {
          decimals := decimals + 1;
        }
        // the Java reader's own end-of-source check comes after that read
        // and so never fires
        assert end <= |source| - 1;
      }
      assert source[pos..end + 1] == source[pos..end] + [source[end]];
      if decimals > 1 {
        return Scanned(Fail(InvalidNumber), pos);
      }
      var lexeme := source[pos..end];
      if !HasDigit(lexeme) {
        return Scanned(Fail(NumberFormat), pos);
      }
      return Scanned(Tok(Number(lexeme)), end);
    }
  }
}
