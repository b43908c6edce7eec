/** What one call to the token reader's `next()` does, as a function of the
    source and the cursor, and the properties of the reader stated on it. */
module Scanner {
  import opened CharClass
  import opened Tokens

  /** Where the next token starts: past the spaces and newlines at `pos`. */
  function TokenStart(source: string, pos: nat): (p: nat)
    requires pos <= |source|
    ensures pos <= p <= |source|
    ensures forall j :: pos <= j < p ==> IsSpace(source[j])
    ensures p < |source| ==> !IsSpace(source[p])
  {
    RunEnd(source, pos, IsSpace)
  }

  /** A quoted string whose opening quote is at `p`: its text runs up to the
      next quote, and the cursor moves past that closing quote. */
  function StringSpec(source: string, p: nat): (r: Scanned)
    requires p < |source| && source[p] == '"'
  {
    if p + 1 == |source| then Scanned(Fail(StringIndexOutOfBounds), p)
    else
      var q := RunEnd(source, p + 1, IsNotQuote);
      if q == |source| then Scanned(Fail(UnclosedString), p)
      else Scanned(Tok(Str(source[p + 1..q])), q + 1)
  }

  /** A name whose first letter is at `p`: the maximal run of letters and
      digits, which must stop before the end of the source. */
  function NameSpec(source: string, p: nat): (r: Scanned)
    requires p < |source| && IsLetter(source[p])
  {
    var q := RunEnd(source, p, IsNameChar);
    if q == |source| then Scanned(Fail(InvalidName), p)
    else Scanned(Tok(Name(source[p..q])), q)
  }

  /** A number whose first digit or decimal point is at `p`: the maximal run
      of digits and decimal points, which must stop before the end of the
      source, hold at most one decimal point and hold a digit. */
  function NumberSpec(source: string, p: nat): (r: Scanned)
    requires p < |source| && IsNumberChar(source[p])
  {
    var q := RunEnd(source, p, IsNumberChar);
    if q == |source| then Scanned(Fail(NumberIndexOutOfBounds), p)
    else
      var lexeme := source[p..q];
      if DotCount(lexeme) > 1 then Scanned(Fail(InvalidNumber), p)
      else if !HasDigit(lexeme) then Scanned(Fail(NumberFormat), p)
      else Scanned(Tok(Number(lexeme)), q)
  }

  /** One call to `next()` on a reader whose cursor is `pos`: the outcome and
      the new cursor. Whitespace is skipped first; then the character found
      there is classified as a symbol, the opening quote of a string, the
      first letter of a name or the first character of a number, in that
      order, or is a syntax error. The cursor moves past the whitespace in
      every case and past the token on success. */
  function NextSpec(source: string, pos: nat): (r: Scanned)
    requires pos <= |source|
    ensures pos <= r.next <= |source|
    ensures !r.step.Tok? ==> r.next == TokenStart(source, pos)
    ensures r.step.Tok? ==> r.next > TokenStart(source, pos)
  {
    var p := TokenStart(source, pos);
    if p == |source| then Scanned(End, p)
    else
      var c := source[p];
      if IsSymbol(c) then Scanned(Tok(Symbol(c)), p + 1)
      else if c == '"' then StringSpec(source, p)
      else if IsLetter(c) then NameSpec(source, p)
      else if IsNumberChar(c) then NumberSpec(source, p)
      else Scanned(Fail(SyntaxError), p)
  }

  // End of input

  /** `next()` reports the end of the input exactly when nothing but spaces
      and newlines is left; it then leaves the cursor at the end of the
      source. */
  lemma EndIffOnlyWhitespace(source: string, pos: nat)
    requires pos <= |source|
    ensures NextSpec(source, pos).step == End
            <==> forall j :: pos <= j < |source| ==> IsSpace(source[j])
    ensures NextSpec(source, pos).step == End ==> NextSpec(source, pos).next == |source|
  {
  }

  /** Once the end of the input is reported, every later call reports it
      again and leaves the cursor where it is. */
  lemma EndIsIdempotent(source: string, pos: nat)
    requires pos <= |source|
    requires NextSpec(source, pos).step == End
    ensures NextSpec(source, NextSpec(source, pos).next) == NextSpec(source, pos)
    ensures NextSpec(source, |source|) == Scanned(End, |source|)
  {
  }

  /** A failed call leaves the cursor where the token would have started,
      so a further call fails again in the same way, at the same cursor. */
  lemma FailIsRepeated(source: string, pos: nat)
    requires pos <= |source|
    requires NextSpec(source, pos).step.Fail?
    ensures NextSpec(source, NextSpec(source, pos).next) == NextSpec(source, pos)
  {
    var p := TokenStart(source, pos);
    RunEndUnique(source, p, p, IsSpace);
  }

  // Whitespace and the rest of the source

  /** Skipping one space or newline and then reading is the same as reading:
      `next()` moves the cursor by one and calls itself. */
  lemma WhitespaceThenNext(source: string, pos: nat)
    requires pos < |source| && IsSpace(source[pos])
    ensures NextSpec(source, pos) == NextSpec(source, pos + 1)
  {
  }

  /** The string branch read from offset `k` on. */
  lemma StringSpecShift(source: string, k: nat, p: nat)
    requires k <= p < |source| && source[p] == '"'
    ensures var r := StringSpec(source[k..], p - k);
      StringSpec(source, p) == Scanned(r.step, k + r.next)
  {
    var rest := source[k..];
    assert rest[p - k] == '"';
    if p + 1 < |source| {
      RunEndShift(source, k, p + 1, IsNotQuote);
      var q := RunEnd(source, p + 1, IsNotQuote);
      assert q < |source| ==> source[p + 1..q] == rest[p + 1 - k..q - k];
    }
  }

  /** The name branch read from offset `k` on. */
  lemma NameSpecShift(source: string, k: nat, p: nat)
    requires k <= p < |source| && IsLetter(source[p])
    ensures var r := NameSpec(source[k..], p - k);
      NameSpec(source, p) == Scanned(r.step, k + r.next)
  {
    var rest := source[k..];
    assert rest[p - k] == source[p];
    RunEndShift(source, k, p, IsNameChar);
    var q := RunEnd(source, p, IsNameChar);
    assert source[p..q] == rest[p - k..q - k];
  }

  /** The number branch read from offset `k` on. */
  lemma NumberSpecShift(source: string, k: nat, p: nat)
    requires k <= p < |source| && IsNumberChar(source[p])
    ensures var r := NumberSpec(source[k..], p - k);
      NumberSpec(source, p) == Scanned(r.step, k + r.next)
  {
    var rest := source[k..];
    assert rest[p - k] == source[p];
    RunEndShift(source, k, p, IsNumberChar);
    var q := RunEnd(source, p, IsNumberChar);
    assert source[p..q] == rest[p - k..q - k];
  }

  /** A call looks only at the source from the cursor on: for any `k` up to
      the cursor, it reads `source[k..]` as a reader at `pos - k` would and
      leaves the cursor offset by `k`. With `k == pos` this is the call on
      the rest of the source that `next()` reads with `substring(pos)`. */
  lemma ReadsOnlyFrom(source: string, k: nat, pos: nat)
    requires k <= pos <= |source|
    ensures var r := NextSpec(source[k..], pos - k);
      NextSpec(source, pos) == Scanned(r.step, k + r.next)
  {
    var rest := source[k..];
    RunEndShift(source, k, pos, IsSpace);
    var p := TokenStart(source, pos);
    if p < |source| {
      var c := source[p];
      assert c == rest[p - k];
      if IsSymbol(c) {
      } else if c == '"' {
        StringSpecShift(source, k, p);
      } else if IsLetter(c) {
        NameSpecShift(source, k, p);
      } else if IsNumberChar(c) {
        NumberSpecShift(source, k, p);
      }
    }
  }

  /** A leading space or newline only moves the cursor by one more. */
  lemma NextAfterSpace(c: char, rest: string)
    requires IsSpace(c)
    ensures var r := NextSpec(rest, 0);
      NextSpec([c] + rest, 0) == Scanned(r.step, 1 + r.next)
  {
    var source := [c] + rest;
    WhitespaceThenNext(source, 0);
    ReadsOnlyFrom(source, 1, 1);
    assert source[1..] == rest;
  }

  // Single-character cases

  /** A symbol under the cursor becomes a symbol token and the cursor moves
      by exactly one. */
  lemma SymbolAdvancesByOne(source: string, pos: nat)
    requires pos < |source| && IsSymbol(source[pos])
    ensures NextSpec(source, pos) == Scanned(Tok(Symbol(source[pos])), pos + 1)
  {
  }

  /** Only spaces and newlines are skipped: a character that is none of
      these and starts no token (a tab, say) is a syntax error. */
  lemma UnknownCharacterIsSyntaxError(source: string, pos: nat)
    requires pos < |source|
    requires var c := source[pos];
      !IsSpace(c) && !IsSymbol(c) && c != '"' && !IsLetter(c) && !IsNumberChar(c)
    ensures NextSpec(source, pos) == Scanned(Fail(SyntaxError), pos)
  {
  }

  // Strings

  /** A string token holds exactly the characters strictly between the
      opening quote where the token starts and the next quote, which may be
      none, and the cursor moves just past that closing quote. */
  lemma StringTokenIff(source: string, pos: nat, text: string, q: nat)
    requires pos <= |source|
    ensures var p := TokenStart(source, pos);
      NextSpec(source, pos) == Scanned(Tok(Str(text)), q)
      <==>
      p + 2 <= q <= |source| && source[p] == '"' && source[q - 1] == '"'
      && text == source[p + 1..q - 1] && '"' !in text
  {
  }

  /** A quote with no closing quote after it fails: through the out-of-range
      read when it is the last character, as an unclosed string otherwise. */
  lemma StringFailure(source: string, pos: nat)
    requires pos <= |source|
    requires var p := TokenStart(source, pos); p < |source| && source[p] == '"'
    ensures var p := TokenStart(source, pos);
      NextSpec(source, pos).step.Fail?
      <==> forall j :: p < j < |source| ==> source[j] != '"'
    ensures var p := TokenStart(source, pos);
      NextSpec(source, pos).step.Fail? ==>
        NextSpec(source, pos).step.kind
        == if p + 1 == |source| then StringIndexOutOfBounds else UnclosedString
  {
  }

  // Names

  /** A name token is the maximal run of letters and digits that starts at a
      letter and stops before the end of the source; the cursor moves past
      it. */
  lemma NameTokenIff(source: string, pos: nat, text: string, q: nat)
    requires pos <= |source|
    ensures var p := TokenStart(source, pos);
      NextSpec(source, pos) == Scanned(Tok(Name(text)), q)
      <==>
      p < q < |source| && IsLetter(source[p]) && text == source[p..q]
      && (forall j :: p <= j < q ==> IsNameChar(source[j])) && !IsNameChar(source[q])
  {
  }

  /** A name fails exactly when its run of letters and digits reaches the
      last character of the source. */
  lemma NameFailure(source: string, pos: nat)
    requires pos <= |source|
    requires var p := TokenStart(source, pos); p < |source| && IsLetter(source[p])
    ensures var p := TokenStart(source, pos);
      NextSpec(source, pos).step.Fail?
      <==> forall j :: p <= j < |source| ==> IsNameChar(source[j])
    ensures NextSpec(source, pos).step.Fail? ==> NextSpec(source, pos).step.kind == InvalidName
  {
  }

  // Numbers

  /** A number token is the maximal run of digits and decimal points where
      the token starts; the run stops before the end of the source, holds at
      most one decimal point and at least one digit, and the cursor moves
      past it. */
  lemma NumberTokenIff(source: string, pos: nat, lexeme: string, q: nat)
    requires pos <= |source|
    ensures var p := TokenStart(source, pos);
      NextSpec(source, pos) == Scanned(Tok(Number(lexeme)), q)
      <==>
      p < q < |source| && lexeme == source[p..q]
      && (forall j :: p <= j < q ==> IsNumberChar(source[j])) && !IsNumberChar(source[q])
      && DotCount(lexeme) <= 1 && HasDigit(lexeme)
  {
  }

  /** A number fails in three ways, tried in this order: its run reaches the
      last character of the source, it holds more than one decimal point, or
      it holds no digit. */
  lemma NumberFailure(source: string, pos: nat)
    requires pos <= |source|
    requires var p := TokenStart(source, pos); p < |source| && IsNumberChar(source[p])
    ensures var p := TokenStart(source, pos);
      var q := RunEnd(source, p, IsNumberChar);
      NextSpec(source, pos).step.Fail?
      <==> q == |source| || DotCount(source[p..q]) > 1 || !HasDigit(source[p..q])
    ensures var p := TokenStart(source, pos);
      var q := RunEnd(source, p, IsNumberChar);
      NextSpec(source, pos).step.Fail? ==>
        NextSpec(source, pos).step.kind
        == if q == |source| then NumberIndexOutOfBounds
           else if DotCount(source[p..q]) > 1 then InvalidNumber
           else NumberFormat
  {
  }

  // Tokens and their spelling

  /** A string token is well formed and spelled by its quotes and text. */
  lemma StringSpelling(source: string, p: nat)
    requires p < |source| && source[p] == '"' && StringSpec(source, p).step.Tok?
    ensures var r := StringSpec(source, p);
      WellFormed(r.step.token) && source[p..r.next] == Spelling(r.step.token)
  {
  }

  /** A name token is well formed and spelled by its text. */
  lemma NameSpelling(source: string, p: nat)
    requires p < |source| && IsLetter(source[p]) && NameSpec(source, p).step.Tok?
    ensures var r := NameSpec(source, p);
      WellFormed(r.step.token) && source[p..r.next] == Spelling(r.step.token)
  {
  }

  /** A number token is well formed and spelled by its lexeme. */
  lemma NumberSpelling(source: string, p: nat)
    requires p < |source| && IsNumberChar(source[p]) && NumberSpec(source, p).step.Tok?
    ensures var r := NumberSpec(source, p);
      WellFormed(r.step.token) && source[p..r.next] == Spelling(r.step.token)
  {
  }

  /** Every token `next()` produces is well formed and is spelled by exactly
      the characters the cursor moved over after the whitespace. */
  lemma TokenSpelling(source: string, pos: nat)
    requires pos <= |source|
    requires NextSpec(source, pos).step.Tok?
    ensures var r := NextSpec(source, pos);
      WellFormed(r.step.token)
      && source[TokenStart(source, pos)..r.next] == Spelling(r.step.token)
  {
    var p := TokenStart(source, pos);
    var c := source[p];
    if IsSymbol(c) {
    } else if c == '"' {
      StringSpelling(source, p);
    } else if IsLetter(c) {
      NameSpelling(source, p);
    } else {
      NumberSpelling(source, p);
    }
  }

  /** Reading back the spelling of a well-formed token gives that token and
      moves the cursor past its spelling. A symbol is one character and a
      string closes at its own quote, so anything may follow either, the end
      of the source included; a name or number must be followed by a space,
      a newline or a symbol. */
  lemma ReadSpelling(t: Token, rest: string)
    requires WellFormed(t)
    requires t.Str? || t.Symbol? || (|rest| > 0 && (IsSpace(rest[0]) || IsSymbol(rest[0])))
    ensures NextSpec(Spelling(t) + rest, 0) == Scanned(Tok(t), |Spelling(t)|)
  {
    var spelling := Spelling(t);
    var source := spelling + rest;
    var n := |spelling|;
    assert source[0] == spelling[0];
    RunEndUnique(source, 0, 0, IsSpace);
    match t
    case Symbol(c) =>
    case Str(text) =>
      assert source[n - 1] == '"';
      assert source[1..n - 1] == text;
      StringTokenIff(source, 0, text, n);
    case Name(text) =>
      assert source[0..n] == text;
      NameTokenIff(source, 0, text, n);
    case Number(lexeme) =>
      assert source[0..n] == lexeme;
      NumberTokenIff(source, 0, lexeme, n);
  }
}
