/** Tokens produced by the mathlang token reader, the outcome of one call to
    `next()`, and the spelling of a token in source text. */
module Tokens {
  import opened CharClass

  /** A token, by its semantic payload. A number keeps its lexeme (the digits
      and at most one decimal point it was read from) instead of the
      floating-point value the reader parses it into. */
  datatype Token =
    | Symbol(c: char)
    | Str(text: string)
    | Name(text: string)
    | Number(lexeme: string)

  /** Why a call to `next()` failed; each kind is tied to the statement of
      the reader that raises it. */
  datatype ErrorKind =
    | StringIndexOutOfBounds   // a lone '"' is the last character: the read of the character after it is out of range
    | UnclosedString           // no closing '"' before the end of the source
    | InvalidName              // a name runs to the last character of the source
    | NumberIndexOutOfBounds   // a number runs to the last character: the look-ahead read is out of range
    | InvalidNumber            // a number with more than one decimal point
    | NumberFormat             // a number without any digit does not parse
    | SyntaxError              // the character starts no token

  /** The outcome of one call: a token, the end of the input (`null` in the
      source), or a failure. */
  datatype Step = End | Tok(token: Token) | Fail(kind: ErrorKind)

  /** The outcome of one call together with the cursor it leaves behind. */
  datatype Scanned = Scanned(step: Step, next: nat)

  /** A token that the reader can produce. */
  predicate WellFormed(t: Token)
  {
    match t
    case Symbol(c) => IsSymbol(c)
    case Str(text) => '"' !in text
    case Name(text) =>
      |text| > 0 && IsLetter(text[0]) && forall i :: 0 <= i < |text| ==> IsNameChar(text[i])
    case Number(lexeme) =>
      |lexeme| > 0 && (forall i :: 0 <= i < |lexeme| ==> IsNumberChar(lexeme[i]))
      && DotCount(lexeme) <= 1 && HasDigit(lexeme)
  }

  /** The characters a token is read from. */
  function Spelling(t: Token): (s: string)
    ensures WellFormed(t) ==> |s| > 0
    ensures t.Str? ==> |s| == |t.text| + 2 && s[0] == s[|s| - 1] == '"'
  {
    match t
    case Symbol(c) => [c]
    case Str(text) => ['"'] + text + ['"']
    case Name(text) => text
    case Number(lexeme) => lexeme
  }
}
