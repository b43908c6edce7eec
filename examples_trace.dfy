/** Worked examples proved about `NextSpec` on short sources, including the
    boundary cases where a token reaching the end of the source fails. */
module ScannerExamples {
  import opened CharClass
  import opened Tokens
  import opened Scanner

  /** `a+b;` reads as a name, a symbol, a name and a symbol; without the
      final `;` the second name runs to the end of the source and fails. */
  lemma NamesAndSymbols()
    ensures NextSpec("a+b;", 0) == Scanned(Tok(Name("a")), 1)
    ensures NextSpec("a+b;", 1) == Scanned(Tok(Symbol('+')), 2)
    ensures NextSpec("a+b;", 2) == Scanned(Tok(Name("b")), 3)
    ensures NextSpec("a+b;", 3) == Scanned(Tok(Symbol(';')), 4)
    ensures NextSpec("a+b;", 4) == Scanned(End, 4)
    ensures NextSpec("a+b", 2) == Scanned(Fail(InvalidName), 2)
  {
    NameTokenIff("a+b;", 0, "a", 1);
    NameTokenIff("a+b;", 2, "b", 3);
  }

  /** Quoted strings: closed, unclosed, and a quote that is the last
      character. */
  lemma Strings()
    ensures NextSpec("\"hello\"", 0) == Scanned(Tok(Str("hello")), 7)
    ensures NextSpec("\"\";", 0) == Scanned(Tok(Str("")), 2)
    ensures NextSpec("\"oops", 0) == Scanned(Fail(UnclosedString), 0)
    ensures NextSpec(" \"", 0) == Scanned(Fail(StringIndexOutOfBounds), 1)
  {
    StringTokenIff("\"hello\"", 0, "hello", 7);
    StringTokenIff("\"\";", 0, "", 2);
  }

  /** A decimal number followed by a symbol. */
  lemma DecimalNumber()
    ensures NextSpec("12.5;", 0) == Scanned(Tok(Number("12.5")), 4)
    ensures NextSpec("12.5;", 4) == Scanned(Tok(Symbol(';')), 5)
  {
    var lexeme := "12.5";
    assert multiset(lexeme) == multiset{'1', '2', '.', '5'};
    assert IsDigit(lexeme[0]);
    ReadSpelling(Number(lexeme), ";");
    assert Spelling(Number(lexeme)) + ";" == "12.5;";
  }

  /** A lone decimal point does not parse; two decimal points with no
      digit fail earlier, at the decimal-point check. */
  lemma NoDigit()
    ensures NextSpec(".;", 0) == Scanned(Fail(NumberFormat), 0)
    ensures NextSpec("..;", 0) == Scanned(Fail(InvalidNumber), 0)
  {
    var source := "..;";
    RunEndUnique(source, 0, 0, IsSpace);
    RunEndUnique(source, 0, 2, IsNumberChar);
    assert source[0..2] == "..";
    assert multiset("..") == multiset{'.', '.'};
  }

  /** A number that runs to the very end of the source fails. */
  lemma NumberAtEnd()
    ensures NextSpec("12", 0) == Scanned(Fail(NumberIndexOutOfBounds), 0)
  {
  }

  /** A number with two decimal points fails. */
  lemma TwoDecimalPoints()
    ensures NextSpec("1.2.3;", 0) == Scanned(Fail(InvalidNumber), 0)
  {
    var source := "1.2.3;";
    RunEndUnique(source, 0, 0, IsSpace);
    TwoDecimalPointsRun(source);
  }

  /** The number branch on `1.2.3;` counts two decimal points. */
  lemma TwoDecimalPointsRun(source: string)
    requires source == "1.2.3;"
    ensures NumberSpec(source, 0) == Scanned(Fail(InvalidNumber), 0)
  {
    RunEndUnique(source, 0, 5, IsNumberChar);
    var lexeme := source[0..5];
    assert lexeme == "1.2.3";
    assert multiset(lexeme) == multiset{'1', '.', '2', '.', '3'};
  }

  /** Whitespace: spaces and newlines alone end the input, a tab does not. */
  lemma Whitespace()
    ensures NextSpec(" \n \n", 0) == Scanned(End, 4)
    ensures NextSpec(" \t;", 0) == Scanned(Fail(SyntaxError), 1)
  {
  }
}
