# mathlang token reader, modelled in Dafny

This project models `MyTokenReader`, the hand-written lexer of the mathlang
expression language. A reader holds an immutable source string and a cursor
`pos`. Each call to `next()` does one of three things:

- returns one token and moves the cursor past it;
- returns `null` at the end of the input;
- throws on malformed input.

Before classifying, it skips spaces and newlines, one call level per
character. It then classifies the character under the cursor in a fixed
order, and the first match wins:

1. a symbol (`-`, `+`, `=`, `;`);
2. a quoted string;
3. a name: a letter, then letters and digits;
4. a number: a run of digits and decimal points;
5. anything else is a syntax error.

Files:

- `char_class.dfy` (module `CharClass`): the character classes. It also holds
  `RunEnd`, the end of the maximal run of one class. Every scanning loop of the
  reader computes a `RunEnd`.
- `tokens.dfy` (module `Tokens`): the token datatype and `ErrorKind`, one kind
  per failing statement. It also holds the outcome of one call
  (`End | Tok(token) | Fail(kind)`), each token's `Spelling` and `WellFormed`,
  which says which tokens the reader can produce.
- `scanner.dfy` (module `Scanner`): `NextSpec(source, pos)`, which gives the
  outcome of one call and the cursor it leaves. It is built from one function
  per branch (`StringSpec`, `NameSpec`, `NumberSpec`). The module also holds
  the lemmas about it.
- `token_reader.dfy` (module `Reader`): class `MyTokenReader`, with a `const
  source`, a `var pos` and the invariant `pos <= |source|`. `Next` turns the
  recursive whitespace skip into a loop. It runs the string, name and number
  branches through `ReadString`, `ReadName` and `ReadNumber`. These keep the
  Java reader's loops, its look-ahead reads and its `decimals` counter. `Next` is
  proved to give exactly `NextSpec`, cursor included.
- `session.dfy` (module `Session`): `TokenizeFrom`, which calls `next()`
  repeatedly from a cursor until the end of the input or the first failure,
  the way its consumer does. `Tokenize` is the same scan written on what is
  left of the source, as each call's `substring(pos)` reads it, and
  `TokenizeFromCursor` proves the two equal. It comes with a round trip:
  well-formed tokens, written out with a space after each, scan back to
  exactly those tokens.
- `examples_trace.dfy` (module `ScannerExamples`): worked examples proved
  about `NextSpec` on short sources.

The model reproduces the boundary behaviour of `MyTokenReader` as written. It does not
correct it:

- A name or number whose run reaches the last character of the source fails.
  A well-formed source therefore ends a trailing name or number with a space, a
  newline or a symbol.
- A quote that is the last character fails through the out-of-range read in
  the string loop's first test (line 77). It does not reach the "Unclosed
  string" throw of line 81.
- A number run that reaches the end fails through the out-of-range look-ahead
  read of line 123. It fails before the decimal-point check, so the "Invalid
  number" throw of line 128, right after that read, can never fire.
  `ReadNumber` asserts this.
- A lone decimal point, a run with no digit, fails when line 136 parses it as
  a double; a run of two or more points fails first, at line 133.

On `End` and on `Fail`, the cursor is left just past the skipped whitespace.
This is where the Java reader's `pos` stands when it returns `null` or throws:
each skipped space or newline moves `pos` before the recursive call of line
62. A call that starts on trailing whitespace therefore moves `pos` to the end
before it returns `null`, and a call that fails leaves `pos` on the offending
token, so a further call fails again in the same way.

## Model

| member | source | states |
|---|---|---|
| `Reader.MyTokenReader.constructor` | src/com/google/codeu/mathlang/impl/MyTokenReader.java:33-38 | the reader holds the given source with the cursor at 0 |
| `Reader.MyTokenReader.Next` | src/com/google/codeu/mathlang/impl/MyTokenReader.java:41-144 | the returned outcome and the new cursor are exactly `NextSpec(source, old(pos))`, and `pos <= |source|` is kept; the recursive whitespace skip runs as a loop |
| `Reader.MyTokenReader.ReadString` | src/com/google/codeu/mathlang/impl/MyTokenReader.java:72-91 | the string loop, with its first read past a trailing quote and its unclosed-string check, gives exactly `StringSpec` |
| `Reader.MyTokenReader.ReadName` | src/com/google/codeu/mathlang/impl/MyTokenReader.java:95-108 | the name loop, failing as "Invalid name" when the run reaches the last character, gives exactly `NameSpec` |
| `Reader.MyTokenReader.ReadNumber` | src/com/google/codeu/mathlang/impl/MyTokenReader.java:112-141 | the number loop gives exactly `NumberSpec`; its invariant says `decimals` equals the number of `.` in the run read so far, and the end-of-source check after the look-ahead read is shown never to fire |
| `CharClass.RunEnd` | src/com/google/codeu/mathlang/impl/MyTokenReader.java:96-102 | the first index at or after `i` whose character is outside the class, or the end of the source: every character before it is in the class |
| `CharClass.RunEndUnique` | src/com/google/codeu/mathlang/impl/MyTokenReader.java:77-83 | any index with the two properties of a run's end is that run's end |
| `Scanner.TokenStart` | src/com/google/codeu/mathlang/impl/MyTokenReader.java:60-63 | the next token starts past exactly the spaces and newlines at the cursor |
| `Scanner.NextSpec` | src/com/google/codeu/mathlang/impl/MyTokenReader.java:49-143 | the cursor never moves back or past the end; on End and Fail it stops just past the whitespace; a token moves it at least one character beyond the whitespace |
| `Scanner.EndIffOnlyWhitespace` | src/com/google/codeu/mathlang/impl/MyTokenReader.java:49-63 | end of input is reported if and only if only spaces and newlines remain, and the cursor then stands at the end of the source |
| `Scanner.EndIsIdempotent` | src/com/google/codeu/mathlang/impl/MyTokenReader.java:49-53 | after end of input, every further call reports end of input again with the cursor unchanged |
| `Scanner.FailIsRepeated` | src/com/google/codeu/mathlang/impl/MyTokenReader.java:60-63 | after a failed call, a further call fails with the same kind and leaves the cursor where it is, since the failing call only moved it past the whitespace |
| `Scanner.WhitespaceThenNext` | src/com/google/codeu/mathlang/impl/MyTokenReader.java:60-63 | skipping one space or newline and reading again gives the same outcome and cursor as reading, which is the recursive call of `next()` |
| `Scanner.ReadsOnlyFrom` | src/com/google/codeu/mathlang/impl/MyTokenReader.java:49 | a call depends only on the source from the cursor on: for any `k <= pos` it gives the outcome of a call at `pos - k` on `source[k..]`, with the cursor offset by `k`; `k == pos` is the call on `source.substring(pos)` |
| `Scanner.NextAfterSpace` | src/com/google/codeu/mathlang/impl/MyTokenReader.java:60-62 | a leading space or newline gives the same outcome as the rest of the source, with the cursor one further |
| `Scanner.SymbolAdvancesByOne` | src/com/google/codeu/mathlang/impl/MyTokenReader.java:66-69 | a `-`, `+`, `=` or `;` under the cursor gives that symbol token and advances the cursor by exactly one |
| `Scanner.UnknownCharacterIsSyntaxError` | src/com/google/codeu/mathlang/impl/MyTokenReader.java:143 | a character that is not a space or newline and starts no token, such as a tab, fails with a syntax error |
| `Scanner.StringTokenIff` | src/com/google/codeu/mathlang/impl/MyTokenReader.java:72-91 | a string token is produced if and only if its text is exactly the characters between the opening quote and the next quote, contains no quote and may be empty, and the cursor lands just past the closing quote |
| `Scanner.StringFailure` | src/com/google/codeu/mathlang/impl/MyTokenReader.java:77-82 | a string fails if and only if no quote follows the opening one; the kind is index-out-of-range for a trailing quote and unclosed string otherwise |
| `Scanner.NameTokenIff` | src/com/google/codeu/mathlang/impl/MyTokenReader.java:95-108 | a name token is produced if and only if it is the maximal letter-and-digit run starting at a letter, ending before the end of the source, and the cursor advances by its length |
| `Scanner.NameFailure` | src/com/google/codeu/mathlang/impl/MyTokenReader.java:96-101 | a name fails, as InvalidName, if and only if its run reaches the last character of the source |
| `Scanner.NumberTokenIff` | src/com/google/codeu/mathlang/impl/MyTokenReader.java:112-141 | a number token is produced if and only if its lexeme is the maximal run of digits and points, ends before the end of the source, holds at most one point and holds a digit |
| `Scanner.NumberFailure` | src/com/google/codeu/mathlang/impl/MyTokenReader.java:120-136 | a number fails if and only if its run reaches the end, has more than one point, or has no digit, with the kind of the first of these that applies |
| `Scanner.TokenSpelling` | src/com/google/codeu/mathlang/impl/MyTokenReader.java:86-106 | every produced token is well formed and its spelling is exactly the characters the cursor moved over after the whitespace |
| `Scanner.ReadSpelling` | src/com/google/codeu/mathlang/impl/MyTokenReader.java:41-144 | reading the spelling of any well-formed token gives back that token and moves the cursor past the spelling, when a space, newline or symbol follows it; a symbol or a string needs no follower and may end the source |
| `Session.TokenizeFromCursor` | src/com/google/codeu/mathlang/impl/MyTokenReader.java:49 | calling `next()` repeatedly from a cursor gives the same tokens, or the same failure, as the scan of `source.substring(pos)` that `Tokenize` performs |
| `Session.Tokenize` | src/com/google/codeu/mathlang/impl/MyTokenReader.java:42-44 | repeated calls until end of input or the first failure, each reading what is left of the source from its start, yield at most one token per character of the source, and every token is well formed; `TokenizeFromCursor` ties this to a reader's moving cursor |
| `Session.TokenizeSkipsSpace` | src/com/google/codeu/mathlang/impl/MyTokenReader.java:60-63 | a leading space or newline does not change the whole scan |
| `Session.ReadSpelledToken` | src/com/google/codeu/mathlang/impl/MyTokenReader.java:41-144 | a well-formed token written out and followed by a space reads back as that token, and the scan continues after the space |
| `Session.ReadLayout` | src/com/google/codeu/mathlang/impl/MyTokenReader.java:41-144 | any sequence of well-formed tokens, each written out and followed by a space, scans back to exactly that sequence |
| `ScannerExamples.NamesAndSymbols` | src/com/google/codeu/mathlang/impl/MyTokenReader.java:95-108 | `a+b;` reads as name, symbol, name, symbol, end; in `a+b` the final name fails |
| `ScannerExamples.Strings` | src/com/google/codeu/mathlang/impl/MyTokenReader.java:72-91 | `"hello"` gives the text `hello` with the cursor at 7; an empty string is read; `"oops` is unclosed; a trailing quote fails out of range |
| `ScannerExamples.DecimalNumber` | src/com/google/codeu/mathlang/impl/MyTokenReader.java:112-141 | `12.5;` reads as the number `12.5` and then `;` |
| `ScannerExamples.NoDigit` | src/com/google/codeu/mathlang/impl/MyTokenReader.java:132-136 | `.;`, a lone point, fails to parse as a number; `..;`, two points and no digit, fails first as an invalid number |
| `ScannerExamples.NumberAtEnd` | src/com/google/codeu/mathlang/impl/MyTokenReader.java:120-128 | `12` with nothing after it fails through the out-of-range look-ahead |
| `ScannerExamples.TwoDecimalPoints` | src/com/google/codeu/mathlang/impl/MyTokenReader.java:132-133 | `1.2.3;` fails as an invalid number |
| `ScannerExamples.Whitespace` | src/com/google/codeu/mathlang/impl/MyTokenReader.java:60-63 | spaces and newlines alone end the input; a tab is a syntax error |

`StringSpec`, `NameSpec` and `NumberSpec` are the string, name and number
branches of `NextSpec` (lines 72-91, 95-108 and 112-141). `ReadString`,
`ReadName` and `ReadNumber` are proved equal to them, and the rows for
`NextSpec`'s lemmas state their behaviour. `TokenizeFrom` is the consumer's
loop of calls with a moving cursor, and `TokenizeFromCursor` states what it
gives.

## Left out

- The floating-point value of a number. `Double.parseDouble` is not modelled. A
  number token carries its lexeme. Only the parse's success condition is kept:
  at this point the lexeme has at most one decimal point, so it parses exactly
  when it holds a digit.
- Unicode classification. `Character.isLetter` and `Character.isDigit` are
  modelled as ASCII letters and digits. Characters are Dafny characters, not
  UTF-16 code units.
- Java exception types. `IOException` and the unchecked index-out-of-range and
  number-format exceptions all become `Fail` with an `ErrorKind`.
- The exception itself after a failure. A Java `IOException` ends the
  consumer's run; the model returns `Fail` instead, and `FailIsRepeated`
  states what a further call would do.
- Call-stack growth. The Java reader recurses once per skipped space or newline;
  the model loops, so a stack overflow on very long runs of whitespace is not
  modelled.
- A `null` source. It is not modelled.
- Reassignment of `source`. The Java field is package-private and not `final`,
  but nothing in `MyTokenReader` assigns it after the constructor; the model
  makes it a `const`, so a change from another class in the package is not
  modelled.
- The token class hierarchy, the `TokenReader` interface and the parser that
  consumes tokens. These are not part of this model. Tokens are a plain
  datatype.
- Java `int` width. The cursor is an unbounded natural. It never exceeds the
  source length, and a Java string's length fits in an `int`, so no overflow is
  lost.
