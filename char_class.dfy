/** Character classes the token reader dispatches on, and the maximal run
    of characters of one class, which every scanning loop of the reader
    computes. Letters and digits are ASCII. */
module CharClass {

  /** The only characters skipped between tokens: space and newline. */
  predicate IsSpace(c: char) { c == ' ' || c == '\n' }

  /** The one-character symbols. */
  predicate IsSymbol(c: char) { c == '-' || c == '+' || c == '=' || c == ';' }

  predicate IsLetter(c: char) { 'a' <= c <= 'z' || 'A' <= c <= 'Z' }

  predicate IsDigit(c: char) { '0' <= c <= '9' }

  /** Characters that continue a name. */
  predicate IsNameChar(c: char) { IsLetter(c) || IsDigit(c) }

  /** Characters that start and continue a number. */
  predicate IsNumberChar(c: char) { IsDigit(c) || c == '.' }

  /** Characters inside a quoted string. */
  predicate IsNotQuote(c: char) { c != '"' }

  /** The number of decimal points in `s`. */
  function DotCount(s: string): nat { multiset(s)['.'] }

  /** Whether `s` holds at least one digit: a run of digits with at most one
      decimal point parses as a floating-point number exactly when it does. */
  predicate HasDigit(s: string) { exists i :: 0 <= i < |s| && IsDigit(s[i]) }

  /** The end of the maximal run of characters satisfying `inRun` that
      starts at `i`: the first index at or after `i` whose character is not
      in the run, or `|s|` when the run reaches the end. */
  function RunEnd(s: string, i: nat, inRun: char -> bool): (k: nat)
    requires i <= |s|
    ensures i <= k <= |s|
    ensures forall j :: i <= j < k ==> inRun(s[j])
    ensures k < |s| ==> !inRun(s[k])
    decreases |s| - i
  {
    if i == |s| || !inRun(s[i]) then i else RunEnd(s, i + 1, inRun)
  }

  /** A run is determined by its start: any `k` with the two properties
      RunEnd promises is RunEnd. */
  lemma RunEndUnique(s: string, i: nat, k: nat, inRun: char -> bool)
    requires i <= k <= |s|
    requires forall j :: i <= j < k ==> inRun(s[j])
    requires k < |s| ==> !inRun(s[k])
    ensures RunEnd(s, i, inRun) == k
  {
  }

  /** A run is the same whether the string is read whole or from index `k`
      on, up to the offset `k`. */
  lemma RunEndShift(s: string, k: nat, i: nat, inRun: char -> bool)
    requires k <= i <= |s|
    ensures RunEnd(s, i, inRun) == k + RunEnd(s[k..], i - k, inRun)
  {
  }
}
