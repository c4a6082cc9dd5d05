/** The regular expressions of the Dylan mode that are matched with `stream.match`,
    each as the end of its match at the cursor (`None` when it does not match there),
    together with the language the expression denotes, stated independently of the scan. */
module Lexemes {
  import opened CharClass
  import opened Stream

  // ---------------------------------------------------------------------------
  // Header keyword: /\w[\w\d-]*:/

  /** A header keyword starts at `pos` and its colon is at `j`. */
  predicate KeywordEndsAt(line: seq<char>, pos: nat, j: nat)
    requires pos < j < |line|
  {
    IsWordChar(line[pos]) &&
    (forall i :: pos < i < j ==> IsKeywordChar(line[i])) &&
    line[j] == ':'
  }

  /** End of the match of `\w[\w\d-]*:` at `pos` (just past the colon). The
      colon is not a keyword character, so there is at most one such match and
      the greedy scan finds it whenever it exists. */
  function KeywordMatch(line: seq<char>, pos: nat): (r: Option<nat>)
    requires pos <= |line|
    ensures r.Some? ==> pos + 2 <= r.value <= |line| && KeywordEndsAt(line, pos, r.value - 1)
    ensures r.None? ==> forall j :: pos < j < |line| ==> !KeywordEndsAt(line, pos, j)
  {
    if pos < |line| && IsWordChar(line[pos]) then
      var j := ScanWhile(line, pos + 1, IsKeywordChar);
      if j < |line| && line[j] == ':' then
        Some(j + 1)
      else
        None
    else
      None
  }

  // ---------------------------------------------------------------------------
  // Decimal number: /^\d*(?:\.\d*)?(?:e[+\-]?\d+)?/

  /** Every character in `[i, j)` is a digit. */
  predicate DigitsBetween(line: seq<char>, i: nat, j: nat)
    requires i <= j <= |line|
  {
    forall k :: i <= k < j ==> IsDigit(line[k])
  }

  /** `[i, j)` matches `(?:\.\d*)?`. */
  predicate FractionBetween(line: seq<char>, i: nat, j: nat)
    requires i <= j <= |line|
  {
    i == j || (line[i] == '.' && DigitsBetween(line, i + 1, j))
  }

  /** `[i, j)` matches `(?:e[+\-]?\d+)?`; only a lower-case `e` introduces an exponent. */
  predicate ExponentBetween(line: seq<char>, i: nat, j: nat)
    requires i <= j <= |line|
  {
    i == j ||
    (j - i >= 2 && line[i] == 'e' &&
     if line[i + 1] == '+' || line[i + 1] == '-' then
       j - i >= 3 && DigitsBetween(line, i + 2, j)
     else
       DigitsBetween(line, i + 1, j))
  }

  /** `[p, q)` splits at `a` and `b` into integer part, fraction and exponent. */
  predicate NumberSplit(line: seq<char>, p: nat, a: nat, b: nat, q: nat)
    requires p <= q <= |line|
  {
    p <= a <= b <= q &&
    DigitsBetween(line, p, a) && FractionBetween(line, a, b) && ExponentBetween(line, b, q)
  }

  /** `[p, q)` is a whole match of the number expression. */
  ghost predicate IsNumberLexeme(line: seq<char>, p: nat, q: nat)
    requires p <= q <= |line|
  {
    exists a, b :: NumberSplit(line, p, a, b, q)
  }

  /** End of the fraction part that the greedy match takes after the integer part ending at `d`. */
  function FractionEnd(line: seq<char>, d: nat): (r: nat)
    requires d <= |line|
    ensures d <= r <= |line| && FractionBetween(line, d, r)
  {
    if d < |line| && line[d] == '.' then ScanWhile(line, d + 1, IsDigit) else d
  }

  /** End of the exponent part that the greedy match takes from `f`: the
      optional group is taken when `e`, an optional sign and at least one
      digit follow, and skipped otherwise. */
  function ExponentEnd(line: seq<char>, f: nat): (r: nat)
    requires f <= |line|
    ensures f <= r <= |line| && ExponentBetween(line, f, r)
  {
    if f + 1 < |line| && line[f] == 'e' then
      var s := if line[f + 1] == '+' || line[f + 1] == '-' then f + 2 else f + 1;
      var e := ScanWhile(line, s, IsDigit);
      if e > s then e else f
    else
      f
  }

  /** End of the match of the number expression at `pos`; the expression
      accepts the empty string, so it always matches. */
  function NumberEnd(line: seq<char>, pos: nat): (r: nat)
    requires pos <= |line|
    ensures pos <= r <= |line|
    ensures IsNumberLexeme(line, pos, r)
  {
    var d := ScanWhile(line, pos, IsDigit);
    var f := FractionEnd(line, d);
    var r := ExponentEnd(line, f);
    assert NumberSplit(line, pos, d, f, r);
    r
  }

  /** No longer prefix of the line from `pos` matches the number expression, so
      the greedy match is the longest one. */
  lemma {:induction false} NumberEndIsLongest(line: seq<char>, pos: nat, q: nat)
    requires pos <= q <= |line|
    ensures IsNumberLexeme(line, pos, q) ==> q <= NumberEnd(line, pos)
  {
    if IsNumberLexeme(line, pos, q) {
      var a, b :| NumberSplit(line, pos, a, b, q);
      var d := ScanWhile(line, pos, IsDigit);
      var f := FractionEnd(line, d);
    }
  }

  // ---------------------------------------------------------------------------
  // Symbol: /^[-_a-zA-Z?!*@<>$%]+/

  /** End of the match of the symbol expression at `pos`: the longest non-empty
      run of symbol characters, or `None` when the cursor is not on one. */
  function SymbolMatch(line: seq<char>, pos: nat): (r: Option<nat>)
    requires pos <= |line|
    ensures r.Some? <==> pos < |line| && IsSymbolChar(line[pos])
    ensures r.Some? ==> pos < r.value <= |line|
    ensures r.Some? ==> forall i :: pos <= i < r.value ==> IsSymbolChar(line[i])
    ensures r.Some? ==> r.value == |line| || !IsSymbolChar(line[r.value])
  {
    var e := ScanWhile(line, pos, IsSymbolChar);
    if e > pos then Some(e) else None
  }
}
