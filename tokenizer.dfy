/** The Dylan mode's tokenizers as functions: given the line and the cursor, each
    says where the cursor ends, which category the call returns and which
    tokenizer `state.tokenize` holds afterwards. The `DylanState` class runs the
    same tokenizers in place and is proved to agree with these functions. */
module Tokenizer {
  import opened CharClass
  import opened Stream
  import opened Lexemes

  /** The category a call returns: `Null` is JavaScript's `null` (no highlighting);
      the others are the strings "header-keyword", "header-value", "string",
      "comment", "number", "atom", "operator", "def" and "variable". */
  datatype Style = Null | HeaderKeyword | HeaderValue | String | Comment | Number | Atom | Operator | Def | Variable

  /** The function held in `state.tokenize`: `tokenHeader`, `tokenBase`, a
      closure made by `tokenString(quote, type)`, or `tokenComment`. */
  datatype Tok = Header | Base | InString(quote: char, style: Style) | InComment

  /** What one tokenizer call does: the new cursor, the category it returns and
      the tokenizer installed when it returns. */
  datatype Step = Step(pos: nat, style: Style, tok: Tok)

  predicate IsHeaderStyle(s: Style) {
    s == HeaderKeyword || s == HeaderValue
  }

  /** The tokenizers the mode ever installs: the string closures are made only
      for `"` and `'` with "string", and for `"` with "atom" (after `#`). */
  predicate IsInstalled(t: Tok) {
    match t
    case InString(q, s) => ((q == '"' || q == '\'') && s == String) || (q == '"' && s == Atom)
    case _ => true
  }

  function Min(a: nat, b: nat): nat {
    if a <= b then a else b
  }

  // ---------------------------------------------------------------------------
  // tokenHeader

  /** `tokenHeader`: at the start of the line a keyword `\w[\w\d-]*:` is consumed
      with its colon and one more character and is a "header-keyword"; anything
      else consumes one character as a "header-value". Header mode stays on. */
  function HeaderStep(line: seq<char>, pos: nat): (r: Step)
    requires pos <= |line|
    ensures r.tok == Header && IsHeaderStyle(r.style)
    ensures r.style == HeaderKeyword <==> pos == 0 && exists j :: 0 < j < |line| && KeywordEndsAt(line, 0, j)
    ensures r.style == HeaderKeyword ==>
              exists j :: 0 < j < |line| && KeywordEndsAt(line, 0, j) && r.pos == Min(j + 2, |line|)
    ensures r.style == HeaderValue ==> r.pos == Min(pos + 1, |line|)
  {
    if pos == 0 && KeywordMatch(line, 0).Some? then
      Step(Min(KeywordMatch(line, 0).value + 1, |line|), HeaderKeyword, Header)
    else
      Step(Min(pos + 1, |line|), HeaderValue, Header)
  }

  // ---------------------------------------------------------------------------
  // tokenString(quote, type)

  /** The closure made by `tokenString(quote, style)`: consume up to and including
      the first `quote` and reinstall `tokenBase`, or, when the quote does not
      occur, consume the rest of the line and stay installed. A backslash has
      no special meaning. The category is always `style`. */
  function StringStep(line: seq<char>, pos: nat, quote: char, style: Style): (r: Step)
    requires pos <= |line|
    ensures r.style == style && pos <= r.pos <= |line|
    ensures r.tok == Base <==> exists i :: pos <= i < |line| && line[i] == quote
    ensures r.tok == Base ==>
              pos < r.pos && line[r.pos - 1] == quote && forall i :: pos <= i < r.pos - 1 ==> line[i] != quote
    ensures r.tok != Base ==> r.tok == InString(quote, style) && r.pos == |line|
  {
    match IndexOf(line, pos, quote)
    case Some(i) => Step(i + 1, style, Base)
    case None => Step(|line|, style, InString(quote, style))
  }

  // ---------------------------------------------------------------------------
  // tokenComment

  // A star-slash whose slash is at `i` closes a comment scan that began at
  // `start`: its star was read by the same scan, so a star before `start`
  // (the one of the opening slash-star) does not count.
  predicate ClosesAt(line: seq<char>, start: nat, i: nat) {
    start < i < |line| && line[i - 1] == '*' && line[i] == '/'
  }

  /** The first `i` from `from` on at which the scan that began at `start` closes. */
  function CommentClose(line: seq<char>, start: nat, from: nat): (r: Option<nat>)
    requires start < from
    ensures r.Some? ==> from <= r.value && ClosesAt(line, start, r.value)
    ensures r.Some? ==> forall i :: from <= i < r.value ==> !ClosesAt(line, start, i)
    ensures r.None? ==> forall i :: from <= i ==> !ClosesAt(line, start, i)
    decreases |line| - from
  {
    if from >= |line| then None
    else if line[from - 1] == '*' && line[from] == '/' then Some(from)
    else CommentClose(line, start, from + 1)
  }

  // `tokenComment`: consume up to and including the first star-slash read by
  // this call and reinstall `tokenBase`, or consume the rest of the line and
  // stay installed. Comments do not nest. The category is always "comment".
  function CommentStep(line: seq<char>, pos: nat): (r: Step)
    requires pos <= |line|
    ensures r.style == Comment && pos <= r.pos <= |line|
    ensures r.tok == Base <==> exists i :: ClosesAt(line, pos, i)
    ensures r.tok == Base ==>
              pos + 2 <= r.pos && ClosesAt(line, pos, r.pos - 1) &&
              forall i :: pos < i < r.pos - 1 ==> !ClosesAt(line, pos, i)
    ensures r.tok != Base ==> r.tok == InComment && r.pos == |line|
  {
    match CommentClose(line, pos, pos + 1)
    case Some(i) => Step(i + 1, Comment, Base)
    case None => Step(|line|, Comment, InComment)
  }

  // ---------------------------------------------------------------------------
  // tokenBase

  // `tokenBase`: classify by the character under the cursor. A quote, a
  // slash-star and `#"` install a continuation and run it at once (`chain`).
  function BaseStep(line: seq<char>, pos: nat): (r: Step)
    requires pos <= |line|
    ensures pos <= r.pos <= |line|
    ensures pos < |line| ==> pos < r.pos
    ensures IsInstalled(r.tok) && r.tok != Header && !IsHeaderStyle(r.style)
    ensures r.tok != Base ==> r.pos == |line|
  {
    if pos == |line| then
      Step(pos, Null, Base)
    else
      var ch := line[pos];
      if ch == '"' || ch == '\'' then
        StringStep(line, pos + 1, ch, String)
      else if ch == '/' then
        if pos + 1 < |line| && line[pos + 1] == '*' then
          CommentStep(line, pos + 2)
        else if pos + 1 < |line| && line[pos + 1] == '/' then
          Step(|line|, Comment, Base)
        else
          Step(SkipToTarget(line, pos + 1, ' '), Operator, Base)
      else if IsDigit(ch) then
        Step(NumberEnd(line, pos), Number, Base)
      else if ch == '#' then
        if pos + 1 < |line| && line[pos + 1] == '"' then
          StringStep(line, pos + 2, '"', Atom)
        else if pos + 1 < |line| && line[pos + 1] == 'b' then
          Step(ScanWhile(line, pos + 2, IsBinDigit), Number, Base)
        else if pos + 1 < |line| && line[pos + 1] == 'x' then
          Step(ScanWhile(line, pos + 2, IsHexDigit), Number, Base)
        else if pos + 1 < |line| && line[pos + 1] == 'o' then
          Step(ScanWhile(line, pos + 2, IsOctDigit), Number, Base)
        else
          Step(ScanWhile(line, pos + 1, IsHashSymbolChar), Atom, Base)
      else if HasPrefixAt(line, pos, "define") then
        Step(pos + 6, Def, Base)
      else if SymbolMatch(line, pos).Some? then
        Step(SymbolMatch(line, pos).value, Variable, Base)
      else
        Step(pos + 1, Null, Base)
  }

  /** A quote opens a string: the category is "string", and the string closes on
      this line exactly when the same quote occurs again after it. */
  lemma BaseQuote(line: seq<char>, pos: nat)
    requires pos < |line| && (line[pos] == '"' || line[pos] == '\'')
    ensures BaseStep(line, pos).style == String
    ensures BaseStep(line, pos).tok == Base <==> exists i :: pos < i < |line| && line[i] == line[pos]
    ensures BaseStep(line, pos).tok != Base ==> BaseStep(line, pos).tok == InString(line[pos], String)
    ensures BaseStep(line, pos) == StringStep(line, pos + 1, line[pos], String)
  {
  }

  /** A slash-star installs the comment continuation and runs it from after
      the star, so the star of the opener never combines with a following
      slash (see `CommentStep`). */
  lemma BaseBlockComment(line: seq<char>, pos: nat)
    requires pos + 1 < |line| && line[pos] == '/' && line[pos + 1] == '*'
    ensures BaseStep(line, pos) == CommentStep(line, pos + 2)
  {
  }

  /** Two slashes make a line comment: the rest of the line is "comment" and
      `tokenBase` stays installed. */
  lemma BaseLineComment(line: seq<char>, pos: nat)
    requires pos + 1 < |line| && line[pos] == '/' && line[pos + 1] == '/'
    ensures BaseStep(line, pos) == Step(|line|, Comment, Base)
  {
  }

  /** Any other slash is an "operator" that runs up to, not including, the next
      space of the line; with no space after it, only the slash is consumed. */
  lemma BaseOperator(line: seq<char>, pos: nat)
    requires pos < |line| && line[pos] == '/'
    requires pos + 1 == |line| || (line[pos + 1] != '*' && line[pos + 1] != '/')
    ensures BaseStep(line, pos).style == Operator && BaseStep(line, pos).tok == Base
    ensures pos < BaseStep(line, pos).pos
    ensures forall i :: pos < i < BaseStep(line, pos).pos ==> line[i] != ' '
    ensures (exists i :: pos < i < |line| && line[i] == ' ') ==>
              BaseStep(line, pos).pos < |line| && line[BaseStep(line, pos).pos] == ' '
    ensures (forall i :: pos < i < |line| ==> line[i] != ' ') ==> BaseStep(line, pos).pos == pos + 1
  {
  }

  /** A digit starts a "number": the longest prefix matching
      `\d*(\.\d*)?(e[+-]?\d+)?` is consumed. */
  lemma BaseNumber(line: seq<char>, pos: nat)
    requires pos < |line| && IsDigit(line[pos])
    ensures var r := BaseStep(line, pos);
      r.style == Number && r.tok == Base && IsNumberLexeme(line, pos, r.pos) &&
      forall q :: r.pos < q <= |line| ==> !IsNumberLexeme(line, pos, q)
  {
    var r := BaseStep(line, pos);
    forall q | r.pos < q <= |line|
      ensures !IsNumberLexeme(line, pos, q)
    {
      NumberEndIsLongest(line, pos, q);
    }
  }

  /** `#b`, `#x` and `#o` are "number"s that take every following binary, hex
      or octal digit (possibly none); `#"` opens a string with category "atom";
      any other `#` is an "atom" taking every following letter and hyphen. */
  lemma BaseHash(line: seq<char>, pos: nat)
    requires pos < |line| && line[pos] == '#'
    ensures var r := BaseStep(line, pos);
      var next := if pos + 1 < |line| then Some(line[pos + 1]) else None;
      (next == Some('"') ==> r == StringStep(line, pos + 2, '"', Atom)) &&
      (next == Some('b') ==> r.style == Number && r.tok == Base && r.pos == ScanWhile(line, pos + 2, IsBinDigit)) &&
      (next == Some('x') ==> r.style == Number && r.tok == Base && r.pos == ScanWhile(line, pos + 2, IsHexDigit)) &&
      (next == Some('o') ==> r.style == Number && r.tok == Base && r.pos == ScanWhile(line, pos + 2, IsOctDigit)) &&
      (next !in {Some('"'), Some('b'), Some('x'), Some('o')} ==>
         r.style == Atom && r.tok == Base && r.pos == ScanWhile(line, pos + 1, IsHashSymbolChar))
  {
  }

  /** After the cases above: `define` at the cursor is a "def" whatever follows
      it; otherwise the longest run of symbol characters is a "variable";
      otherwise one character is consumed with no category. */
  lemma BaseWord(line: seq<char>, pos: nat)
    requires pos < |line|
    requires line[pos] !in {'"', '\'', '/', '#'} && !IsDigit(line[pos])
    ensures var r := BaseStep(line, pos);
      r.tok == Base &&
      (HasPrefixAt(line, pos, "define") ==> r.style == Def && r.pos == pos + 6) &&
      (!HasPrefixAt(line, pos, "define") && IsSymbolChar(line[pos]) ==>
         r.style == Variable && (forall i :: pos <= i < r.pos ==> IsSymbolChar(line[i])) &&
         (r.pos == |line| || !IsSymbolChar(line[r.pos]))) &&
      (!HasPrefixAt(line, pos, "define") && !IsSymbolChar(line[pos]) ==>
         r.style == Null && r.pos == pos + 1)
  {
  }

  // ---------------------------------------------------------------------------
  // token and blankLine

  /** `token`: a run of white space is consumed as `null` whatever tokenizer is
      installed; otherwise the installed tokenizer runs. */
  function TokenStep(tok: Tok, line: seq<char>, pos: nat): (r: Step)
    requires pos <= |line|
    ensures pos <= r.pos <= |line|
    ensures pos < |line| ==> pos < r.pos
    ensures pos < |line| && IsSpace(line[pos]) ==>
              r.style == Null && r.tok == tok && r.pos == ScanWhile(line, pos, IsSpace)
    ensures r.tok == Header <==> tok == Header
    ensures IsInstalled(tok) ==> IsInstalled(r.tok)
    ensures tok == Header ==> r.style == Null || IsHeaderStyle(r.style)
    ensures tok != Header && IsInstalled(tok) ==> !IsHeaderStyle(r.style)
  {
    var sp := ScanWhile(line, pos, IsSpace);
    if sp > pos then
      Step(sp, Null, tok)
    else
      match tok
      case Header => HeaderStep(line, pos)
      case Base => BaseStep(line, pos)
      case InString(q, s) => StringStep(line, pos, q, s)
      case InComment => CommentStep(line, pos)
  }

  /** `blankLine`: an empty line ends the header by installing `tokenBase`; any
      other tokenizer is kept. */
  function AfterBlankLine(tok: Tok): (r: Tok)
    ensures r != Header
    ensures tok == Header ==> r == Base
    ensures tok != Header ==> r == tok
    ensures IsInstalled(tok) ==> IsInstalled(r)
  {
    if tok == Header then Base else tok
  }
}
