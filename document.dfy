/** What the editor gets from the mode over whole lines and documents: it calls
    `token` until the line is exhausted, and calls `blankLine` instead for an
    empty line. These functions state the properties that span many calls:
    termination of the line loop, the one-way switch out of header mode, and
    continuations surviving the end of a line. */
module Document {
  import opened CharClass
  import opened Stream
  import opened Lexemes
  import opened Tokenizer

  /** The categories returned for the rest of a line and the tokenizer left installed. */
  datatype LineRun = LineRun(tok: Tok, styles: seq<Style>)

  /** The categories of all lines of a document (one sequence per line) and the
      tokenizer installed after the last line. */
  datatype DocRun = DocRun(tok: Tok, styles: seq<seq<Style>>)

  predicate AllHeaderOrNull(styles: seq<Style>) {
    forall k :: 0 <= k < |styles| ==> styles[k] == Null || IsHeaderStyle(styles[k])
  }

  predicate NoHeaderStyle(styles: seq<Style>) {
    forall k :: 0 <= k < |styles| ==> !IsHeaderStyle(styles[k])
  }

  /** Calling `token` from `pos` until the end of the line. Each call consumes at
      least one character, so there are at most as many calls as characters. */
  function RunLine(tok: Tok, line: seq<char>, pos: nat): (r: LineRun)
    requires pos <= |line|
    ensures |r.styles| <= |line| - pos
    ensures pos < |line| ==> |r.styles| > 0
    ensures r.tok == Header <==> tok == Header
    ensures IsInstalled(tok) ==> IsInstalled(r.tok)
    ensures tok == Header ==> AllHeaderOrNull(r.styles)
    ensures tok != Header && IsInstalled(tok) ==> NoHeaderStyle(r.styles)
    decreases |line| - pos
  {
    if pos == |line| then
      LineRun(tok, [])
    else
      var s := TokenStep(tok, line, pos);
      var rest := RunLine(s.tok, line, s.pos);
      LineRun(rest.tok, [s.style] + rest.styles)
  }

  /** One line as the editor feeds it: `blankLine` for an empty line, the `token`
      loop from its start for any other line. */
  function RunAnyLine(tok: Tok, line: seq<char>): LineRun
  {
    if line == [] then LineRun(AfterBlankLine(tok), []) else RunLine(tok, line, 0)
  }

  /** An empty line yields nothing and installs what `blankLine` installs; any
      other line keeps header mode exactly when it was on. The categories follow
      the mode, as for `RunLine`. */
  lemma RunAnyLineFacts(tok: Tok, line: seq<char>)
    ensures line == [] ==> RunAnyLine(tok, line).styles == [] && RunAnyLine(tok, line).tok == AfterBlankLine(tok)
    ensures line != [] ==> (RunAnyLine(tok, line).tok == Header <==> tok == Header)
    ensures IsInstalled(tok) ==> IsInstalled(RunAnyLine(tok, line).tok)
    ensures tok == Header ==> AllHeaderOrNull(RunAnyLine(tok, line).styles)
    ensures tok != Header && IsInstalled(tok) ==>
              RunAnyLine(tok, line).tok != Header && NoHeaderStyle(RunAnyLine(tok, line).styles)
  {
  }

  /** The editor's pass over a document, line by line. */
  function RunDocument(tok: Tok, lines: seq<seq<char>>): (r: DocRun)
    ensures |r.styles| == |lines|
    decreases |lines|
  {
    if lines == [] then
      DocRun(tok, [])
    else
      var first := RunAnyLine(tok, lines[0]);
      var rest := RunDocument(first.tok, lines[1..]);
      DocRun(rest.tok, [first.styles] + rest.styles)
  }

  /** Running a document is running its first part and then the rest from the
      tokenizer the first part left installed. */
  lemma {:induction false} RunDocumentAppend(tok: Tok, a: seq<seq<char>>, b: seq<seq<char>>)
    ensures RunDocument(tok, a + b).tok == RunDocument(RunDocument(tok, a).tok, b).tok
    ensures RunDocument(tok, a + b).styles == RunDocument(tok, a).styles + RunDocument(RunDocument(tok, a).tok, b).styles
    decreases |a|
  {
    if a != [] {
      var first := RunAnyLine(tok, a[0]);
      assert (a + b)[0] == a[0];
      assert (a + b)[1..] == a[1..] + b;
      RunDocumentAppend(first.tok, a[1..], b);
      var mid := RunDocument(first.tok, a[1..]);
      var rest := RunDocument(mid.tok, b);
      assert RunDocument(tok, a + b).styles == [first.styles] + (mid.styles + rest.styles);
      assert RunDocument(tok, a).styles == [first.styles] + mid.styles;
      assert [first.styles] + (mid.styles + rest.styles) == ([first.styles] + mid.styles) + rest.styles;
    } else {
      assert a + b == b;
    }
  }

  /** While no empty line has arrived, header mode stays on and every category is
      "header-keyword", "header-value" or `null` (white space). */
  lemma {:induction false} HeaderWithoutBlankLine(lines: seq<seq<char>>)
    requires forall k :: 0 <= k < |lines| ==> lines[k] != []
    ensures RunDocument(Header, lines).tok == Header
    ensures forall k :: 0 <= k < |lines| ==> AllHeaderOrNull(RunDocument(Header, lines).styles[k])
    decreases |lines|
  {
    if lines != [] {
      RunAnyLineFacts(Header, lines[0]);
      HeaderWithoutBlankLine(lines[1..]);
    }
  }

  /** Once the mode is out of header mode it never returns to it, and no later
      category is a header category. */
  lemma {:induction false} BodyStaysBody(tok: Tok, lines: seq<seq<char>>)
    requires tok != Header && IsInstalled(tok)
    ensures RunDocument(tok, lines).tok != Header && IsInstalled(RunDocument(tok, lines).tok)
    ensures forall k :: 0 <= k < |lines| ==> NoHeaderStyle(RunDocument(tok, lines).styles[k])
    decreases |lines|
  {
    if lines != [] {
      RunAnyLineFacts(tok, lines[0]);
      BodyStaysBody(RunAnyLine(tok, lines[0]).tok, lines[1..]);
    }
  }

  /** The first empty line splits a document started with `startState`: the
      document is `head + tail`, where no line of `head` is empty and `tail`
      opens with the empty line. Header rules hold before it; the empty line
      itself yields nothing and installs `tokenBase`, so every later line is
      tokenized exactly as a document started in `tokenBase`, with no header
      category. */
  lemma HeaderUntilFirstBlankLine(head: seq<seq<char>>, tail: seq<seq<char>>)
    requires forall k :: 0 <= k < |head| ==> head[k] != []
    requires tail != [] && tail[0] == []
    ensures forall k :: 0 <= k < |head| ==> AllHeaderOrNull(RunDocument(Header, head + tail).styles[k])
    ensures forall k :: |head| <= k < |head| + |tail| ==> NoHeaderStyle(RunDocument(Header, head + tail).styles[k])
    ensures RunDocument(Header, head + tail).tok != Header
    ensures RunDocument(Header, head + tail).styles[|head|] == []
    ensures RunDocument(Header, head + tail).styles[|head| + 1..] == RunDocument(Base, tail[1..]).styles
    ensures RunDocument(Header, head + tail).tok == RunDocument(Base, tail[1..]).tok
  {
    var all := RunDocument(Header, head + tail);
    var h := RunDocument(Header, head);
    var b := RunDocument(Base, tail[1..]);
    HeaderThenBlankLine(head, tail);
    HeaderWithoutBlankLine(head);
    BodyStaysBody(Base, tail[1..]);
    assert all.styles[|head| + 1..] == b.styles;
    forall k | 0 <= k < |head|
      ensures AllHeaderOrNull(all.styles[k])
    {
      assert all.styles[k] == h.styles[k];
    }
    forall k | |head| < k < |head| + |tail|
      ensures NoHeaderStyle(all.styles[k])
    {
      assert all.styles[k] == b.styles[k - |head| - 1];
    }
  }

  /** Header lines followed by a document that opens with an empty line. */
  lemma HeaderThenBlankLine(head: seq<seq<char>>, tail: seq<seq<char>>)
    requires forall k :: 0 <= k < |head| ==> head[k] != []
    requires tail != [] && tail[0] == []
    ensures RunDocument(Header, head + tail).styles ==
            RunDocument(Header, head).styles + ([[]] + RunDocument(Base, tail[1..]).styles)
    ensures RunDocument(Header, head + tail).tok == RunDocument(Base, tail[1..]).tok
  {
    HeaderWithoutBlankLine(head);
    RunDocumentAppend(Header, head, tail);
    BlankLineFirst(Header, tail);
  }

  /** A document that opens with an empty line: that line yields nothing and the
      rest is tokenized from what `blankLine` installs. */
  lemma BlankLineFirst(tok: Tok, lines: seq<seq<char>>)
    requires lines != [] && lines[0] == []
    ensures RunDocument(tok, lines).styles == [[]] + RunDocument(AfterBlankLine(tok), lines[1..]).styles
    ensures RunDocument(tok, lines).tok == RunDocument(AfterBlankLine(tok), lines[1..]).tok
  {
  }
}
