/** Concrete lines and what the mode makes of them. */
module Examples {
  import opened CharClass
  import opened Stream
  import opened Lexemes
  import opened Tokenizer
  import opened Document

  /** A string closed on its own line is one "string" token and gives `tokenBase` back. */
  lemma StringOnOneLine()
    ensures RunLine(Base, "\"abc\"", 0) == LineRun(Base, [String])
  {
  }

  /** An unterminated string is "string" to the end of the line and stays installed. */
  lemma UnterminatedString()
    ensures RunLine(Base, "\"abc", 0) == LineRun(InString('"', String), [String])
  {
  }

  /** The string continuation resumes on the next line and closes there. */
  lemma StringAcrossLines()
    ensures RunDocument(Base, ["'ab", "c' x"]) == DocRun(Base, [[String], [String, Null, Variable]])
  {
    var open := InString('\'', String);
    assert RunAnyLine(Base, "'ab") == LineRun(open, [String]);
    var line := "c' x";
    assert TokenStep(open, line, 0) == Step(2, String, Base);
    assert TokenStep(Base, line, 2) == Step(3, Null, Base);
    assert TokenStep(Base, line, 3) == Step(4, Variable, Base);
    assert RunLine(Base, line, 3) == LineRun(Base, [Variable]);
    assert RunLine(Base, line, 2) == LineRun(Base, [Null, Variable]);
    assert RunAnyLine(open, line) == LineRun(Base, [String, Null, Variable]);
    assert ["'ab", "c' x"][1..] == ["c' x"];
  }

  /** Block comments do not nest: the first star-slash closes the comment and
      gives `tokenBase` back ... */
  lemma CommentsDoNotNest()
    ensures TokenStep(Base, "/* a /* b */ c */", 0) == Step(12, Comment, Base)
  {
    var line := "/* a /* b */ c */";
    ScanWhileIs(line, 0, IsSpace, 0);
    assert ClosesAt(line, 2, 11);
    assert forall i :: 2 < i < 11 ==> !ClosesAt(line, 2, i);
    assert CommentStep(line, 2) == Step(12, Comment, Base);
  }

  /** The calls on the rest of that line, a space, `c`, a space, star and slash,
      one at a time. */
  lemma TextAfterCommentSteps(line: seq<char>)
    requires line == " c */"
    ensures TokenStep(Base, line, 0) == Step(1, Null, Base)
    ensures TokenStep(Base, line, 1) == Step(2, Variable, Base)
    ensures TokenStep(Base, line, 2) == Step(3, Null, Base)
    ensures TokenStep(Base, line, 3) == Step(4, Variable, Base)
    ensures TokenStep(Base, line, 4) == Step(5, Operator, Base)
  {
    assert TokenStep(Base, line, 0) == Step(1, Null, Base) by {
      ScanWhileIs(line, 0, IsSpace, 1);
    }
    assert TokenStep(Base, line, 1) == Step(2, Variable, Base) by {
      ScanWhileIs(line, 1, IsSpace, 1);
      ScanWhileIs(line, 1, IsSymbolChar, 2);
    }
    assert TokenStep(Base, line, 2) == Step(3, Null, Base) by {
      ScanWhileIs(line, 2, IsSpace, 3);
    }
    assert TokenStep(Base, line, 3) == Step(4, Variable, Base) by {
      ScanWhileIs(line, 3, IsSpace, 3);
      ScanWhileIs(line, 3, IsSymbolChar, 4);
    }
    assert TokenStep(Base, line, 4) == Step(5, Operator, Base) by {
      ScanWhileIs(line, 4, IsSpace, 4);
    }
  }

  /** ... so the rest of that line is ordinary text again: the star is a
      "variable" and the slash an "operator". */
  lemma TextAfterComment(line: seq<char>)
    requires line == " c */"
    ensures RunLine(Base, line, 0) == LineRun(Base, [Null, Variable, Null, Variable, Operator])
  {
    TextAfterCommentSteps(line);
    assert RunLine(Base, line, 4) == LineRun(Base, [Operator]);
    assert RunLine(Base, line, 3) == LineRun(Base, [Variable, Operator]);
    assert RunLine(Base, line, 2) == LineRun(Base, [Null, Variable, Operator]);
    assert RunLine(Base, line, 1) == LineRun(Base, [Variable, Null, Variable, Operator]);
  }

  /** The star of the opener does not close the comment. */
  lemma SlashStarSlashStaysOpen()
    ensures TokenStep(Base, "/*/", 0) == Step(3, Comment, InComment)
  {
  }

  /** Radix-prefixed numbers and hash symbols are single tokens. */
  lemma HashLiterals()
    ensures TokenStep(Base, "#b1010", 0) == Step(6, Number, Base)
    ensures TokenStep(Base, "#xFF", 0) == Step(4, Number, Base)
    ensures TokenStep(Base, "#o17", 0) == Step(4, Number, Base)
    ensures TokenStep(Base, "#b", 0) == Step(2, Number, Base)
    ensures TokenStep(Base, "#foo", 0) == Step(4, Atom, Base)
  {
  }

  /** `define` is matched without a word boundary: `defined` is a "def" for
      `define` followed by a "variable" for `d`. */
  lemma DefineIsAPrefixMatch()
    ensures RunLine(Base, "define", 0) == LineRun(Base, [Def])
    ensures RunLine(Base, "defined", 0) == LineRun(Base, [Def, Variable])
  {
    var line := "defined";
    ScanWhileIs(line, 0, IsSpace, 0);
    assert HasPrefixAt(line, 0, "define");
    assert TokenStep(Base, line, 0) == Step(6, Def, Base);
    ScanWhileIs(line, 6, IsSpace, 6);
    ScanWhileIs(line, 6, IsSymbolChar, 7);
    assert TokenStep(Base, line, 6) == Step(7, Variable, Base);
    assert RunLine(Base, line, 6) == LineRun(Base, [Variable]);
    line := "define";
    ScanWhileIs(line, 0, IsSpace, 0);
    assert HasPrefixAt(line, 0, "define");
    assert TokenStep(Base, line, 0) == Step(6, Def, Base);
  }

  /** Numbers: only a lower-case `e` starts an exponent, and an exponent needs a digit. */
  lemma Numbers()
    ensures TokenStep(Base, "12.5e+3", 0) == Step(7, Number, Base)
    ensures TokenStep(Base, "1E5", 0) == Step(1, Number, Base)
    ensures TokenStep(Base, "1e+x", 0) == Step(1, Number, Base)
  {
  }

  /** A header keyword line: keyword, colon and the following space in one
      token, then one "header-value" per character. */
  lemma HeaderKeywordLine()
    ensures RunLine(Header, "Module: ab", 0) == LineRun(Header, [HeaderKeyword, HeaderValue, HeaderValue])
  {
    var line := "Module: ab";
    ScanWhileIs(line, 0, IsSpace, 0);
    ScanWhileIs(line, 1, IsKeywordChar, 6);
    assert KeywordMatch(line, 0) == Some(7);
    assert TokenStep(Header, line, 0) == Step(8, HeaderKeyword, Header);
    ScanWhileIs(line, 8, IsSpace, 8);
    assert TokenStep(Header, line, 8) == Step(9, HeaderValue, Header);
    ScanWhileIs(line, 9, IsSpace, 9);
    assert TokenStep(Header, line, 9) == Step(10, HeaderValue, Header);
    assert RunLine(Header, line, 9) == LineRun(Header, [HeaderValue]);
    assert RunLine(Header, line, 8) == LineRun(Header, [HeaderValue, HeaderValue]);
  }

  /** `\w` admits digits, so a keyword may start with one. */
  lemma DigitHeaderKeyword()
    ensures RunLine(Header, "2nd: x", 0) == LineRun(Header, [HeaderKeyword, HeaderValue])
  {
    var line := "2nd: x";
    ScanWhileIs(line, 0, IsSpace, 0);
    ScanWhileIs(line, 1, IsKeywordChar, 3);
    assert KeywordMatch(line, 0) == Some(4);
    assert TokenStep(Header, line, 0) == Step(5, HeaderKeyword, Header);
    ScanWhileIs(line, 5, IsSpace, 5);
    assert TokenStep(Header, line, 5) == Step(6, HeaderValue, Header);
    assert RunLine(Header, line, 5) == LineRun(Header, [HeaderValue]);
  }

  /** An indented line is never a keyword line: the white space is `null` and the
      cursor is no longer at the start of the line. */
  lemma IndentedHeaderLine()
    ensures RunLine(Header, " a: b", 0) == LineRun(Header, [Null, HeaderValue, HeaderValue, Null, HeaderValue])
  {
  }

  /** A line of white space only is one `null` token, whatever is installed. */
  lemma WhiteSpaceLine(tok: Tok)
    ensures RunLine(tok, " \t ", 0) == LineRun(tok, [Null])
  {
  }
}
