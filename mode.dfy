/** The Dylan mode's state object and its tokenizers, run in place the way the
    mode runs them: each call advances the stream's cursor and may reassign
    `tokenize`. Every method is proved to do what the corresponding function of
    `Tokenizer` describes. */
module DylanMode {
  import opened CharClass
  import opened Stream
  import opened Lexemes
  import opened Tokenizer

  /** The indentation context that `startState` creates. Nothing reads or
      changes it afterwards; it is kept as an inert record. */
  datatype Context = Context(indented: int, column: int, kind: string, align: bool, prev: Option<Context>)

  /** The object returned by `startState`, updated by `token` and `blankLine`. */
  class DylanState {
    var tokenize: Tok
    var context: Context
    var indented: int

    /** The mode only ever installs the tokenizers `IsInstalled` admits. */
    ghost predicate Valid()
      reads this
    {
      IsInstalled(tokenize)
    }

    /** `startState(baseColumn)`: header mode, and a root context one
        indentation unit left of `baseColumn` (0 when the editor passes none). */
    constructor (baseColumn: Option<int>, indentUnit: int)
      ensures Valid() && tokenize == Header && indented == 0
      ensures context == Context((if baseColumn.Some? then baseColumn.value else 0) - indentUnit, 0, "top", false, None)
    {
      tokenize := Header;
      context := Context((if baseColumn.Some? then baseColumn.value else 0) - indentUnit, 0, "top", false, None);
      indented := 0;
    }

    /** `tokenHeader` */
    method TokenHeader(stream: StringStream) returns (style: Style)
      requires stream.Valid()
      modifies stream
      ensures stream.Valid()
      ensures stream.pos == HeaderStep(stream.str, old(stream.pos)).pos
      ensures style == HeaderStep(stream.str, old(stream.pos)).style
    {
      var keyword := false;
      if stream.Sol() {
        keyword := stream.MatchRegex(KeywordMatch(stream.str, stream.pos));
      }
      var _ := stream.Next();
      style := if keyword then HeaderKeyword else HeaderValue;
    }

    /** `chain(stream, state, f)`: install `f` and run it at once. */
    method Chain(stream: StringStream, f: Tok) returns (style: Style)
      requires stream.Valid() && (f.InString? || f == InComment)
      modifies this, stream
      ensures stream.Valid() && context == old(context) && indented == old(indented)
      ensures Step(stream.pos, style, tokenize) ==
              if f.InString? then StringStep(stream.str, old(stream.pos), f.quote, f.style)
              else CommentStep(stream.str, old(stream.pos))
    {
      tokenize := f;
      if f.InString? {
        style := TokenString(stream);
      } else {
        style := TokenComment(stream);
      }
    }

    /** `tokenBase` */
    method TokenBase(stream: StringStream) returns (style: Style)
      requires stream.Valid() && tokenize == Base
      modifies this, stream
      ensures stream.Valid() && context == old(context) && indented == old(indented)
      ensures Step(stream.pos, style, tokenize) == BaseStep(stream.str, old(stream.pos))
    {
      var ch := stream.Peek();
      if ch == Some('"') || ch == Some('\'') {
        var _ := stream.Next();
        style := Chain(stream, InString(ch.value, String));
      } else if ch == Some('/') {
        var _ := stream.Next();
        var star := stream.Eat('*');
        if star {
          style := Chain(stream, InComment);
        } else {
          var slash := stream.Eat('/');
          if slash {
            stream.SkipToEnd();
            style := Comment;
          } else {
            var _ := stream.SkipTo(' ');
            style := Operator;
          }
        }
      } else if ch.Some? && IsDigit(ch.value) {
        var _ := stream.MatchRegex(Some(NumberEnd(stream.str, stream.pos)));
        style := Number;
      } else if ch == Some('#') {
        var _ := stream.Next();
        ch := stream.Peek();
        if ch == Some('"') {
          var _ := stream.Next();
          style := Chain(stream, InString('"', Atom));
        } else if ch == Some('b') {
          var _ := stream.Next();
          var _ := stream.EatWhile(IsBinDigit);
          style := Number;
        } else if ch == Some('x') {
          var _ := stream.Next();
          var _ := stream.EatWhile(IsHexDigit);
          style := Number;
        } else if ch == Some('o') {
          var _ := stream.Next();
          var _ := stream.EatWhile(IsOctDigit);
          style := Number;
        } else {
          var _ := stream.EatWhile(IsHashSymbolChar);
          style := Atom;
        }
      } else {
        var define := stream.MatchString("define");
        if define {
          style := Def;
        } else {
          var symbol := stream.MatchRegex(SymbolMatch(stream.str, stream.pos));
          if symbol {
            style := Variable;
          } else {
            var _ := stream.Next();
            style := Null;
          }
        }
      }
    }

    /** The closure made by `tokenString(quote, type)`; `quote` and `type` are
        the ones held in the installed tokenizer. */
    method TokenString(stream: StringStream) returns (style: Style)
      requires stream.Valid() && tokenize.InString?
      modifies this, stream
      ensures stream.Valid() && context == old(context) && indented == old(indented)
      ensures Step(stream.pos, style, tokenize) ==
              StringStep(stream.str, old(stream.pos), old(tokenize).quote, old(tokenize).style)
    {
      var quote, kind := tokenize.quote, tokenize.style;
      var end := false;
      while true
        modifies stream
        invariant stream.Valid() && old(stream.pos) <= stream.pos
        invariant forall i :: old(stream.pos) <= i < stream.pos ==> stream.str[i] != quote
        decreases |stream.str| - stream.pos
      {
        var next := stream.Next();
        if next.None? {
          break;
        }
        if next.value == quote {
          end := true;
          break;
        }
      }
      if end {
        tokenize := Base;
      }
      style := kind;
    }

    /** `tokenComment` */
    method TokenComment(stream: StringStream) returns (style: Style)
      requires stream.Valid() && tokenize == InComment
      modifies this, stream
      ensures stream.Valid() && context == old(context) && indented == old(indented)
      ensures Step(stream.pos, style, tokenize) == CommentStep(stream.str, old(stream.pos))
    {
      var start := stream.pos;
      var maybeEnd := false;
      while true
        modifies this, stream
        invariant stream.Valid() && start <= stream.pos
        invariant tokenize == InComment && context == old(context) && indented == old(indented)
        invariant maybeEnd <==> start < stream.pos && stream.str[stream.pos - 1] == '*'
        invariant forall i :: start < i < stream.pos ==> !ClosesAt(stream.str, start, i)
        decreases |stream.str| - stream.pos
      {
        var ch := stream.Next();
        if ch.None? {
          assert CommentClose(stream.str, start, start + 1).None?;
          break;
        }
        if ch.value == '/' && maybeEnd {
          assert ClosesAt(stream.str, start, stream.pos - 1);
          tokenize := Base;
          break;
        }
        maybeEnd := ch.value == '*';
      }
      style := Comment;
    }

    /** `token`: skip white space as `null`, otherwise run the installed tokenizer. */
    method Token(stream: StringStream) returns (style: Style)
      requires stream.Valid() && Valid()
      modifies this, stream
      ensures stream.Valid() && Valid()
      ensures context == old(context) && indented == old(indented)
      ensures Step(stream.pos, style, tokenize) == TokenStep(old(tokenize), stream.str, old(stream.pos))
    {
      var space := stream.EatSpace();
      if space {
        return Null;
      }
      match tokenize {
        case Header =>
          style := TokenHeader(stream);
        case Base =>
          style := TokenBase(stream);
        case InString(_, _) =>
          style := TokenString(stream);
        case InComment =>
          style := TokenComment(stream);
      }
    }

    /** `blankLine`: leave header mode; any other tokenizer stays installed. */
    method BlankLine()
      requires Valid()
      modifies this
      ensures Valid()
      ensures tokenize == AfterBlankLine(old(tokenize))
      ensures context == old(context) && indented == old(indented)
    {
      if tokenize == Header {
        tokenize := Base;
      }
    }
  }
}
