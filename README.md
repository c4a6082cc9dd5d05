# Dylan syntax-highlighting mode — verified model

This project models the tokenizer of CodeMirror's Dylan mode (`mode/dylan/dylan.js`).
The editor hands the mode one line at a time, as a stream with a cursor, and calls
`token` repeatedly until the line is exhausted, or `blankLine` for an empty line.
Each call advances the cursor and returns a category ("header-keyword",
"header-value", "string", "comment", "number", "atom", "operator", "def",
"variable" or `null`).

All the mode's state is `state.tokenize`, which holds one of four tokenizers:

- `tokenHeader`, installed by `startState`, for the `keyword: value` header of a Dylan file;
- `tokenBase`, for the program body, installed by the first empty line;
- a `tokenString(quote, type)` closure, which stays installed across lines until the quote closes;
- `tokenComment`, which stays installed until a star-slash closes the block comment.

The model has these parts:

- `chars.dfy` (`CharClass`): the character classes of the mode's regular expressions.
- `stream.dfy` (`Stream`): the stream primitives the mode relies on (`sol`, `peek`, `next`, `eat`,
  `eatWhile`, `eatSpace`, `match`, `skipTo`, `skipToEnd`). They are stated as functions over
  `(line, pos)` and used by a `StringStream` class whose cursor the tokenizers advance in place.
- `lexemes.dfy` (`Lexemes`): the three regular expressions used with `match` (header keyword,
  decimal number, symbol). Each is given as a greedy scan and proved against the language the
  expression denotes.
- `tokenizer.dfy` (`Tokenizer`): each tokenizer as a function from line and cursor to a `Step`
  (new cursor, category, installed tokenizer). This is the reference definition, and the lemmas
  state the classification rules of `tokenBase`.
- `mode.dfy` (`DylanMode`): the state object as a class with `tokenize`, `context` and `indented`.
  Its methods mirror the JavaScript functions, including the `while` loops of the string and
  comment continuations, and each is proved equal to the corresponding `Tokenizer` function.
- `document.dfy` (`Document`): the editor's calls over a line and over a document. Properties that
  span many calls: the line loop terminates, the header ends exactly at the first empty line and
  never comes back, and header categories appear only before it.
- `examples.dfy` (`Examples`): concrete lines and their categories.

Notes on what the code does:

- An exponent is introduced by a lower-case `e` only; `1E5` is the number `1` followed by other tokens.
- A header keyword token takes the keyword, its colon and the one character after the colon.
- `define` is matched as a bare prefix, so `defined` is a "def" (`define`) followed by a "variable" (`d`).
- In header mode, white space yields `null`; a header line therefore gives "header-keyword",
  "header-value" and `null` categories.
- White space is JavaScript's `\s` class (tab, line terminators, space, the Unicode space
  separators, the byte order mark) plus no-break space.
- A header keyword may start with a digit or `_` (`\w`), although the comment above
  `tokenHeader` says it starts with a letter.

## Model

| member | source | states |
|---|---|---|
| `CharClass.IsDigit` | mode/dylan/dylan.js:61-62 | `\d`: an ASCII decimal digit |
| `CharClass.IsWordChar` | mode/dylan/dylan.js:30 | `\w`: an ASCII letter, digit or underscore |
| `CharClass.IsKeywordChar` | mode/dylan/dylan.js:30 | `[\w\d-]`: a word character or a hyphen |
| `CharClass.IsSymbolChar` | mode/dylan/dylan.js:10 | `[-_a-zA-Z?!*@<>$%]`: the symbol characters |
| `CharClass.IsHashSymbolChar` | mode/dylan/dylan.js:94 | `[-a-zA-Z]`: the characters after a plain `#` |
| `CharClass.IsBinDigit` | mode/dylan/dylan.js:77 | `[01]` after `#b` |
| `CharClass.IsHexDigit` | mode/dylan/dylan.js:83 | `[\da-f]` case-insensitively, after `#x` |
| `CharClass.IsOctDigit` | mode/dylan/dylan.js:89 | `[0-7]` after `#o` |
| `CharClass.IsSpace` | mode/dylan/dylan.js:155 | `[\s\u00a0]`: JavaScript white space and line terminators plus no-break space |
| `Stream.StringStream.Sol` | mode/dylan/dylan.js:30 | `sol`: the cursor is at position 0 of the line |
| `Stream.HasPrefixAt` | mode/dylan/dylan.js:99 | the line continues at the cursor with the given text, character for character |
| `Stream.ScanWhile` | mode/dylan/dylan.js:77 | `eatWhile` stops at the first character that fails the class: everything before it passes, the character after it fails or the line ends |
| `Stream.IndexOf` | mode/dylan/dylan.js:56 | the first occurrence of a character at or after the cursor, with no earlier one; or none on the rest of the line |
| `Stream.SkipToTarget` | mode/dylan/dylan.js:56 | `skipTo(" ")` lands on the next space and skips no space; with no space ahead the cursor stays where it was |
| `Stream.StringStream.Peek` | mode/dylan/dylan.js:39 | the character under the cursor, or nothing at the end of the line |
| `Stream.StringStream.Next` | mode/dylan/dylan.js:110 | consumes and returns one character; at the end of the line returns nothing and does not move |
| `Stream.StringStream.Eat` | mode/dylan/dylan.js:48-51 | consumes the next character exactly when it is the given one |
| `Stream.StringStream.EatWhile` | mode/dylan/dylan.js:94 | moves the cursor to the end of the greedy run; reports whether it moved |
| `Stream.StringStream.EatSpace` | mode/dylan/dylan.js:155 | moves the cursor past the run of white space; reports whether there was any |
| `Stream.StringStream.MatchString` | mode/dylan/dylan.js:99 | consumes the text exactly when the line continues with it, case-sensitively |
| `Stream.StringStream.MatchRegex` | mode/dylan/dylan.js:101 | consumes a regex match only when it starts at the cursor; otherwise leaves the cursor |
| `Stream.StringStream.SkipToEnd` | mode/dylan/dylan.js:52 | the cursor goes to the end of the line |
| `Stream.StringStream.SkipTo` | mode/dylan/dylan.js:56 | moves onto the next occurrence of the character if there is one, else stays |
| `Lexemes.KeywordMatch` | mode/dylan/dylan.js:30 | the match of `\w[\w\d-]*:` at the cursor ends just past a colon preceded by a word character and keyword characters; when it fails, no colon position at all forms such a keyword |
| `Lexemes.FractionEnd` | mode/dylan/dylan.js:62 | the greedy fraction part is a well-formed `(\.\d*)?` |
| `Lexemes.ExponentEnd` | mode/dylan/dylan.js:62 | the greedy exponent part is a well-formed `(e[+-]?\d+)?` |
| `Lexemes.NumberEnd` | mode/dylan/dylan.js:62 | the consumed text is a whole match of `\d*(\.\d*)?(e[+-]?\d+)?` |
| `Lexemes.NumberEndIsLongest` | mode/dylan/dylan.js:62 | no longer prefix of the line matches the number expression, so the match taken is the longest |
| `Lexemes.SymbolMatch` | mode/dylan/dylan.js:10-11 | `[-_a-zA-Z?!*@<>$%]+` matches exactly when the cursor is on a symbol character, and then takes the whole run |
| `Tokenizer.HeaderStep` | mode/dylan/dylan.js:29-36 | "header-keyword" exactly when the cursor is at the start of the line and a keyword with colon starts there, consuming up to two past the colon's position (bounded by the line); otherwise "header-value" for one character; header mode stays installed |
| `Tokenizer.StringStep` | mode/dylan/dylan.js:107-120 | returns the installed type; reinstalls `tokenBase` exactly when the quote occurs on the rest of the line, consuming through its first occurrence only; otherwise consumes the whole line and stays installed |
| `Tokenizer.CommentClose` | mode/dylan/dylan.js:124-130 | the first position at which a star read by this scan is followed by a slash, or none |
| `Tokenizer.CommentStep` | mode/dylan/dylan.js:122-132 | "comment" always; reinstalls `tokenBase` exactly when a star-slash is read on the rest of the line, consuming through the first one; otherwise consumes the line and stays installed |
| `Tokenizer.BaseStep` | mode/dylan/dylan.js:38-105 | `tokenBase` consumes at least one character of a non-empty rest of line, never returns a header category, never installs `tokenHeader`, and installs only a string or comment continuation, which then owns the rest of the line |
| `Tokenizer.BaseQuote` | mode/dylan/dylan.js:41-44 | a `"` or `'` gives "string" and runs the string continuation from after the quote: the token ends just past the first later occurrence of the same quote, reinstalling `tokenBase`, or at the end of the line with that quote's continuation installed |
| `Tokenizer.BaseBlockComment` | mode/dylan/dylan.js:46-50 | slash-star runs the comment continuation from after the star, so the opener's star does not count towards a close |
| `Tokenizer.BaseLineComment` | mode/dylan/dylan.js:51-54 | two slashes make the rest of the line a "comment" with `tokenBase` kept |
| `Tokenizer.BaseOperator` | mode/dylan/dylan.js:55-58 | any other slash is an "operator" reaching up to, not including, the next space; with no space after it only the slash is consumed |
| `Tokenizer.BaseNumber` | mode/dylan/dylan.js:61-64 | a leading digit gives a "number" that is the longest prefix matching the decimal expression |
| `Tokenizer.BaseHash` | mode/dylan/dylan.js:66-97 | `#"` opens an "atom" string; `#b`, `#x` and `#o` are "number"s taking all following binary, hex or octal digits (possibly none); any other `#` is an "atom" taking all following letters and hyphens |
| `Tokenizer.BaseWord` | mode/dylan/dylan.js:99-104 | `define` at the cursor is a "def" of six characters whatever follows; else a symbol character starts a maximal "variable"; else one character with no category |
| `Tokenizer.TokenStep` | mode/dylan/dylan.js:152-157 | every call on a non-exhausted line advances; white space is `null` with the tokenizer unchanged in every mode; header mode is neither left nor entered; installed tokenizers stay in the installed set; header categories occur exactly in header mode |
| `Tokenizer.AfterBlankLine` | mode/dylan/dylan.js:165-170 | after an empty line the header is replaced by `tokenBase`; any other tokenizer (an open string or comment) is kept |
| `DylanMode.DylanState.constructor` | mode/dylan/dylan.js:144-150 | a fresh state starts in header mode with the root context one indentation unit left of the base column and `indented` 0 |
| `DylanMode.DylanState.TokenHeader` | mode/dylan/dylan.js:29-36 | moves the cursor and returns the category exactly as `HeaderStep` says |
| `DylanMode.DylanState.Chain` | mode/dylan/dylan.js:4-7 | installs the continuation and returns what running it gives |
| `DylanMode.DylanState.TokenBase` | mode/dylan/dylan.js:38-105 | cursor, category and installed tokenizer afterwards are those of `BaseStep` |
| `DylanMode.DylanState.TokenString` | mode/dylan/dylan.js:107-120 | the scanning loop ends where `StringStep` says, with the same category and tokenizer |
| `DylanMode.DylanState.TokenComment` | mode/dylan/dylan.js:122-132 | the loop with its one-character lookback ends where `CommentStep` says and reinstalls `tokenBase` exactly when it closed |
| `DylanMode.DylanState.Token` | mode/dylan/dylan.js:152-157 | the call does what `TokenStep` says, keeps the installed tokenizer in the installed set and leaves the context untouched |
| `DylanMode.DylanState.BlankLine` | mode/dylan/dylan.js:165-170 | the new tokenizer is `AfterBlankLine` of the old one; nothing else changes |
| `Document.RunLine` | mode/dylan/dylan.js:152-157 | calling `token` to the end of a line takes at most one call per character; header mode is kept exactly when it was on; only header categories or `null` in header mode and none in body mode |
| `Document.RunAnyLineFacts` | mode/dylan/dylan.js:165-170 | an empty line yields no token and installs what `blankLine` installs (`tokenBase` after the header); another line keeps header mode exactly when it was on; header categories only in header mode |
| `Document.RunDocument` | mode/dylan/dylan.js:152-170 | one sequence of categories per line of the document |
| `Document.RunDocumentAppend` | mode/dylan/dylan.js:152-170 | tokenizing a document is tokenizing its first part, then the rest from the tokenizer left installed |
| `Document.HeaderWithoutBlankLine` | mode/dylan/dylan.js:29-36 | without an empty line the whole document is header: the mode stays in header mode and yields only header categories or `null` |
| `Document.BodyStaysBody` | mode/dylan/dylan.js:165-170 | once out of header mode, no later line returns to it or yields a header category |
| `Document.HeaderUntilFirstBlankLine` | mode/dylan/dylan.js:144-170 | from `startState`, with `head` free of empty lines and `tail` opening with one: lines of `head` follow header rules; the empty line yields nothing; every later line is tokenized exactly as a document started in `tokenBase`, and no line from the empty one on has a header category |
| `Document.HeaderThenBlankLine` | mode/dylan/dylan.js:165-170 | header lines followed by an empty line: the categories are the header lines' own, nothing for the empty line, then the rest run from `tokenBase` |
| `Document.BlankLineFirst` | mode/dylan/dylan.js:165-170 | a document opening with an empty line gives nothing for it and runs the rest from the tokenizer `blankLine` installs |
| `Examples.StringOnOneLine` | mode/dylan/dylan.js:41-44 | `"abc"` is one "string" token and gives `tokenBase` back |
| `Examples.UnterminatedString` | mode/dylan/dylan.js:107-120 | `"abc` is "string" to the end of the line and the continuation stays installed |
| `Examples.StringAcrossLines` | mode/dylan/dylan.js:107-120 | a string opened on one line is resumed and closed on the next, after which body text follows |
| `Examples.CommentsDoNotNest` | mode/dylan/dylan.js:122-132 | in a comment holding a second opener, the first star-slash closes the comment |
| `Examples.TextAfterCommentSteps` | mode/dylan/dylan.js:152-157 | on ` c */` in body mode, each `token` call consumes one character: `null` for each space, "variable" for `c` and for the star, "operator" for the final slash |
| `Examples.TextAfterComment` | mode/dylan/dylan.js:55-58 | the text after a comment's close is body text: the stray star is a "variable" and the slash with no space after it an "operator" |
| `Examples.SlashStarSlashStaysOpen` | mode/dylan/dylan.js:46-49 | slash-star-slash leaves the comment open |
| `Examples.HashLiterals` | mode/dylan/dylan.js:66-97 | `#b1010`, `#xFF`, `#o17` and a bare `#b` are single "number" tokens; `#foo` is an "atom" |
| `Examples.DefineIsAPrefixMatch` | mode/dylan/dylan.js:99-100 | `define` is one "def"; `defined` is "def" then "variable" |
| `Examples.Numbers` | mode/dylan/dylan.js:61-64 | `12.5e+3` is one number; in `1E5` and `1e+x` only the `1` is |
| `Examples.HeaderKeywordLine` | mode/dylan/dylan.js:29-33 | `Module: ab` gives a keyword token of eight characters (keyword, colon and the space after it) and then one "header-value" per character |
| `Examples.DigitHeaderKeyword` | mode/dylan/dylan.js:29-33 | a keyword may start with a digit: `2nd: x` opens with a "header-keyword" token |
| `Examples.IndentedHeaderLine` | mode/dylan/dylan.js:155 | an indented header line never yields a keyword |
| `Examples.WhiteSpaceLine` | mode/dylan/dylan.js:155 | a line of white space is a single `null` token in every mode |

## Left out

- `CodeMirror.defineMode` and `CodeMirror.defineMIME` (lines 1 and 176): they only register the mode with the editor.
- `indent` (lines 159-163) always answers 0. `electricChars` (line 172) is editor configuration. Neither has behaviour to state.
- The `patterns` table (lines 13-22) is built but never used by any tokenizer.
- The `Context` record (lines 134-140) is created by `startState` and never read or changed.
  It is kept as an inert field, and the unused `ctx` variable of `token` (line 153) is not modelled.
- `config.indentUnit` is a parameter of the constructor. `baseColumn` is an optional integer: an
  absent value counts as 0, as `baseColumn || 0` makes it. Non-numeric JavaScript values are not modelled.
- The `state.tokenize || tokenBase` fallback (line 156): `tokenize` is always set, so the fallback never applies.
- The stream and regular-expression library is not part of this model. Only the behaviour the
  mode relies on is stated (`Stream`, `Lexemes`). `sol` is "the cursor is at position 0 of the line".
  `match` with a regular expression refuses a match that does not start at the cursor.
- The editor's own loop, repainting and the decision that a line is empty belong to the host.
  `Document` states them as the editor is assumed to drive the mode: `token` until the end of
  the line, and `blankLine` for an empty line only.
- Lines are sequences of Unicode scalar values. JavaScript strings, and with them the stream's
  positions, `next` and `peek`, count UTF-16 code units, so a character outside the Basic
  Multilingual Plane is two positions in the editor and one in this model. The model does not
  capture the extra `null` or "header-value" token, or the extra loop step, such a character
  causes there, and `Document.RunLine`'s bound of one call per character counts scalar values.
- `Document.RunDocument`: its own contract only fixes the number of lines. The header/body
  properties are stated by the lemmas next to it.
