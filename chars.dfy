/** Character classes of the regular expressions the Dylan mode uses.
    Each predicate is one bracket expression or escape of JavaScript's
    regex syntax, written out as a test on one character. */
module CharClass {

  /** `\d`: an ASCII decimal digit. */
  predicate IsDigit(c: char) {
    '0' <= c <= '9'
  }

  /** `\w`: an ASCII letter, an ASCII digit or `_` (JavaScript regexes
      without the `u` flag know no other word characters). */
  predicate IsWordChar(c: char) {
    'a' <= c <= 'z' || 'A' <= c <= 'Z' || IsDigit(c) || c == '_'
  }

  /** `[\w\d-]`: the characters that may follow the first one of a header keyword. */
  predicate IsKeywordChar(c: char) {
    IsWordChar(c) || c == '-'
  }

  /** `[-_a-zA-Z?!*@<>$%]`: the characters of a Dylan symbol (`symbolPattern`). */
  predicate IsSymbolChar(c: char) {
    'a' <= c <= 'z' || 'A' <= c <= 'Z' ||
    c == '-' || c == '_' || c == '?' || c == '!' || c == '*' ||
    c == '@' || c == '<' || c == '>' || c == '$' || c == '%'
  }

  /** `[-a-zA-Z]`: the characters of a hash symbol such as `#t` or `#key`. */
  predicate IsHashSymbolChar(c: char) {
    'a' <= c <= 'z' || 'A' <= c <= 'Z' || c == '-'
  }

  /** `[01]` */
  predicate IsBinDigit(c: char) {
    c == '0' || c == '1'
  }

  /** `[0-7]` */
  predicate IsOctDigit(c: char) {
    '0' <= c <= '7'
  }

  /** `/[\da-f]/i`: a hexadecimal digit in either case. */
  predicate IsHexDigit(c: char) {
    IsDigit(c) || 'a' <= c <= 'f' || 'A' <= c <= 'F'
  }

  /** `[\s\u00a0]`: JavaScript's white space and line terminators
      (tab, line feed, vertical tab, form feed, carriage return, space,
      no-break space, the Unicode space separators, line and paragraph
      separators, and the byte order mark). */
  predicate IsSpace(c: char) {
    var n := c as int;
    n == 0x20 || 0x09 <= n <= 0x0D || n == 0xA0 || n == 0x1680 ||
    0x2000 <= n <= 0x200A || n == 0x2028 || n == 0x2029 || n == 0x202F ||
    n == 0x205F || n == 0x3000 || n == 0xFEFF
  }
}
