/** Small shared vocabulary: an optional value, integer min/max, and the
    character classes JavaScript regular expressions use. */
module Common {

  datatype Option<+T> = None | Some(value: T)

  function Max(a: int, b: int): int { if a < b then b else a }

  function Min(a: int, b: int): int { if a < b then a else b }

  /** The characters the regular-expression class `\s` matches: the
      ECMAScript WhiteSpace and LineTerminator code points. */
  predicate IsJsWhitespace(c: char)
  {
    || c == '\t' || c == '\n' || c == '\U{000B}' || c == '\U{000C}' || c == '\r'
    || c == ' ' || c == '\U{00A0}' || c == '\U{1680}'
    || ('\U{2000}' <= c <= '\U{200A}')
    || c == '\U{2028}' || c == '\U{2029}' || c == '\U{202F}' || c == '\U{205F}'
    || c == '\U{3000}' || c == '\U{FEFF}'
  }

  predicate NoWhitespace(s: seq<char>)
  {
    forall k :: 0 <= k < |s| ==> !IsJsWhitespace(s[k])
  }

  /** The characters the regular-expression class `\d` matches (no `u` flag). */
  predicate IsAsciiDigit(c: char)
  {
    '0' <= c <= '9'
  }
}
