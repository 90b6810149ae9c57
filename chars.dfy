/**
 * The character classes of Rust's `char` that the lexer uses. Whitespace and control
 * characters follow the Unicode tables exactly; numeric and alphabetic characters are
 * restricted to ASCII.
 */
module Chars {

  /** `char::is_whitespace`: the Unicode White_Space property. */
  predicate IsWhitespace(c: char) {
    ('\t' <= c <= '\r') || c == ' ' || c == '\U{85}' || c == '\U{A0}' || c == '\U{1680}'
    || ('\U{2000}' <= c <= '\U{200A}') || c == '\U{2028}' || c == '\U{2029}'
    || c == '\U{202F}' || c == '\U{205F}' || c == '\U{3000}'
  }

  /** `char::is_control`: the Unicode general category Cc. */
  predicate IsControl(c: char) {
    c <= '\U{1F}' || ('\U{7F}' <= c <= '\U{9F}')
  }

  predicate NotControl(c: char) {
    !IsControl(c)
  }

  /** `char::is_numeric`, restricted to the ASCII digits. */
  predicate IsNumeric(c: char) {
    '0' <= c <= '9'
  }

  /** `char::is_alphabetic`, restricted to the ASCII letters. */
  predicate IsAlphabetic(c: char) {
    ('a' <= c <= 'z') || ('A' <= c <= 'Z')
  }

  predicate IsAlphanumeric(c: char) {
    IsAlphabetic(c) || IsNumeric(c)
  }

  /** A character that may continue a name token: alphanumeric, `_`, `.` or `$`. */
  predicate IsNameChar(c: char) {
    IsAlphanumeric(c) || c == '_' || c == '.' || c == '$'
  }
}
