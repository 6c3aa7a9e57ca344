/** ASCII character classes as Go's RE2 engine defines them (no Unicode classes are involved). */
module Chars {

  /** RE2 `\d`. */
  predicate IsDigit(c: char) {
    '0' <= c <= '9'
  }

  predicate IsAsciiLetter(c: char) {
    'A' <= c <= 'Z' || 'a' <= c <= 'z'
  }

  /** RE2 `\w`, that is `[0-9A-Za-z_]`. */
  predicate IsWordChar(c: char) {
    IsDigit(c) || IsAsciiLetter(c) || c == '_'
  }

  /** RE2 `\s`, that is `[\t\n\f\r ]` (no vertical tab). */
  predicate IsSpaceChar(c: char) {
    c == '\t' || c == '\n' || c == '\U{0c}' || c == '\r' || c == ' '
  }

  predicate AllDigits(s: string) {
    forall i :: 0 <= i < |s| ==> IsDigit(s[i])
  }

  function DigitValue(c: char): (d: nat)
    requires IsDigit(c)
    ensures d < 10
  {
    c as int - '0' as int
  }

  function DigitChar(d: nat): (c: char)
    requires d < 10
    ensures IsDigit(c) && DigitValue(c) == d
  {
    ('0' as int + d) as char
  }

  /** The number written by two decimal digits, as in a month, a day, an hour or a minute. */
  function TwoDigitValue(hi: char, lo: char): (n: nat)
    requires IsDigit(hi) && IsDigit(lo)
    ensures n < 100
  {
    10 * DigitValue(hi) + DigitValue(lo)
  }
}
