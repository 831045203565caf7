/**
 The character classes of the HTTP parser. A C char is modelled by a Dafny char below 256;
 the parser treats all of the upper half alike. Every class that depends on the strict mode
 takes it as an argument.
 */
module HttpChars {
  const CR: char := '\r'
  const LF: char := '\n'
  const NUL: char := '\0'
  const SP: char := ' '
  const HT: char := '\t'

  predicate IsNum(c: char) { '0' <= c <= '9' }

  predicate IsUpper(c: char) { 'A' <= c <= 'Z' }

  predicate IsLetter(c: char) { 'a' <= c <= 'z' || IsUpper(c) }

  predicate IsAlphaNum(c: char) { IsLetter(c) || IsNum(c) }

  predicate IsHex(c: char) { IsNum(c) || 'a' <= c <= 'f' || 'A' <= c <= 'F' }

  predicate IsMark(c: char) { c in "-_.!~*'()" }

  predicate IsUserinfoChar(c: char) { IsAlphaNum(c) || IsMark(c) || c in "%;:&=+$," }

  predicate IsHostChar(strict: bool, c: char) {
    IsAlphaNum(c) || c == '.' || c == '-' || (!strict && c == '_')
  }

  predicate IsBlank(c: char) { c == SP || c == HT }

  predicate IsBreak(c: char) { c == CR || c == LF }

  /** LOWER: sets the bit that tells lower from upper case, in any character. */
  function LowerBit(c: char): char {
    if c as int < 256 && (c as int / 32) % 2 == 0 then (c as int + 32) as char else c
  }

  /** The tokens table: zero, or the character with letters in lower case. */
  function StrictToken(c: char): char {
    if IsUpper(c) then (c as int + 32) as char
    else if IsAlphaNum(c) || c in "!#$%&'*+-.^_`|~" then c
    else NUL
  }

  function Token(strict: bool, c: char): char {
    if !strict && c == SP then SP else StrictToken(c)
  }

  /** The bits of normal_url_char: printable, but not a space, '#', '?' or DEL. */
  predicate IsNormalUrlChar(strict: bool, c: char) {
    ('!' <= c <= '~' && c != '#' && c != '?') || (!strict && (c == HT || c == '\U{c}'))
  }

  predicate IsUrlChar(strict: bool, c: char) {
    IsNormalUrlChar(strict, c) || (!strict && c as int >= 128)
  }

  predicate IsHeaderChar(c: char) {
    c == CR || c == LF || c == HT || (c as int > 31 && c as int != 127)
  }

  /** The unhex table lists 128 entries of 256; the others are zero, so that characters of the
      upper half count as the digit 0. */
  function Unhex(c: char): int {
    if IsNum(c) then c as int - '0' as int
    else if 'a' <= c <= 'f' then c as int - 'a' as int + 10
    else if 'A' <= c <= 'F' then c as int - 'A' as int + 10
    else if c as int >= 128 then 0
    else -1
  }

  function At(s: string, i: nat): char { if i < |s| then s[i] else NUL }
}
