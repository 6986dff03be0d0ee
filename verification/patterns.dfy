/**
 * What the two allow-list regular expressions accept, stated character by
 * character: the identifier pattern `^[A-Za-z_][A-Za-z0-9_]*$` and the
 * column-type pattern `^[A-Z0-9_(),\s]+$`, both applied with `re.match`.
 */
module Patterns {

  predicate IsLetter(c: char) { 'A' <= c <= 'Z' || 'a' <= c <= 'z' }
  predicate IsDigit(c: char) { '0' <= c <= '9' }
  predicate IdentStart(c: char) { IsLetter(c) || c == '_' }
  predicate IdentChar(c: char) { IdentStart(c) || IsDigit(c) }

  /** The strings `[A-Za-z_][A-Za-z0-9_]*` spells out. */
  predicate IdentShape(s: string) {
    |s| > 0 && IdentStart(s[0]) && forall i | 1 <= i < |s| :: IdentChar(s[i])
  }

  /** An identifier followed by exactly one final newline. */
  predicate NewlineTail(s: string) {
    |s| > 0 && s[|s| - 1] == '\n' && IdentShape(s[..|s| - 1])
  }

  /** What `re.match` accepts: in Python `$` matches at the very end of the
      string and also just before a final newline. */
  predicate IdentMatch(s: string) { IdentShape(s) || NewlineTail(s) }

  /** `\s` on a Python str: the characters for which `str.isspace()` holds. */
  predicate IsSpace(c: char) {
    var n := c as int;
    (0x09 <= n <= 0x0D) || (0x1C <= n <= 0x20) || n == 0x85 || n == 0xA0 || n == 0x1680
    || (0x2000 <= n <= 0x200A) || n == 0x2028 || n == 0x2029 || n == 0x202F || n == 0x205F
    || n == 0x3000
  }

  /** One character of the class `[A-Z0-9_(),\s]`. */
  predicate TypeChar(c: char) {
    ('A' <= c <= 'Z') || IsDigit(c) || c == '_' || c == '(' || c == ')' || c == ',' || IsSpace(c)
  }

  /** The strings `^[A-Z0-9_(),\s]+$` accepts: one or more class characters
      (a final newline is itself a class character, so `$` adds nothing). */
  predicate TypeMatch(u: string) {
    |u| > 0 && forall i | 0 <= i < |u| :: TypeChar(u[i])
  }

  function UpperChar(c: char): char {
    if 'a' <= c <= 'z' then (c as int - 32) as char else c
  }

  /** `str.upper()` on ASCII letters; every other character is kept. */
  function Upper(s: string): (u: string)
    ensures |u| == |s|
    // No lower-case ASCII letter remains ...
    ensures forall i | 0 <= i < |u| :: !('a' <= u[i] <= 'z')
    // ... each one became its capital, and every other character is unchanged.
    ensures forall i | 0 <= i < |s| :: if 'a' <= s[i] <= 'z' then u[i] as int == s[i] as int - 32 else u[i] == s[i]
  {
    seq(|s|, i requires 0 <= i < |s| => UpperChar(s[i]))
  }
}
