/**
 * ASCII character classes (the C `isspace`, `isdigit`, `isalpha`,
 * `isalnum`, `isxdigit` in the "C" locale) and maximal runs of one class,
 * which is how the lexer and the number parsers delimit their lexemes.
 */
module Chars {

  /** Space, tab, newline, vertical tab, form feed, carriage return. */
  predicate IsSpace(c: char) {
    c == ' ' || ('\t' <= c <= '\r')
  }

  predicate IsDigit(c: char) {
    '0' <= c <= '9'
  }

  predicate IsAlpha(c: char) {
    ('a' <= c <= 'z') || ('A' <= c <= 'Z')
  }

  predicate IsAlnum(c: char) {
    IsAlpha(c) || IsDigit(c)
  }

  predicate IsHexDigit(c: char) {
    IsDigit(c) || ('a' <= c <= 'f') || ('A' <= c <= 'F')
  }

  /** A character that may start a word (Lexer.cpp:109). */
  predicate IsWordStart(c: char) {
    IsAlpha(c) || c == '_' || c == '.'
  }

  /** A character that may continue a word (Lexer.cpp:23-24). */
  predicate IsWordChar(c: char) {
    IsAlnum(c) || c == '_' || c == '.'
  }

  datatype CharClass = Space | Digit | Alnum | HexDigit | WordChar

  predicate InClass(c: char, cls: CharClass) {
    match cls
    case Space => IsSpace(c)
    case Digit => IsDigit(c)
    case Alnum => IsAlnum(c)
    case HexDigit => IsHexDigit(c)
    case WordChar => IsWordChar(c)
  }

  /** Every character of `s` belongs to `cls`. */
  predicate AllIn(s: string, cls: CharClass) {
    forall k :: 0 <= k < |s| ==> InClass(s[k], cls)
  }

  /**
   * The end of the maximal run of `cls` characters that starts at `start`:
   * everything in between is in the class and the character at the end,
   * if any, is not.
   */
  function RunEnd(s: string, start: nat, cls: CharClass): (e: nat)
    requires start <= |s|
    ensures start <= e <= |s|
    ensures forall k :: start <= k < e ==> InClass(s[k], cls)
    ensures e == |s| || !InClass(s[e], cls)
    decreases |s| - start
  {
    if start < |s| && InClass(s[start], cls) then RunEnd(s, start + 1, cls) else start
  }

  /** The maximal run is unique: any index with the two properties is it. */
  lemma {:induction false} RunEndUnique(s: string, start: nat, cls: CharClass, e: nat)
    requires start <= e <= |s|
    requires forall k :: start <= k < e ==> InClass(s[k], cls)
    requires e == |s| || !InClass(s[e], cls)
    ensures RunEnd(s, start, cls) == e
    decreases e - start
  {
    if start < e {
      RunEndUnique(s, start + 1, cls, e);
    }
  }
}
