/**
 * Character classification used by the lexer, and reading the input as a
 * NUL-terminated buffer.
 */
module Chars {

  /** The terminator of the source buffer. */
  const NUL: char := '\0'

  /**
   * The character at index `i` of a NUL-terminated buffer whose characters
   * before the terminator are `src`: reading at or past the end gives NUL.
   */
  function At(src: string, i: nat): char
  {
    if i < |src| then src[i] else NUL
  }

  /** `src` can be the text of a NUL-terminated buffer: it holds no NUL itself. */
  predicate Terminable(src: string)
  {
    NUL !in src
  }

  /** In a buffer holding no NUL, the first NUL is read exactly at the end. */
  lemma AtEnd(src: string, i: nat)
    requires Terminable(src) && i <= |src|
    ensures At(src, i) == NUL <==> i == |src|
  {
  }

  /** Space, newline, tab or carriage return: all of them ASCII control or space characters, none of them the terminator. */
  function IsBlank(c: char): (b: bool)
    ensures b ==> NUL < c <= ' '
  {
    c == ' ' || c == '\n' || c == '\t' || c == '\r'
  }

  /** An ASCII letter or the underscore. */
  function IsAlpha(c: char): (b: bool)
    ensures b ==> 'A' <= c <= 'z' && !('0' <= c <= '9')
  {
    ('A' <= c <= 'Z') || ('a' <= c <= 'z') || c == '_'
  }

  /** A decimal digit. */
  function IsDigit(c: char): (b: bool)
    ensures b <==> 0 <= c as int - '0' as int < 10
  {
    '0' <= c <= '9'
  }

  /** A letter, digit or underscore: never a blank and never the terminator. */
  function IsAlphaNumeric(c: char): (b: bool)
    ensures b ==> '0' <= c <= 'z' && !IsBlank(c)
  {
    IsAlpha(c) || IsDigit(c)
  }

  /** The characters operators are spelled with (no caller in the lexer). */
  function IsOperator(c: char): (b: bool)
    ensures b ==> '!' <= c <= '|' && !IsAlphaNumeric(c) && !IsBlank(c)
  {
    c == '+' || c == '-' || c == '*' || c == '/' || c == '%' || c == '=' || c == '<' ||
    c == '>' || c == '!' || c == '.' || c == '&' || c == '|'
  }

  /** Brackets, braces, parentheses, semicolon and comma: never a letter, digit, blank or operator character. */
  function IsDelimiter(c: char): (b: bool)
    ensures b ==> !IsAlphaNumeric(c) && !IsBlank(c) && !IsOperator(c)
  {
    c == '(' || c == ')' || c == '{' || c == '}' || c == '[' || c == ']' || c == ';' || c == ','
  }

  /** The classes are disjoint: a character is at most one of blank, alphanumeric, delimiter and operator character. */
  lemma ClassesAreDisjoint(c: char)
    ensures IsBlank(c) ==> !IsAlphaNumeric(c) && !IsDelimiter(c) && !IsOperator(c)
    ensures IsAlphaNumeric(c) ==> !IsDelimiter(c) && !IsOperator(c)
    ensures IsDelimiter(c) ==> !IsOperator(c)
    ensures c == NUL || c == '"' ==> !IsBlank(c) && !IsAlphaNumeric(c) && !IsDelimiter(c) && !IsOperator(c)
  {
  }
}
