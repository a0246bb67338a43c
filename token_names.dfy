/**
 * Printable names of the token tags.
 */
module TokenNames {
  import opened Wrappers
  import opened Tokens

  /**
   * The printable name of a tag: the enumerator's own spelling, except that
   * EOF_TOKEN prints as "EOF". Every tag of the closed set has a name.
   */
  function TypeName(t: TokenType): (name: string)
    ensures |name| > 0
    ensures name == "EOF" <==> t == EOF_TOKEN
  {
    match t
    case INVALID => "INVALID"
    case EOF_TOKEN => "EOF"
    case IF => "IF"
    case ELSE => "ELSE"
    case FOR => "FOR"
    case WHILE => "WHILE"
    case DO => "DO"
    case RETURN => "RETURN"
    case INT => "INT"
    case FLOAT => "FLOAT"
    case BOOL => "BOOL"
    case VOID => "VOID"
    case TRUE => "TRUE"
    case FALSE => "FALSE"
    case IDENTIFIER => "IDENTIFIER"
    case NUMBER => "NUMBER"
    case STRING => "STRING"
    case CHAR => "CHAR"
    case PLUS => "PLUS"
    case MINUS => "MINUS"
    case MULTIPLY => "MULTIPLY"
    case DIVIDE => "DIVIDE"
    case MODULO => "MODULO"
    case ASSIGN => "ASSIGN"
    case EQUAL => "EQUAL"
    case NOT_EQUAL => "NOT_EQUAL"
    case LESS_THAN => "LESS_THAN"
    case GREATER_THAN => "GREATER_THAN"
    case LESS_EQUAL => "LESS_EQUAL"
    case GREATER_EQUAL => "GREATER_EQUAL"
    case LOGICAL_AND => "LOGICAL_AND"
    case LOGICAL_OR => "LOGICAL_OR"
    case LOGICAL_NOT => "LOGICAL_NOT"
    case PARENTHESIS_OPEN => "PARENTHESIS_OPEN"
    case PARENTHESIS_CLOSE => "PARENTHESIS_CLOSE"
    case BRACE_OPEN => "BRACE_OPEN"
    case BRACE_CLOSE => "BRACE_CLOSE"
    case BRACKET_OPEN => "BRACKET_OPEN"
    case BRACKET_CLOSE => "BRACKET_CLOSE"
    case SEMICOLON => "SEMICOLON"
    case COMMA => "COMMA"
    case DOT => "DOT"
  }

  /** The tag printed under a given name, if any (names are sorted by length first): the inverse of TypeName. */
  function TagNamed(s: string): Option<TokenType>
  {
    if |s| == 2 then
      if s == "IF" then Some(IF)
      else if s == "DO" then Some(DO)
      else None
    else if |s| == 3 then
      if s == "EOF" then Some(EOF_TOKEN)
      else if s == "FOR" then Some(FOR)
      else if s == "INT" then Some(INT)
      else if s == "DOT" then Some(DOT)
      else None
    else if |s| == 4 then
      if s == "ELSE" then Some(ELSE)
      else if s == "BOOL" then Some(BOOL)
      else if s == "VOID" then Some(VOID)
      else if s == "TRUE" then Some(TRUE)
      else if s == "CHAR" then Some(CHAR)
      else if s == "PLUS" then Some(PLUS)
      else None
    else if |s| == 5 then
      if s == "WHILE" then Some(WHILE)
      else if s == "FLOAT" then Some(FLOAT)
      else if s == "FALSE" then Some(FALSE)
      else if s == "MINUS" then Some(MINUS)
      else if s == "EQUAL" then Some(EQUAL)
      else if s == "COMMA" then Some(COMMA)
      else None
    else if |s| == 6 then
      if s == "RETURN" then Some(RETURN)
      else if s == "NUMBER" then Some(NUMBER)
      else if s == "STRING" then Some(STRING)
      else if s == "DIVIDE" then Some(DIVIDE)
      else if s == "MODULO" then Some(MODULO)
      else if s == "ASSIGN" then Some(ASSIGN)
      else None
    else if |s| == 7 then
      if s == "INVALID" then Some(INVALID)
      else None
    else if |s| == 8 then
      if s == "MULTIPLY" then Some(MULTIPLY)
      else None
    else if |s| == 9 then
      if s == "NOT_EQUAL" then Some(NOT_EQUAL)
      else if s == "LESS_THAN" then Some(LESS_THAN)
      else if s == "SEMICOLON" then Some(SEMICOLON)
      else None
    else if |s| == 10 then
      if s == "IDENTIFIER" then Some(IDENTIFIER)
      else if s == "LESS_EQUAL" then Some(LESS_EQUAL)
      else if s == "LOGICAL_OR" then Some(LOGICAL_OR)
      else if s == "BRACE_OPEN" then Some(BRACE_OPEN)
      else None
    else if |s| == 11 then
      if s == "LOGICAL_AND" then Some(LOGICAL_AND)
      else if s == "LOGICAL_NOT" then Some(LOGICAL_NOT)
      else if s == "BRACE_CLOSE" then Some(BRACE_CLOSE)
      else None
    else if |s| == 12 then
      if s == "GREATER_THAN" then Some(GREATER_THAN)
      else if s == "BRACKET_OPEN" then Some(BRACKET_OPEN)
      else None
    else if |s| == 13 then
      if s == "GREATER_EQUAL" then Some(GREATER_EQUAL)
      else if s == "BRACKET_CLOSE" then Some(BRACKET_CLOSE)
      else None
    else if |s| == 16 then
      if s == "PARENTHESIS_OPEN" then Some(PARENTHESIS_OPEN)
      else None
    else if |s| == 17 then
      if s == "PARENTHESIS_CLOSE" then Some(PARENTHESIS_CLOSE)
      else None
    else None
  }

  /** Reading a printed name back recovers the tag: sentinels and keywords. */
  lemma KeywordNameReadsBack(t: TokenType)
    requires Ordinal(t) < 14
    ensures TagNamed(TypeName(t)) == Some(t)
  {
  }

  /** Reading a printed name back recovers the tag: literals and operators. */
  lemma OperatorNameReadsBack(t: TokenType)
    requires 14 <= Ordinal(t) < 33
    ensures TagNamed(TypeName(t)) == Some(t)
  {
  }

  /** Reading a printed name back recovers the tag: delimiters. */
  lemma DelimiterNameReadsBack(t: TokenType)
    requires 33 <= Ordinal(t)
    ensures TagNamed(TypeName(t)) == Some(t)
  {
  }

  /** Reading a printed name back recovers the tag. */
  lemma TagNamedInvertsTypeName(t: TokenType)
    ensures TagNamed(TypeName(t)) == Some(t)
  {
    if Ordinal(t) < 14 {
      KeywordNameReadsBack(t);
    } else if Ordinal(t) < 33 {
      OperatorNameReadsBack(t);
    } else {
      DelimiterNameReadsBack(t);
    }
  }

  /** Distinct tags print under distinct names. */
  lemma NamesAreDistinct(a: TokenType, b: TokenType)
    ensures TypeName(a) == TypeName(b) ==> a == b
  {
    TagNamedInvertsTypeName(a);
    TagNamedInvertsTypeName(b);
  }
}
