/**
 * The token value type of the lexer: the closed set of token tags and the
 * token itself, a tag together with the literal text it was scanned from.
 */
module Tokens {

  /** The closed set of token tags, in declaration order. */
  datatype TokenType =
    | INVALID
    | EOF_TOKEN
    // Keywords
    | IF | ELSE | FOR | WHILE | DO | RETURN | INT | FLOAT | BOOL | VOID | TRUE | FALSE
    // Identifiers and literals
    | IDENTIFIER | NUMBER | STRING | CHAR
    // Operators
    | PLUS | MINUS | MULTIPLY | DIVIDE | MODULO | ASSIGN | EQUAL | NOT_EQUAL
    | LESS_THAN | GREATER_THAN | LESS_EQUAL | GREATER_EQUAL
    | LOGICAL_AND | LOGICAL_OR | LOGICAL_NOT
    // Delimiters
    | PARENTHESIS_OPEN | PARENTHESIS_CLOSE | BRACE_OPEN | BRACE_CLOSE
    | BRACKET_OPEN | BRACKET_CLOSE | SEMICOLON | COMMA | DOT

  /** The underlying value of a tag in the enumeration (0 for INVALID up to 41 for DOT). */
  function Ordinal(t: TokenType): (n: nat)
    ensures n < 42
  {
    match t
    case INVALID => 0
    case EOF_TOKEN => 1
    case IF => 2
    case ELSE => 3
    case FOR => 4
    case WHILE => 5
    case DO => 6
    case RETURN => 7
    case INT => 8
    case FLOAT => 9
    case BOOL => 10
    case VOID => 11
    case TRUE => 12
    case FALSE => 13
    case IDENTIFIER => 14
    case NUMBER => 15
    case STRING => 16
    case CHAR => 17
    case PLUS => 18
    case MINUS => 19
    case MULTIPLY => 20
    case DIVIDE => 21
    case MODULO => 22
    case ASSIGN => 23
    case EQUAL => 24
    case NOT_EQUAL => 25
    case LESS_THAN => 26
    case GREATER_THAN => 27
    case LESS_EQUAL => 28
    case GREATER_EQUAL => 29
    case LOGICAL_AND => 30
    case LOGICAL_OR => 31
    case LOGICAL_NOT => 32
    case PARENTHESIS_OPEN => 33
    case PARENTHESIS_CLOSE => 34
    case BRACE_OPEN => 35
    case BRACE_CLOSE => 36
    case BRACKET_OPEN => 37
    case BRACKET_CLOSE => 38
    case SEMICOLON => 39
    case COMMA => 40
    case DOT => 41
  }

  /** The tag whose underlying value is `n`. */
  function TagOf(n: nat): (t: TokenType)
    requires n < 42
  {
    match n
    case 0 => INVALID
    case 1 => EOF_TOKEN
    case 2 => IF
    case 3 => ELSE
    case 4 => FOR
    case 5 => WHILE
    case 6 => DO
    case 7 => RETURN
    case 8 => INT
    case 9 => FLOAT
    case 10 => BOOL
    case 11 => VOID
    case 12 => TRUE
    case 13 => FALSE
    case 14 => IDENTIFIER
    case 15 => NUMBER
    case 16 => STRING
    case 17 => CHAR
    case 18 => PLUS
    case 19 => MINUS
    case 20 => MULTIPLY
    case 21 => DIVIDE
    case 22 => MODULO
    case 23 => ASSIGN
    case 24 => EQUAL
    case 25 => NOT_EQUAL
    case 26 => LESS_THAN
    case 27 => GREATER_THAN
    case 28 => LESS_EQUAL
    case 29 => GREATER_EQUAL
    case 30 => LOGICAL_AND
    case 31 => LOGICAL_OR
    case 32 => LOGICAL_NOT
    case 33 => PARENTHESIS_OPEN
    case 34 => PARENTHESIS_CLOSE
    case 35 => BRACE_OPEN
    case 36 => BRACE_CLOSE
    case 37 => BRACKET_OPEN
    case 38 => BRACKET_CLOSE
    case 39 => SEMICOLON
    case 40 => COMMA
    case _ => DOT
  }

  /** TagOf inverts Ordinal on the sentinel and keyword values. */
  lemma OrdinalOfKeywordTag(n: nat)
    requires 0 <= n < 14
    ensures Ordinal(TagOf(n)) == n
  {
    if n == 0 {
      assert TagOf(0) == INVALID;
    } else if n == 1 {
      assert TagOf(1) == EOF_TOKEN;
    } else if n == 2 {
      assert TagOf(2) == IF;
    } else if n == 3 {
      assert TagOf(3) == ELSE;
    } else if n == 4 {
      assert TagOf(4) == FOR;
    } else if n == 5 {
      assert TagOf(5) == WHILE;
    } else if n == 6 {
      assert TagOf(6) == DO;
    } else if n == 7 {
      assert TagOf(7) == RETURN;
    } else if n == 8 {
      assert TagOf(8) == INT;
    } else if n == 9 {
      assert TagOf(9) == FLOAT;
    } else if n == 10 {
      assert TagOf(10) == BOOL;
    } else if n == 11 {
      assert TagOf(11) == VOID;
    } else if n == 12 {
      assert TagOf(12) == TRUE;
    } else {
      assert TagOf(13) == FALSE;
    }
  }

  /** TagOf inverts Ordinal on the literal and arithmetic operator values. */
  lemma OrdinalOfLiteralOrArithmeticTag(n: nat)
    requires 14 <= n < 24
    ensures Ordinal(TagOf(n)) == n
  {
    if n == 14 {
      assert TagOf(14) == IDENTIFIER;
    } else if n == 15 {
      assert TagOf(15) == NUMBER;
    } else if n == 16 {
      assert TagOf(16) == STRING;
    } else if n == 17 {
      assert TagOf(17) == CHAR;
    } else if n == 18 {
      assert TagOf(18) == PLUS;
    } else if n == 19 {
      assert TagOf(19) == MINUS;
    } else if n == 20 {
      assert TagOf(20) == MULTIPLY;
    } else if n == 21 {
      assert TagOf(21) == DIVIDE;
    } else if n == 22 {
      assert TagOf(22) == MODULO;
    } else {
      assert TagOf(23) == ASSIGN;
    }
  }

  /** TagOf inverts Ordinal on the comparison and logical operator values. */
  lemma OrdinalOfComparisonOrLogicalTag(n: nat)
    requires 24 <= n < 33
    ensures Ordinal(TagOf(n)) == n
  {
    if n == 24 {
      assert TagOf(24) == EQUAL;
    } else if n == 25 {
      assert TagOf(25) == NOT_EQUAL;
    } else if n == 26 {
      assert TagOf(26) == LESS_THAN;
    } else if n == 27 {
      assert TagOf(27) == GREATER_THAN;
    } else if n == 28 {
      assert TagOf(28) == LESS_EQUAL;
    } else if n == 29 {
      assert TagOf(29) == GREATER_EQUAL;
    } else if n == 30 {
      assert TagOf(30) == LOGICAL_AND;
    } else if n == 31 {
      assert TagOf(31) == LOGICAL_OR;
    } else {
      assert TagOf(32) == LOGICAL_NOT;
    }
  }

  /** TagOf inverts Ordinal on the delimiter values. */
  lemma OrdinalOfDelimiterTag(n: nat)
    requires 33 <= n < 42
    ensures Ordinal(TagOf(n)) == n
  {
    if n == 33 {
      assert TagOf(33) == PARENTHESIS_OPEN;
    } else if n == 34 {
      assert TagOf(34) == PARENTHESIS_CLOSE;
    } else if n == 35 {
      assert TagOf(35) == BRACE_OPEN;
    } else if n == 36 {
      assert TagOf(36) == BRACE_CLOSE;
    } else if n == 37 {
      assert TagOf(37) == BRACKET_OPEN;
    } else if n == 38 {
      assert TagOf(38) == BRACKET_CLOSE;
    } else if n == 39 {
      assert TagOf(39) == SEMICOLON;
    } else if n == 40 {
      assert TagOf(40) == COMMA;
    } else {
      assert TagOf(41) == DOT;
    }
  }

  /** Every tag, listed in declaration order. */
  function AllTags(): (s: seq<TokenType>)
    ensures |s| == 42
    ensures forall i | 0 <= i < |s| :: Ordinal(s[i]) == i
  {
    forall n | 0 <= n < 42
      ensures Ordinal(TagOf(n)) == n
    {
      if n < 14 {
        OrdinalOfKeywordTag(n);
      } else if n < 24 {
        OrdinalOfLiteralOrArithmeticTag(n);
      } else if n < 33 {
        OrdinalOfComparisonOrLogicalTag(n);
      } else {
        OrdinalOfDelimiterTag(n);
      }
    }
    seq(42, n requires 0 <= n < 42 => TagOf(n))
  }

  /** The tag of underlying value Ordinal(t) is t. */
  lemma TagOfOrdinal(t: TokenType)
    ensures TagOf(Ordinal(t)) == t
  {
  }

  /** The tag set is closed: it has exactly 42 pairwise distinct tags and every tag is one of them. */
  lemma ClosedTagSet()
    ensures |AllTags()| == 42
    ensures forall i, j | 0 <= i < j < |AllTags()| :: AllTags()[i] != AllTags()[j]
    ensures forall t: TokenType :: t in AllTags()
  {
    forall i, j | 0 <= i < j < |AllTags()|
      ensures AllTags()[i] != AllTags()[j]
    {
    }
    forall t: TokenType
      ensures t in AllTags()
    {
      TagOfOrdinal(t);
      assert AllTags()[Ordinal(t)] == t;
    }
  }

  /**
   * A token: its tag and the literal text it carries. The text is empty for
   * keywords, operators and delimiters, whose spelling the tag implies.
   * Both fields default as in the source's constructor, so `Token()` is an
   * INVALID token with empty text and `Token(t)` a token of tag `t` with empty text.
   */
  datatype Token = Token(tokenType: TokenType := INVALID, value: string := "")
  {
    function GetType(): TokenType { tokenType }

    function GetValue(): string { value }

    /** The same token with its tag replaced; the text is kept. */
    function SetType(t: TokenType): (r: Token)
      ensures r.GetType() == t && r.GetValue() == GetValue()
    {
      this.(tokenType := t)
    }

    /** The same token with its text replaced; the tag is kept. */
    function SetValue(v: string): (r: Token)
      ensures r.GetValue() == v && r.GetType() == GetType()
    {
      this.(value := v)
    }
  }

  /** A default-constructed token is INVALID with empty text. */
  lemma DefaultToken()
    ensures Token().GetType() == INVALID && Token().GetValue() == ""
  {
  }

  /** Constructing with a tag only stores that tag and an empty text; the getters return what was stored. */
  lemma ConstructedToken(t: TokenType, v: string)
    ensures Token(t).GetType() == t && Token(t).GetValue() == ""
    ensures Token(t, v).GetType() == t && Token(t, v).GetValue() == v
  {
  }
}
