/**
 * The lexer's static tables: reserved words, operators (longest first) and
 * delimiters, with the lookups the handlers perform on them.
 */
module Tables {
  import opened Wrappers
  import opened Chars
  import opened Tokens
  import opened TokenNames

  /** Reserved words and their tags; the lookup is exact and case-sensitive. */
  const KEYWORDS: map<string, TokenType> := map[
    "if" := IF, "else" := ELSE, "for" := FOR, "while" := WHILE,
    "do" := DO, "return" := RETURN, "int" := INT, "float" := FLOAT,
    "bool" := BOOL, "void" := VOID, "true" := TRUE, "false" := FALSE
  ]

  /** Operator spellings and their tags, every two-character spelling before every one-character one. */
  const OPERATORS: seq<(string, TokenType)> := [
    ("==", EQUAL), ("!=", NOT_EQUAL), ("<=", LESS_EQUAL), (">=", GREATER_EQUAL),
    ("&&", LOGICAL_AND), ("||", LOGICAL_OR),
    ("=", ASSIGN), ("!", LOGICAL_NOT), ("<", LESS_THAN), (">", GREATER_THAN),
    ("+", PLUS), ("-", MINUS), ("*", MULTIPLY), ("/", DIVIDE), ("%", MODULO), (".", DOT)
  ]

  /** Upper-casing of ASCII letters; every other character is kept. */
  function ToUpper(s: string): (r: string)
    ensures |r| == |s|
  {
    seq(|s|, i requires 0 <= i < |s| => if 'a' <= s[i] <= 'z' then (s[i] as int - 32) as char else s[i])
  }

  /** A keyword's tag prints as the keyword in upper case. */
  lemma KeywordNamesAreUpperCase()
    ensures forall w | w in KEYWORDS :: TypeName(KEYWORDS[w]) == ToUpper(w)
  {
    forall w | w in KEYWORDS
      ensures TypeName(KEYWORDS[w]) == ToUpper(w)
    {
      if w == "if" || w == "else" || w == "for" {
        KeywordNamesUpperCaseA(w);
      } else if w == "while" || w == "do" || w == "return" {
        KeywordNamesUpperCaseB(w);
      } else if w == "int" || w == "float" || w == "bool" {
        KeywordNamesUpperCaseC(w);
      } else {
        KeywordNamesUpperCaseD(w);
      }
    }
  }

  lemma KeywordNamesUpperCaseA(w: string)
    requires w == "if" || w == "else" || w == "for"
    ensures w in KEYWORDS && TypeName(KEYWORDS[w]) == ToUpper(w)
  {
    if w == "if" {
      UpperCaseOf("if", "IF");
    } else if w == "else" {
      UpperCaseOf("else", "ELSE");
    } else if w == "for" {
      UpperCaseOf("for", "FOR");
    }
  }

  lemma KeywordNamesUpperCaseB(w: string)
    requires w == "while" || w == "do" || w == "return"
    ensures w in KEYWORDS && TypeName(KEYWORDS[w]) == ToUpper(w)
  {
    if w == "while" {
      UpperCaseOf("while", "WHILE");
    } else if w == "do" {
      UpperCaseOf("do", "DO");
    } else if w == "return" {
      UpperCaseOf("return", "RETURN");
    }
  }

  lemma KeywordNamesUpperCaseC(w: string)
    requires w == "int" || w == "float" || w == "bool"
    ensures w in KEYWORDS && TypeName(KEYWORDS[w]) == ToUpper(w)
  {
    if w == "int" {
      UpperCaseOf("int", "INT");
    } else if w == "float" {
      UpperCaseOf("float", "FLOAT");
    } else if w == "bool" {
      UpperCaseOf("bool", "BOOL");
    }
  }

  lemma KeywordNamesUpperCaseD(w: string)
    requires w in KEYWORDS && w != "if" && w != "else" && w != "for" && w != "while" && w != "do" && w != "return" && w != "int" && w != "float" && w != "bool"
    ensures w in KEYWORDS && TypeName(KEYWORDS[w]) == ToUpper(w)
  {
    if w == "void" {
      UpperCaseOf("void", "VOID");
    } else if w == "true" {
      UpperCaseOf("true", "TRUE");
    } else if w == "false" {
      UpperCaseOf("false", "FALSE");
    }
  }

  lemma UpperCaseOf(s: string, u: string)
    requires |s| == |u| && forall i | 0 <= i < |s| :: u[i] == if 'a' <= s[i] <= 'z' then (s[i] as int - 32) as char else s[i]
    ensures ToUpper(s) == u
  {
  }

  /** The operator table's shape: two-character spellings at positions 0 to 5, one-character ones after them. */
  lemma OperatorLengths(k: nat)
    requires k < |OPERATORS|
    ensures |OPERATORS[k].0| == if k < 6 then 2 else 1
    ensures NUL !in OPERATORS[k].0
  {
  }

  /** `op` is spelled at index `i` of `src`. */
  predicate MatchesAt(op: string, src: string, i: nat)
  {
    i + |op| <= |src| && src[i..i + |op|] == op
  }

  /** The position in the operator table, at or after `k`, of the first entry spelled at index `i`. */
  function FirstMatchFrom(src: string, i: nat, k: nat): (r: Option<nat>)
    requires k <= |OPERATORS|
    decreases |OPERATORS| - k
    ensures r.Some? ==> k <= r.value < |OPERATORS| && MatchesAt(OPERATORS[r.value].0, src, i)
    ensures r.Some? ==> forall j | k <= j < r.value :: !MatchesAt(OPERATORS[j].0, src, i)
    ensures r.None? ==> forall j | k <= j < |OPERATORS| :: !MatchesAt(OPERATORS[j].0, src, i)
  {
    if k == |OPERATORS| then None
    else if MatchesAt(OPERATORS[k].0, src, i) then Some(k)
    else FirstMatchFrom(src, i, k + 1)
  }

  /** The operator-table entry the lexer selects at index `i`: the first one in table order. */
  function MatchOperator(src: string, i: nat): (r: Option<nat>)
    ensures r.Some? ==> r.value < |OPERATORS| && MatchesAt(OPERATORS[r.value].0, src, i)
    ensures r.Some? ==> forall j | 0 <= j < r.value :: !MatchesAt(OPERATORS[j].0, src, i)
    ensures r.None? <==> forall j | 0 <= j < |OPERATORS| :: !MatchesAt(OPERATORS[j].0, src, i)
  {
    FirstMatchFrom(src, i, 0)
  }

  /**
   * Longest match: the selected entry is spelled at `i`, no longer entry is,
   * and no other entry of the same length is; when nothing is selected, no
   * entry is spelled at `i`.
   */
  lemma LongestMatch(src: string, i: nat)
    ensures MatchOperator(src, i).Some? ==>
      var k := MatchOperator(src, i).value;
      && MatchesAt(OPERATORS[k].0, src, i)
      && forall j | 0 <= j < |OPERATORS| && MatchesAt(OPERATORS[j].0, src, i) ::
           |OPERATORS[j].0| < |OPERATORS[k].0| || j == k
    ensures MatchOperator(src, i).None? ==>
      forall j | 0 <= j < |OPERATORS| :: !MatchesAt(OPERATORS[j].0, src, i)
  {
    var r := MatchOperator(src, i);
    if r.Some? {
      var k := r.value;
      forall j | 0 <= j < |OPERATORS| && MatchesAt(OPERATORS[j].0, src, i)
        ensures |OPERATORS[j].0| < |OPERATORS[k].0| || j == k
      {
        OperatorLengths(j);
        OperatorLengths(k);
        if |OPERATORS[j].0| == |OPERATORS[k].0| {
          assert OPERATORS[j].0 == OPERATORS[k].0;
          DistinctSpellings(j, k);
        }
      }
    }
  }

  /** No spelling appears twice in the operator table. */
  lemma DistinctSpellings(j: nat, k: nat)
    requires j < |OPERATORS| && k < |OPERATORS|
    requires OPERATORS[j].0 == OPERATORS[k].0
    ensures j == k
  {
  }

  /** The tag of a delimiter character; INVALID for any other character. */
  function DelimiterTag(c: char): (t: TokenType)
    ensures t != INVALID <==> IsDelimiter(c)
  {
    match c
    case '(' => PARENTHESIS_OPEN
    case ')' => PARENTHESIS_CLOSE
    case '{' => BRACE_OPEN
    case '}' => BRACE_CLOSE
    case '[' => BRACKET_OPEN
    case ']' => BRACKET_CLOSE
    case ',' => COMMA
    case ';' => SEMICOLON
    case _ => INVALID
  }
}
