/**
 * Turning the accumulated text of an identifier, keyword or number into a
 * token (the buffer flush).
 */
module BufferFlush {
  import opened Chars
  import opened Tokens
  import opened Tables

  /** Every character is a digit or a period, and at most one is a period. */
  predicate IsNumberText(b: string)
  {
    && (forall k | 0 <= k < |b| :: IsDigit(b[k]) || b[k] == '.')
    && (forall j, k | 0 <= j < k < |b| && b[j] == '.' :: b[k] != '.')
  }

  /** Every character is a letter, a digit or the underscore. */
  predicate IsIdentifierText(b: string)
  {
    forall k | 0 <= k < |b| :: IsAlphaNumeric(b[k])
  }

  /**
   * The token a buffer stands for, decided in order: a keyword gives its tag
   * with empty text; a digit-led buffer is a NUMBER if it is digits with at
   * most one period; a letter- or underscore-led buffer is an IDENTIFIER if it
   * is all alphanumeric; everything else is INVALID. NUMBER, IDENTIFIER and
   * INVALID keep the buffer as their text.
   */
  function Classify(b: string): (t: Token)
    ensures b in KEYWORDS ==> t == Token(KEYWORDS[b])
    ensures b !in KEYWORDS ==> t.value == b
    ensures t.tokenType == NUMBER ==> b != [] && IsDigit(b[0]) && IsNumberText(b)
    ensures t.tokenType == IDENTIFIER ==> b != [] && IsAlpha(b[0]) && IsIdentifierText(b)
    ensures b !in KEYWORDS ==> t.tokenType in {NUMBER, IDENTIFIER, INVALID}
  {
    if b == [] then Token(INVALID, b)
    else if b in KEYWORDS then Token(KEYWORDS[b])
    else if IsDigit(b[0]) then
      if IsNumberText(b) then Token(NUMBER, b) else Token(INVALID, b)
    else if IsAlpha(b[0]) && IsIdentifierText(b) then Token(IDENTIFIER, b)
    else Token(INVALID, b)
  }

  /** The buffer flush of the source: a keyword lookup, then a scan for a number, then a scan for an identifier. */
  method BufferToToken(buffer: string) returns (token: Token)
    ensures token == Classify(buffer)
  {
    if buffer == [] {
      return Token(INVALID, buffer);
    }
    if buffer in KEYWORDS {
      return Token(KEYWORDS[buffer]);
    }
    if IsDigit(buffer[0]) {
      var isValidNumber := true;
      var hasDecimalPoint := false;
      var i := 0;
      while i < |buffer|
        invariant 0 <= i <= |buffer|
        invariant isValidNumber ==> IsNumberText(buffer[..i]) && (hasDecimalPoint <==> '.' in buffer[..i])
        invariant !isValidNumber ==> !IsNumberText(buffer)
      {
        var c := buffer[i];
        if c == '.' && !hasDecimalPoint {
          hasDecimalPoint := true;
        } else if !IsDigit(c) {
          isValidNumber := false;
          if c == '.' {
            var j :| 0 <= j < i && buffer[j] == '.';
            assert buffer[..i][j] == '.';
          }
          break;
        }
        assert buffer[..i + 1] == buffer[..i] + [c];
        i := i + 1;
      }
      if isValidNumber {
        assert buffer[..i] == buffer;
        return Token(NUMBER, buffer);
      }
      return Token(INVALID, buffer);
    }
    if IsAlpha(buffer[0]) {
      var isValidIdentifier := true;
      var i := 0;
      while i < |buffer|
        invariant 0 <= i <= |buffer|
        invariant isValidIdentifier ==> forall k | 0 <= k < i :: IsAlphaNumeric(buffer[k])
        invariant !isValidIdentifier ==> !IsIdentifierText(buffer)
      {
        if !IsAlphaNumeric(buffer[i]) {
          isValidIdentifier := false;
          break;
        }
        i := i + 1;
      }
      if isValidIdentifier {
        return Token(IDENTIFIER, buffer);
      }
    }
    return Token(INVALID, buffer);
  }

  /** One or more digits. */
  predicate IsDigits(s: string)
  {
    |s| > 0 && forall k | 0 <= k < |s| :: IsDigit(s[k])
  }

  /**
   * The numbers the lexer accepts, as a grammar: digits, optionally followed
   * by a period and any number of further digits (so "3." is a number).
   */
  predicate IsNumberLiteral(b: string)
  {
    || IsDigits(b)
    || exists k | 0 < k < |b| :: b[k] == '.' && IsDigits(b[..k]) && forall m | k < m < |b| :: IsDigit(b[m])
  }

  /** The flush's digit-led number test accepts exactly the number grammar. */
  lemma NumberTextIsLiteral(b: string)
    ensures (b != [] && IsDigit(b[0]) && IsNumberText(b)) <==> IsNumberLiteral(b)
  {
    if b != [] && IsDigit(b[0]) && IsNumberText(b) && !IsDigits(b) {
      var k :| 0 <= k < |b| && b[k] == '.';
      assert IsDigits(b[..k]) by {
        forall m | 0 <= m < k ensures IsDigit(b[..k][m]) {
          assert b[m] != '.';
        }
      }
    }
    if IsNumberLiteral(b) && !IsDigits(b) {
      var k :| 0 < k < |b| && b[k] == '.' && IsDigits(b[..k]) && forall m | k < m < |b| :: IsDigit(b[m]);
      assert IsDigit(b[..k][0]);
      assert forall j, m | 0 <= j < m < |b| && b[j] == '.' :: b[m] != '.';
      forall m | 0 <= m < |b|
        ensures IsDigit(b[m]) || b[m] == '.'
      {
        if m < k {
          assert b[..k][m] == b[m];
        }
      }
    }
  }

  /**
   * What a flush yields: a keyword gives its tag with empty text; otherwise
   * the buffer's own text is kept, and it is a NUMBER exactly when it follows
   * the number grammar and an IDENTIFIER exactly when it is a letter or
   * underscore followed by letters, digits and underscores; anything else is
   * INVALID.
   */
  lemma ClassifyCases(b: string)
    ensures b in KEYWORDS ==> Classify(b) == Token(KEYWORDS[b], "")
    ensures b !in KEYWORDS ==> Classify(b).value == b
    ensures Classify(b).tokenType == NUMBER <==> IsNumberLiteral(b)
    ensures Classify(b).tokenType == IDENTIFIER <==>
      b !in KEYWORDS && b != [] && IsAlpha(b[0]) && IsIdentifierText(b)
    ensures Classify(b).tokenType == INVALID <==>
      b !in KEYWORDS && !IsNumberLiteral(b) && !(b != [] && IsAlpha(b[0]) && IsIdentifierText(b))
  {
    NumberTextIsLiteral(b);
    assert b in KEYWORDS ==> !IsDigit(b[0]) && Ordinal(KEYWORDS[b]) < 14;
  }

  /** Number flush examples: "3.1.4" and "12ab" are not numbers, and "3." is one. */
  lemma NumberFlushExamples()
    ensures Classify("3.1.4").tokenType == INVALID
    ensures Classify("12ab").tokenType == INVALID
    ensures Classify("3.") == Token(NUMBER, "3.")
  {
    assert "3.1.4"[1] == '.' && "3.1.4"[3] == '.';
    assert !IsDigit("12ab"[2]) && "12ab"[2] != '.';
  }

  /** Word flush examples: a keyword, an identifier that extends a keyword, and "a1.5", which is no identifier. */
  lemma WordFlushExamples()
    ensures Classify("while") == Token(WHILE, "")
    ensures Classify("while1") == Token(IDENTIFIER, "while1")
    ensures Classify("a1.5").tokenType == INVALID
  {
    assert !IsAlphaNumeric("a1.5"[2]);
    assert "while1" !in KEYWORDS;
  }
}
