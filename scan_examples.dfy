/**
 * Whole scans of small inputs, showing how the lexer's steps combine: the
 * buffer is flushed by the next blank, delimiter or operator, a trailing
 * identifier or number is never flushed, and a flush that fails reports the
 * position of the character that triggered it.
 */
module ScanExamples {
  import opened Wrappers
  import opened Chars
  import opened Tokens
  import opened Tables
  import opened BufferFlush
  import opened Scanner
  import opened StepFacts
  import opened StringScan

  const ASSIGNMENT: string := "x = 42"

  /** In `x = 42`, the blank after `x` flushes it as an identifier. */
  lemma AssignmentBlankFlushes()
    ensures Step(ASSIGNMENT, Cursor(1, 1, 2, "x", [])) == Advanced(Cursor(2, 1, 3, [], [Token(IDENTIFIER, "x")]))
  {
    var c := Cursor(1, 1, 2, "x", []);
    var f := Cursor(1, 1, 2, [], [Token(IDENTIFIER, "x")]);
    assert ConsumeBuffer(c) == Advanced(f) by {
      assert Classify("x") == Token(IDENTIFIER, "x");
    }
    assert SkipBlanks(ASSIGNMENT, f) == Cursor(2, 1, 3, [], [Token(IDENTIFIER, "x")]) by {
      assert SkipBlanks(ASSIGNMENT, f) == SkipBlanks(ASSIGNMENT, f.(index := 2, offset := 3));
    }
    WhiteSpaceStep(ASSIGNMENT, c);
  }

  /** In `x = 42`, the `=` not followed by `=` is ASSIGN. */
  lemma AssignmentOperator()
    ensures Step(ASSIGNMENT, Cursor(2, 1, 3, [], [Token(IDENTIFIER, "x")]))
         == Advanced(Cursor(3, 1, 4, [], [Token(IDENTIFIER, "x"), Token(ASSIGN)]))
  {
    var c := Cursor(2, 1, 3, [], [Token(IDENTIFIER, "x")]);
    assert ASSIGNMENT[2..4][1] == ' ';
    assert forall j | 1 <= j < 6 :: !MatchesAt(OPERATORS[j].0, ASSIGNMENT, 2);
    assert MatchesAt(OPERATORS[6].0, ASSIGNMENT, 2);
    assert MatchOperator(ASSIGNMENT, 2) == Some(6);
    OperatorStep(ASSIGNMENT, c);
  }

  /** In `x = 42`, the blank after `=` is skipped. */
  lemma AssignmentSecondBlank()
    ensures Step(ASSIGNMENT, Cursor(3, 1, 4, [], [Token(IDENTIFIER, "x"), Token(ASSIGN)]))
         == Advanced(Cursor(4, 1, 5, [], [Token(IDENTIFIER, "x"), Token(ASSIGN)]))
  {
    var c := Cursor(3, 1, 4, [], [Token(IDENTIFIER, "x"), Token(ASSIGN)]);
    WhiteSpaceStep(ASSIGNMENT, c);
    assert SkipBlanks(ASSIGNMENT, c) == SkipBlanks(ASSIGNMENT, c.(index := 4, offset := 5));
  }

  /**
   * `x = 42` scans to the identifier and ASSIGN only: nothing after the loop
   * flushes the buffered `42`.
   */
  lemma AssignmentDropsTrailingNumber()
    ensures Scan(Some(ASSIGNMENT)) == Ok([Token(IDENTIFIER, "x"), Token(ASSIGN)])
  {
    var src := ASSIGNMENT;
    var c0 := Start();
    AccumulatesIff(src, c0);
    var c1 := Cursor(1, 1, 2, "x", []);
    assert Step(src, c0) == Advanced(c1);
    AssignmentBlankFlushes();
    AssignmentOperator();
    AssignmentSecondBlank();
    var c4 := Cursor(4, 1, 5, [], [Token(IDENTIFIER, "x"), Token(ASSIGN)]);
    TrailingWordDropped(src, c4);
    assert Run(src, c0) == Run(src, c1);
  }

  const MALFORMED: string := "12ab;"

  /**
   * `12ab;` fails at the semicolon, in column 5: the digit-led buffer `12ab`
   * is not a number, and the flush the semicolon triggers rejects it.
   */
  lemma MalformedNumberFails()
    ensures Scan(Some(MALFORMED)) == Err(LexError(1, 5))
  {
    assert Start().buffer + MALFORMED[0..4] == "12ab";
    assert forall k | 0 <= k < 4 :: IsAlphaNumeric(MALFORMED[k]);
    NumberFlushExamples();
    InvalidWordFails(MALFORMED, Start(), 4);
  }

  const DECIMAL: string := "3.14"

  /**
   * `3.14` on its own scans to no token at all: the period joins the
   * buffer after the digit 3, and the whole number is still buffered when
   * the input ends.
   */
  lemma DecimalDropped()
    ensures Scan(Some(DECIMAL)) == Ok([])
  {
    assert [] + DECIMAL[0..1] == "3";
    assert forall k | 0 <= k < 4 :: k != 1 ==> IsAlphaNumeric(DECIMAL[k]);
    TrailingWordDropped(DECIMAL, Start());
  }

  const UNCLOSED: string := "\"abc"

  /**
   * `"abc` is a literal the end of the input cuts off: the scan of its body
   * stops at the terminator, after four characters, and the error is raised
   * there, at line 1, column 5.
   */
  lemma UnclosedString()
    ensures Scan(Some(UNCLOSED)) == Err(LexError(1, 5))
  {
    var src := UNCLOSED;
    var r := StringBody(src, 1, 1, 2, "\"");
    assert r == StringBody(src, 4, 1, 5, "\"abc");
    assert r == Scanned(Token(INVALID, "\"abc"), 4, 1, 5);
    assert ConsumeBuffer(Start()) == Advanced(Start());
    StringStep(src, Start());
  }
}
