/**
 * What one pass of the main loop does, character class by character class,
 * and what a whole run does with a trailing identifier or number.
 */
module StepFacts {
  import opened Wrappers
  import opened Chars
  import opened Tokens
  import opened Tables
  import opened BufferFlush
  import opened Scanner
  import opened StringScan

  /** The state after the buffer has taken `ch` and the position has moved one column on. */
  function Accumulated(c: Cursor, ch: char): Cursor
  {
    c.(buffer := c.buffer + [ch], index := c.index + 1, offset := c.offset + 1)
  }

  /**
   * Accumulation: a pass appends the current character to the buffer and
   * moves one column on exactly when the character joins the buffer (a
   * letter, digit or underscore, or a period after a buffered digit).
   */
  lemma AccumulatesIff(src: string, c: Cursor)
    requires Terminable(src) && c.index < |src|
    ensures Step(src, c) == Advanced(Accumulated(c, src[c.index])) <==> Joins(c.buffer, src[c.index])
  {
    var ch := src[c.index];
    var s := Step(src, c);
    if Joins(c.buffer, ch) {
      assert ch != '"' && ch != '/';
      assert StringLiterals(src, c) == NoMatch;
      assert Comments(src, c) == NoMatch;
    } else if s.Advanced? {
      // every other handler that consumes input flushes the buffer first
      assert s.next.buffer == [];
    }
  }

  /** The state after the flushed state `f` has emitted `t` and moved `n` characters and columns on. */
  function Emitted(f: Cursor, t: TokenType, n: nat): Cursor
  {
    f.(tokens := f.tokens + [Token(t)], index := f.index + n, offset := f.offset + n)
  }

  /**
   * Operators: when the table selects entry `k` at the index and neither a
   * comment nor the buffer claims the character, the pass flushes the buffer
   * and emits that entry's tag, moving index and column by its length.
   */
  lemma OperatorStep(src: string, c: Cursor)
    requires Terminable(src) && c.index < |src|
    requires MatchOperator(src, c.index).Some?
    requires src[c.index] != '/' && !Joins(c.buffer, src[c.index])
    ensures var k := MatchOperator(src, c.index).value;
      Step(src, c) == match ConsumeBuffer(c)
        case Advanced(f) => Advanced(Emitted(f, OPERATORS[k].1, |OPERATORS[k].0|))
        case _ => ConsumeBuffer(c)
  {
    var k := MatchOperator(src, c.index).value;
    var ch := src[c.index];
    OperatorLengths(k);
    assert src[c.index..c.index + |OPERATORS[k].0|][0] == ch;
    assert ch != '"' && !IsBlank(ch) && !IsDelimiter(ch);
  }

  /** A slash not followed by a slash or a star is the division operator. */
  lemma SlashIsDivide(src: string, c: Cursor)
    requires Terminable(src) && c.index < |src| && src[c.index] == '/'
    requires At(src, c.index + 1) != '/' && At(src, c.index + 1) != '*'
    ensures Step(src, c) == match ConsumeBuffer(c)
        case Advanced(f) => Advanced(Emitted(f, DIVIDE, 1))
        case _ => ConsumeBuffer(c)
  {
    var i := c.index;
    assert forall j | 0 <= j < 6 :: !MatchesAt(OPERATORS[j].0, src, i);
    assert MatchesAt(OPERATORS[13].0, src, i);
    assert forall j | 6 <= j < 13 :: !MatchesAt(OPERATORS[j].0, src, i);
    assert MatchOperator(src, i) == Some(13);
  }

  /**
   * A period that does not join the buffer is the DOT operator, after the
   * buffer has been flushed.
   */
  lemma LonePeriodIsDot(src: string, c: Cursor)
    requires Terminable(src) && c.index < |src| && src[c.index] == '.'
    requires !Joins(c.buffer, '.')
    ensures Step(src, c) == match ConsumeBuffer(c)
        case Advanced(f) => Advanced(Emitted(f, DOT, 1))
        case _ => ConsumeBuffer(c)
  {
    var i := c.index;
    assert forall j | 0 <= j < 6 :: !MatchesAt(OPERATORS[j].0, src, i);
    assert forall j | 6 <= j < 15 :: !MatchesAt(OPERATORS[j].0, src, i);
    assert MatchesAt(OPERATORS[15].0, src, i);
    assert MatchOperator(src, i) == Some(15);
    OperatorStep(src, c);
  }

  /**
   * White space: at a blank the pass flushes the buffer and then skips the
   * whole run of blanks.
   */
  lemma WhiteSpaceStep(src: string, c: Cursor)
    requires Terminable(src) && c.index < |src| && IsBlank(src[c.index])
    ensures ConsumeBuffer(c).Failed? ==> Step(src, c) == ConsumeBuffer(c)
    ensures ConsumeBuffer(c).Advanced? ==> Step(src, c) == Advanced(SkipBlanks(src, ConsumeBuffer(c).next))
  {
    var ch := src[c.index];
    ClassesAreDisjoint(ch);
    assert ch != '"' && ch != '/';
  }

  /**
   * String literals: at a quote the pass flushes the buffer first, then
   * scans the literal from the flushed state and appends its token. A
   * literal the terminator cuts off raises the error at the line and column
   * where the scan stopped, which is the end of the input.
   */
  lemma StringStep(src: string, c: Cursor)
    requires Terminable(src) && c.index < |src| && src[c.index] == '"'
    ensures ConsumeBuffer(c).Failed? ==> Step(src, c) == ConsumeBuffer(c)
    ensures ConsumeBuffer(c).Advanced? ==>
      var f := ConsumeBuffer(c).next;
      var r := ParseString(src, f.index, f.line, f.offset);
      Step(src, c) == if r.token.tokenType == INVALID then Failed(LexError(r.line, r.offset))
        else Advanced(f.(index := r.index, line := r.line, offset := r.offset, tokens := f.tokens + [r.token]))
    ensures ConsumeBuffer(c).Advanced? && Step(src, c).Failed? ==>
      var f := ConsumeBuffer(c).next;
      ParseString(src, f.index, f.line, f.offset).index == |src|
  {
  }

  /**
   * Line comments: at `//` the pass flushes the buffer first; once the flush
   * has given `f`, it steps over the opener and skips the comment's body.
   */
  lemma LineCommentStep(src: string, c: Cursor, f: Cursor)
    requires Terminable(src) && c.index + 1 < |src| && src[c.index] == '/' && src[c.index + 1] == '/'
    requires ConsumeBuffer(c) == Advanced(f)
    ensures Step(src, c) == Advanced(SkipLine(src, f.(index := f.index + 2, offset := f.offset + 2)))
  {
    assert Comments(src, c) == LineComment(src, c);
    CommentPass(src, c);
    LineAfterFlush(src, c, f);
  }

  /**
   * Block comments: at a slash and a star the pass flushes the buffer first;
   * once the flush has given `f`, it steps over the opener and skips the
   * comment's body.
   */
  lemma BlockCommentStep(src: string, c: Cursor, f: Cursor)
    requires Terminable(src) && c.index + 1 < |src| && src[c.index] == '/' && src[c.index + 1] == '*'
    requires ConsumeBuffer(c) == Advanced(f)
    ensures Step(src, c) == Advanced(SkipBlock(src, f.(index := f.index + 2, offset := f.offset + 2)))
  {
    assert Comments(src, c) == BlockComment(src, c);
    CommentPass(src, c);
    BlockAfterFlush(src, c, f);
  }

  /** At a comment opener, a flush that fails is what the pass reports: nothing of the comment is read. */
  lemma CommentFlushFails(src: string, c: Cursor)
    requires Terminable(src) && c.index + 1 < |src| && src[c.index] == '/'
    requires src[c.index + 1] == '/' || src[c.index + 1] == '*'
    requires ConsumeBuffer(c).Failed?
    ensures Step(src, c) == ConsumeBuffer(c)
  {
    assert Comments(src, c) == ConsumeBuffer(c);
    CommentPass(src, c);
  }

  /** When the comment handler applies, whether it skips the comment or its flush fails, it is the one the pass runs. */
  lemma CommentPass(src: string, c: Cursor)
    requires Terminable(src) && c.index < |src|
    requires src[c.index] == '/' && !Comments(src, c).NoMatch?
    ensures Step(src, c) == Comments(src, c)
  {
  }

  /**
   * Delimiters: the pass flushes the buffer and emits the delimiter's tag;
   * the index moves one on and the column stays where it was.
   */
  lemma DelimiterStep(src: string, c: Cursor)
    requires Terminable(src) && c.index < |src| && IsDelimiter(src[c.index])
    ensures Step(src, c) == match ConsumeBuffer(c)
        case Advanced(f) => Advanced(f.(tokens := f.tokens + [Token(DelimiterTag(src[c.index]))], index := f.index + 1))
        case _ => ConsumeBuffer(c)
    ensures Step(src, c).Advanced? ==> Step(src, c).next.offset == c.offset
  {
    var ch := src[c.index];
    ClassesAreDisjoint(ch);
    assert ch != '"' && ch != '/' && ch != '.';
  }

  /**
   * A character no handler takes (not a quote, not joining the buffer, not
   * blank, not a delimiter, and starting no operator) raises the error at the
   * current line and column, whether or not the buffer could be flushed.
   */
  lemma UnknownCharacterFails(src: string, c: Cursor)
    requires Terminable(src) && c.index < |src|
    requires src[c.index] != '"' && !Joins(c.buffer, src[c.index])
    requires !IsBlank(src[c.index]) && !IsDelimiter(src[c.index])
    requires MatchOperator(src, c.index).None?
    ensures Step(src, c) == Failed(ErrorAt(c))
  {
    var i := c.index;
    LongestMatch(src, i);
    assert !MatchesAt(OPERATORS[13].0, src, i);
    assert src[i..i + 1] == [src[i]];
  }

  /**
   * A buffer that does not classify: the first character that does not join
   * it makes the pass flush it, whichever handler comes first, and the error
   * is raised at that character's position.
   */
  lemma InvalidBufferFails(src: string, c: Cursor)
    requires Terminable(src) && c.index < |src|
    requires c.buffer != [] && Classify(c.buffer).tokenType == INVALID
    requires !Joins(c.buffer, src[c.index])
    ensures Step(src, c) == Failed(ErrorAt(c))
  {
    assert ConsumeBuffer(c) == Failed(ErrorAt(c));
  }

  /** A lone ampersand or bar (not doubled) starts no operator, so it raises the error where it stands. */
  lemma LoneAmpersandOrBarFails(src: string, c: Cursor)
    requires Terminable(src) && c.index < |src|
    requires src[c.index] == '&' || src[c.index] == '|'
    requires At(src, c.index + 1) != src[c.index]
    ensures Step(src, c) == Failed(ErrorAt(c))
  {
    var i := c.index;
    forall j | 0 <= j < |OPERATORS|
      ensures !MatchesAt(OPERATORS[j].0, src, i)
    {
      OperatorLengths(j);
      var op := OPERATORS[j].0;
      if i + |op| <= |src| {
        assert src[i..i + |op|][0] == src[i];
        if |op| == 2 {
          assert src[i..i + 2][1] == src[i + 1] == At(src, i + 1);
        }
      }
    }
    UnknownCharacterFails(src, c);
  }

  /**
   * A word that ends in a failing flush: the letters, digits and underscores
   * from the index up to `j` go into the buffer; when the buffered text does
   * not classify, the character at `j` (which does not join it) raises the
   * error at its own column.
   */
  lemma {:induction false} InvalidWordFails(src: string, c: Cursor, j: nat)
    requires Terminable(src) && c.index <= j < |src|
    requires forall k | c.index <= k < j :: IsAlphaNumeric(src[k])
    requires !IsAlphaNumeric(src[j]) && src[j] != '.'
    requires c.buffer + src[c.index..j] != [] && Classify(c.buffer + src[c.index..j]).tokenType == INVALID
    decreases j - c.index
    ensures Run(src, c) == Err(LexError(c.line, c.offset + (j - c.index)))
  {
    if c.index < j {
      var n := Accumulated(c, src[c.index]);
      assert n.buffer + src[n.index..j] == c.buffer + src[c.index..j];
      AccumulatesIff(src, c);
      assert Step(src, c) == Advanced(n);
      InvalidWordFails(src, n, j);
    } else {
      assert c.buffer + src[c.index..j] == c.buffer;
      InvalidBufferFails(src, c);
    }
  }

  /**
   * End of input with a pending buffer: when every remaining character
   * joins the buffer built so far (letters, digits and underscores, and a
   * period right after a digit), it all goes into the buffer and the scan
   * ends without emitting it.
   */
  lemma {:induction false} TrailingWordDropped(src: string, c: Cursor)
    requires Terminable(src) && c.index <= |src|
    requires forall k | c.index <= k < |src| :: Joins(c.buffer + src[c.index..k], src[k])
    decreases |src| - c.index
    ensures Run(src, c) == Ok(c.tokens)
  {
    if c.index < |src| {
      assert c.buffer + src[c.index..c.index] == c.buffer;
      AccumulatesIff(src, c);
      var n := Accumulated(c, src[c.index]);
      forall k | n.index <= k < |src|
        ensures Joins(n.buffer + src[n.index..k], src[k])
      {
        assert n.buffer + src[n.index..k] == c.buffer + src[c.index..k];
      }
      TrailingWordDropped(src, n);
    }
  }
}
