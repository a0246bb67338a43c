/**
 * The lexer object: its position, accumulation buffer and token list are
 * fields its handlers update in place. Every handler is proved to make
 * exactly the transition its function in module Scanner describes, and a
 * whole run of `GenerateTokens` to return what `Scan` computes.
 */
module Lexing {
  import opened Wrappers
  import opened Chars
  import opened Tokens
  import opened Tables
  import opened BufferFlush
  import opened StringScan
  import opened Scanner

  /** What a handler reports: it did not apply, it consumed input, or it raised the error. */
  datatype Outcome = Declined | Handled | Raised(error: LexError)

  /** A handler's report and its change of state are the ones transition `s` describes. */
  predicate Agrees(o: Outcome, s: Transition, before: Cursor, after: Cursor)
  {
    match s
    case NoMatch => o == Declined && after == before
    case Advanced(next) => o == Handled && after == next
    case Failed(e) => o == Raised(e)
  }

  /** Skipping blanks from a blank goes on from the next character, on the next line after a newline. */
  lemma BlankSkipped(src: string, c: Cursor)
    requires c.index <= |src| && IsBlank(At(src, c.index))
    ensures SkipBlanks(src, c) == SkipBlanks(src,
      if src[c.index] == '\n' then c.(index := c.index + 1, line := c.line + 1, offset := 1)
      else c.(index := c.index + 1, offset := c.offset + 1))
  {
  }

  /** At a blank, the white-space handler skips the blanks from the flushed state. */
  lemma BlanksAfterFlush(src: string, c: Cursor, f: Cursor)
    requires c.index < |src| && IsBlank(At(src, c.index)) && ConsumeBuffer(c) == Advanced(f)
    ensures WhiteSpaces(src, c) == Advanced(SkipBlanks(src, f))
  {
  }

  /** Skipping a block comment's body at a character that does not close it and is not the terminator. */
  lemma BlockCharSkipped(src: string, c: Cursor)
    requires c.index < |src| && src[c.index] != NUL
    requires !(src[c.index] == '*' && At(src, c.index + 1) == '/')
    ensures src[c.index] == '\n' ==> SkipBlock(src, c) == SkipBlock(src, c.(index := c.index + 1, line := c.line + 1, offset := 1))
    ensures src[c.index] != '\n' ==> SkipBlock(src, c) == SkipBlock(src, c.(index := c.index + 1, offset := c.offset + 1))
  {
  }

  class Lexer {
    var src: string
    var index: nat
    var line: nat
    var offset: nat
    var tokenBuffer: string
    var tokens: seq<Token>

    /** The scan state held in the fields. */
    function State(): Cursor
      reads this
    {
      Cursor(index, line, offset, tokenBuffer, tokens)
    }

    /** The error the lexer raises now: it reports the current line and column. */
    function Error(): (e: LexError)
      reads this
      ensures e.line == line && e.column == offset
    {
      ErrorAt(State())
    }

    constructor()
      ensures src == [] && State() == Start()
    {
      src := [];
      index, line, offset := 0, 1, 1;
      tokenBuffer, tokens := [], [];
    }

    /**
     * Lexes `input` from the start: every token in order, or the first
     * error; an absent input gives no tokens.
     */
    method GenerateTokens(input: Option<string>) returns (r: ScanResult)
      requires input.Some? ==> Terminable(input.value)
      modifies this
      ensures r == Scan(input)
    {
      tokens := [];
      tokenBuffer := [];
      index, line, offset := 0, 1, 1;
      if input.None? {
        return Ok(tokens);
      }
      src := input.value;
      while At(src, index) != NUL
        invariant src == input.value && index <= |src|
        invariant Run(src, State()) == Scan(input)
        decreases |src| - index
      {
        ghost var c := State();
        ghost var step := Step(src, c);
        assert Run(src, c) == if step.Failed? then Err(step.error) else Run(src, step.next);
        var o := HandleStringLiterals();
        if o.Raised? { return Err(o.error); }
        if o.Handled? { continue; }
        o := HandleComments();
        if o.Raised? { return Err(o.error); }
        if o.Handled? { continue; }
        o := HandleAlphaNumericChars();
        if o.Handled? { continue; }
        o := ConsumeTokenBuffer();
        if o.Raised? { return Err(o.error); }
        o := HandleWhiteSpaces();
        if o.Raised? { return Err(o.error); }
        if o.Handled? { continue; }
        o := HandleDelimiters();
        if o.Raised? { return Err(o.error); }
        if o.Handled? { continue; }
        o := HandleOperators();
        if o.Handled? { continue; }
        // a character no handler takes
        return Err(Error());
      }
      return Ok(tokens);
    }

    /** A string literal: flush the buffer, scan the literal, raise the error if it is unclosed. */
    method HandleStringLiterals() returns (o: Outcome)
      requires Terminable(src) && index < |src|
      modifies this
      ensures src == old(src)
      ensures Agrees(o, StringLiterals(src, old(State())), old(State()), State())
    {
      if src[index] != '"' {
        return Declined;
      }
      o := ConsumeTokenBuffer();
      if o.Raised? {
        return;
      }
      var token, i, l, off := ParseStringLiteral(src, index, line, offset);
      index, line, offset := i, l, off;
      if token.GetType() == INVALID {
        return Raised(Error());
      }
      tokens := tokens + [token];
      return Handled;
    }

    /** Comments: a slash followed by a slash or a star; any other slash is declined. */
    method HandleComments() returns (o: Outcome)
      requires Terminable(src) && index < |src|
      modifies this
      ensures src == old(src)
      ensures Agrees(o, Comments(src, old(State())), old(State()), State())
    {
      if src[index] != '/' {
        return Declined;
      }
      var chr1 := At(src, index + 1);
      if chr1 == '/' {
        o := HandleLineComments();
        return;
      } else if chr1 == '*' {
        o := HandleMultilineComments();
        return;
      }
      return Declined;
    }

    /** A line comment: flush, step over the two slashes, stop at the newline or the end. */
    method HandleLineComments() returns (o: Outcome)
      requires index + 2 <= |src|
      modifies this
      ensures src == old(src)
      ensures Agrees(o, LineComment(src, old(State())), old(State()), State())
    {
      o := ConsumeTokenBuffer();
      if o.Raised? {
        return;
      }
      ghost var flushed := State();
      index := index + 2;
      offset := offset + 2;
      LineAfterFlush(src, old(State()), flushed);
      SkipLineBody();
    }

    /** The scan of a line comment's body, up to the newline or the end of the input. */
    method SkipLineBody()
      requires index <= |src|
      modifies this
      ensures src == old(src)
      ensures State() == SkipLine(src, old(State()))
    {
      ghost var entry := State();
      while At(src, index) != NUL && At(src, index) != '\n'
        invariant src == old(src) && index <= |src|
        invariant SkipLine(src, State()) == SkipLine(src, entry)
        decreases |src| - index
      {
        index := index + 1;
        offset := offset + 1;
      }
    }

    /** A block comment: flush, step over the opening, stop after the closing star-slash or at the end. */
    method HandleMultilineComments() returns (o: Outcome)
      requires index + 2 <= |src|
      modifies this
      ensures src == old(src)
      ensures Agrees(o, BlockComment(src, old(State())), old(State()), State())
    {
      o := ConsumeTokenBuffer();
      if o.Raised? {
        return;
      }
      ghost var flushed := State();
      index := index + 2;
      offset := offset + 2;
      BlockAfterFlush(src, old(State()), flushed);
      SkipBlockBody();
    }

    /** The scan of a block comment's body, through the closing star-slash or to the end of the input. */
    method SkipBlockBody()
      requires index <= |src|
      modifies this
      ensures src == old(src)
      ensures State() == SkipBlock(src, old(State()))
    {
      ghost var entry := State();
      var i, l, off := index, line, offset;
      while At(src, i) != NUL
        invariant src == old(src) && State() == entry && i <= |src|
        invariant SkipBlock(src, entry.(index := i, line := l, offset := off)) == SkipBlock(src, entry)
        decreases |src| - i
      {
        var chr0 := At(src, i);
        var chr1 := At(src, i + 1);
        if chr0 == '*' && chr1 == '/' {
          i, off := i + 2, off + 2;
          assert SkipBlock(src, entry) == entry.(index := i, line := l, offset := off);
          break;
        } else if chr0 == '\n' {
          BlockCharSkipped(src, entry.(index := i, line := l, offset := off));
          i, l, off := i + 1, l + 1, 1;
        } else {
          BlockCharSkipped(src, entry.(index := i, line := l, offset := off));
          i, off := i + 1, off + 1;
        }
      }
      assert SkipBlock(src, entry) == entry.(index := i, line := l, offset := off);
      index, line, offset := i, l, off;
    }

    /** White space: flush at the first blank, then skip the whole run of blanks. */
    method HandleWhiteSpaces() returns (o: Outcome)
      requires index < |src|
      modifies this
      ensures src == old(src)
      ensures Agrees(o, WhiteSpaces(src, old(State())), old(State()), State())
    {
      var containsWhitespace := false;
      var i, l, off := index, line, offset;
      while IsBlank(At(src, i))
        invariant src == old(src) && i <= |src|
        invariant !containsWhitespace ==> State() == old(State()) && i == index && l == line && off == offset
        invariant containsWhitespace ==>
          && IsBlank(At(src, old(index)))
          && ConsumeBuffer(old(State())) == Advanced(State())
          && SkipBlanks(src, State().(index := i, line := l, offset := off)) == SkipBlanks(src, State())
        decreases |src| - i
      {
        if !containsWhitespace {
          var flushed := ConsumeTokenBuffer();
          if flushed.Raised? {
            return flushed;
          }
        }
        containsWhitespace := true;
        ghost var here := State().(index := i, line := l, offset := off);
        BlankSkipped(src, here);
        if At(src, i) == '\n' {
          off := 1;
          l := l + 1;
        } else {
          off := off + 1;
        }
        i := i + 1;
      }
      ghost var last := State().(index := i, line := l, offset := off);
      assert SkipBlanks(src, last) == last;
      if containsWhitespace {
        BlanksAfterFlush(src, old(State()), State());
      }
      index, line, offset := i, l, off;
      o := if containsWhitespace then Handled else Declined;
    }

    /** Identifier and number text: a letter, digit or underscore, or a period right after a buffered digit. */
    method HandleAlphaNumericChars() returns (o: Outcome)
      requires index < |src|
      modifies this
      ensures src == old(src)
      ensures Agrees(o, AlphaNumericChars(src, old(State())), old(State()), State())
    {
      var chr0 := src[index];
      if IsAlphaNumeric(chr0) || (chr0 == '.' && tokenBuffer != [] && IsDigit(tokenBuffer[|tokenBuffer| - 1])) {
        tokenBuffer := tokenBuffer + [chr0];
        index := index + 1;
        offset := offset + 1;
        return Handled;
      }
      return Declined;
    }

    /** Delimiters: one token each; the index moves on, the column does not. */
    method HandleDelimiters() returns (o: Outcome)
      requires index < |src|
      modifies this
      ensures src == old(src)
      ensures Agrees(o, Delimiters(src, old(State())), old(State()), State())
    {
      var chr0 := src[index];
      if IsDelimiter(chr0) {
        var tag := DelimiterTag(chr0);
        if tag == INVALID {
          o := Raised(Error());
        } else {
          tokens := tokens + [Token(tag)];
          index := index + 1;
          o := Handled;
        }
        return;
      }
      return Declined;
    }

    /** Operators: the table is tried in order and the first entry spelled at the index is taken. */
    method HandleOperators() returns (o: Outcome)
      requires Terminable(src) && index < |src|
      modifies this
      ensures src == old(src)
      ensures Agrees(o, Operators(src, old(State())), old(State()), State())
    {
      var k := 0;
      while k < |OPERATORS|
        invariant k <= |OPERATORS|
        invariant src == old(src) && State() == old(State())
        invariant FirstMatchFrom(src, index, k) == MatchOperator(src, index)
      {
        var (opText, tag) := OPERATORS[k];
        var matches := MatchesAtIndex(opText);
        if matches {
          tokens := tokens + [Token(tag)];
          index := index + |opText|;
          offset := offset + |opText|;
          return Handled;
        }
        k := k + 1;
      }
      return Declined;
    }

    /** Whether `opText` is spelled at the current index, compared character by character up to the terminator. */
    method MatchesAtIndex(opText: string) returns (matches: bool)
      requires Terminable(src) && index <= |src|
      ensures matches <==> MatchesAt(opText, src, index)
    {
      matches := true;
      var i := 0;
      while i < |opText|
        invariant i <= |opText|
        invariant index + i <= |src| && src[index..index + i] == opText[..i]
      {
        var ch := At(src, index + i);
        if ch == NUL || ch != opText[i] {
          assert !MatchesAt(opText, src, index);
          return false;
        }
        assert src[index..index + i + 1] == src[index..index + i] + [ch];
        i := i + 1;
      }
      assert opText[..i] == opText;
    }

    /** The buffer flush: an INVALID buffer raises the error; otherwise its token is appended and the buffer emptied. */
    method ConsumeTokenBuffer() returns (o: Outcome)
      modifies this
      ensures src == old(src)
      ensures Agrees(o, ConsumeBuffer(old(State())), old(State()), State())
    {
      if tokenBuffer != [] {
        var token := BufferToToken(tokenBuffer);
        if token.GetType() == INVALID {
          return Raised(Error());
        }
        tokens := tokens + [token];
        tokenBuffer := [];
      }
      return Handled;
    }
  }
}
