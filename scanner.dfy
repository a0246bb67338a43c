/**
 * The lexer's behaviour as functions: the scan state, one function per
 * handler, one pass of the main loop (Step), and the whole scan (Run, Scan).
 * The Lexer class is proved to do exactly what these functions say.
 */
module Scanner {
  import opened Wrappers
  import opened Chars
  import opened Tokens
  import opened Tables
  import opened BufferFlush
  import opened StringScan

  /** A fatal lexical error, at a 1-based line and column. */
  datatype LexError = LexError(line: nat, column: nat)

  /**
   * The scan state: the index into the input, the 1-based line and column
   * (`offset`), the text of the identifier or number being accumulated, and
   * the tokens produced so far.
   */
  datatype Cursor = Cursor(index: nat, line: nat, offset: nat, buffer: string, tokens: seq<Token>)

  /** What a handler does: it does not apply, it consumes input, or it raises the error. */
  datatype Transition = NoMatch | Advanced(next: Cursor) | Failed(error: LexError)

  /** The outcome of a scan: every token, or the first error and nothing else. */
  datatype ScanResult = Ok(tokens: seq<Token>) | Err(error: LexError)

  /** The state a scan starts from. */
  function Start(): Cursor
  {
    Cursor(0, 1, 1, [], [])
  }

  /** The error raised in state `c`: it reports the current line and column. */
  function ErrorAt(c: Cursor): (e: LexError)
    ensures e.line == c.line && e.column == c.offset
  {
    LexError(c.line, c.offset)
  }

  /**
   * The buffer flush: an empty buffer is left alone; otherwise the buffer is
   * classified, an INVALID result raises the error, and any other token is
   * appended and the buffer emptied. The position does not move.
   */
  function ConsumeBuffer(c: Cursor): (s: Transition)
    ensures !s.NoMatch?
    ensures s.Advanced? ==> s.next.index == c.index && s.next.line == c.line && s.next.offset == c.offset
    ensures s.Advanced? ==> s.next.buffer == []
    ensures s.Advanced? ==> |c.tokens| <= |s.next.tokens|
  {
    if c.buffer == [] then Advanced(c)
    else
      var token := Classify(c.buffer);
      if token.tokenType == INVALID then Failed(ErrorAt(c))
      else Advanced(c.(tokens := c.tokens + [token], buffer := []))
  }

  /** A string literal: flush, then scan it; an unclosed literal raises the error where the scan stopped. */
  function StringLiterals(src: string, c: Cursor): (s: Transition)
    requires Terminable(src) && c.index < |src|
    ensures s.Advanced? ==> c.index < s.next.index <= |src|
    ensures s.Advanced? ==> |c.tokens| <= |s.next.tokens|
  {
    if At(src, c.index) != '"' then NoMatch
    else
      var f := ConsumeBuffer(c);
      if f.Failed? then f
      else
        var c1 := f.next;
        var r := ParseString(src, c1.index, c1.line, c1.offset);
        if r.token.tokenType == INVALID then Failed(LexError(r.line, r.offset))
        else Advanced(c1.(index := r.index, line := r.line, offset := r.offset, tokens := c1.tokens + [r.token]))
  }

  /** Skipping the body of a line comment, up to the newline or the end of input. */
  function SkipLine(src: string, c: Cursor): (r: Cursor)
    requires c.index <= |src|
    decreases |src| - c.index
    ensures c.index <= r.index <= |src|
    ensures r.buffer == c.buffer && r.tokens == c.tokens
  {
    var ch := At(src, c.index);
    if ch == NUL || ch == '\n' then c
    else SkipLine(src, c.(index := c.index + 1, offset := c.offset + 1))
  }

  /** Skipping the body of a block comment, through the closing star-slash or to the end of input. */
  function SkipBlock(src: string, c: Cursor): (r: Cursor)
    requires c.index <= |src|
    decreases |src| - c.index
    ensures c.index <= r.index <= |src|
    ensures r.buffer == c.buffer && r.tokens == c.tokens
  {
    var ch := At(src, c.index);
    if ch == NUL then c
    else if ch == '*' && At(src, c.index + 1) == '/' then c.(index := c.index + 2, offset := c.offset + 2)
    else if ch == '\n' then SkipBlock(src, c.(index := c.index + 1, line := c.line + 1, offset := 1))
    else SkipBlock(src, c.(index := c.index + 1, offset := c.offset + 1))
  }

  /** A line comment at `c.index`: flush, step over the two slashes, skip the body. */
  function LineComment(src: string, c: Cursor): (s: Transition)
    requires c.index + 2 <= |src|
    ensures s.Advanced? ==> c.index < s.next.index <= |src|
    ensures s.Advanced? ==> |c.tokens| <= |s.next.tokens|
  {
    var f := ConsumeBuffer(c);
    if f.Failed? then f
    else Advanced(SkipLine(src, f.next.(index := f.next.index + 2, offset := f.next.offset + 2)))
  }

  /** A block comment at `c.index`: flush, step over the opening, skip the body. */
  function BlockComment(src: string, c: Cursor): (s: Transition)
    requires c.index + 2 <= |src|
    ensures s.Advanced? ==> c.index < s.next.index <= |src|
    ensures s.Advanced? ==> |c.tokens| <= |s.next.tokens|
  {
    var f := ConsumeBuffer(c);
    if f.Failed? then f
    else Advanced(SkipBlock(src, f.next.(index := f.next.index + 2, offset := f.next.offset + 2)))
  }

  /** After a successful flush, the line comment handler skips the body from just after the opener. */
  lemma LineAfterFlush(src: string, c: Cursor, f: Cursor)
    requires c.index + 2 <= |src| && ConsumeBuffer(c) == Advanced(f)
    ensures LineComment(src, c) == Advanced(SkipLine(src, f.(index := f.index + 2, offset := f.offset + 2)))
  {
    var g := ConsumeBuffer(c);
    assert !g.Failed? && g.next == f;
  }

  /** After a successful flush, the block comment handler skips the body from just after the opener. */
  lemma BlockAfterFlush(src: string, c: Cursor, f: Cursor)
    requires c.index + 2 <= |src| && ConsumeBuffer(c) == Advanced(f)
    ensures BlockComment(src, c) == Advanced(SkipBlock(src, f.(index := f.index + 2, offset := f.offset + 2)))
  {
    var g := ConsumeBuffer(c);
    assert !g.Failed? && g.next == f;
  }

  /** Comments: a slash followed by a slash or a star; any other slash is left to the operators. */
  function Comments(src: string, c: Cursor): (s: Transition)
    requires Terminable(src) && c.index < |src|
    ensures s.Advanced? ==> c.index < s.next.index <= |src|
    ensures s.Advanced? ==> |c.tokens| <= |s.next.tokens|
  {
    if At(src, c.index) != '/' then NoMatch
    else if At(src, c.index + 1) == '/' then LineComment(src, c)
    else if At(src, c.index + 1) == '*' then BlockComment(src, c)
    else NoMatch
  }

  /** A character joins the buffer: it is alphanumeric, or it is a period right after a buffered digit. */
  function Joins(buffer: string, ch: char): (b: bool)
    ensures b ==> ch != NUL && ch != '"' && ch != '/' && !IsBlank(ch) && !IsDelimiter(ch)
  {
    IsAlphaNumeric(ch) || (ch == '.' && buffer != [] && IsDigit(buffer[|buffer| - 1]))
  }

  /** Accumulation of identifier and number text. */
  function AlphaNumericChars(src: string, c: Cursor): (s: Transition)
    requires c.index < |src|
    ensures s.Advanced? <==> Joins(c.buffer, At(src, c.index))
    ensures s.Advanced? ==> s.next.index == c.index + 1 && s.next.offset == c.offset + 1 && s.next.line == c.line
    ensures s.Advanced? ==> s.next.buffer == c.buffer + [src[c.index]] && s.next.tokens == c.tokens
  {
    var ch := At(src, c.index);
    if Joins(c.buffer, ch) then
      Advanced(c.(buffer := c.buffer + [ch], index := c.index + 1, offset := c.offset + 1))
    else NoMatch
  }

  /** Skipping a run of blanks; a newline moves to column 1 of the next line. */
  function SkipBlanks(src: string, c: Cursor): (r: Cursor)
    requires c.index <= |src|
    decreases |src| - c.index
    ensures c.index <= r.index <= |src|
    ensures r.buffer == c.buffer && r.tokens == c.tokens
  {
    var ch := At(src, c.index);
    if !IsBlank(ch) then c
    else if ch == '\n' then SkipBlanks(src, c.(index := c.index + 1, line := c.line + 1, offset := 1))
    else SkipBlanks(src, c.(index := c.index + 1, offset := c.offset + 1))
  }

  /** White space: flush at the first blank, then skip the whole run. */
  function WhiteSpaces(src: string, c: Cursor): (s: Transition)
    requires c.index < |src|
    ensures s.Advanced? ==> c.index < s.next.index <= |src|
    ensures s.Advanced? ==> |c.tokens| <= |s.next.tokens|
  {
    if !IsBlank(At(src, c.index)) then NoMatch
    else
      var f := ConsumeBuffer(c);
      if f.Failed? then f
      else Advanced(SkipBlanks(src, f.next))
  }

  /** Delimiters: one token each; the index moves on but the column does not. */
  function Delimiters(src: string, c: Cursor): (s: Transition)
    requires c.index < |src|
    ensures s.NoMatch? <==> !IsDelimiter(src[c.index])
    ensures s.Advanced? ==> s.next.index == c.index + 1 && s.next.offset == c.offset && s.next.line == c.line
    ensures s.Advanced? ==> s.next.buffer == c.buffer && |s.next.tokens| == |c.tokens| + 1
  {
    var ch := At(src, c.index);
    if !IsDelimiter(ch) then NoMatch
    else
      var tag := DelimiterTag(ch);
      if tag == INVALID then Failed(ErrorAt(c))
      else Advanced(c.(tokens := c.tokens + [Token(tag)], index := c.index + 1))
  }

  /** Operators: the table entry selected at the index, if any; index and column move by its length. */
  function Operators(src: string, c: Cursor): (s: Transition)
    requires c.index < |src|
    ensures s.Advanced? <==> MatchOperator(src, c.index).Some?
    ensures s.Advanced? ==> c.index < s.next.index <= |src|
    ensures s.Advanced? ==>
      var op := OPERATORS[MatchOperator(src, c.index).value].0;
      s.next.index == c.index + |op| && s.next.offset == c.offset + |op| && s.next.line == c.line
    ensures s.Advanced? ==> s.next.buffer == c.buffer && |s.next.tokens| == |c.tokens| + 1
  {
    match MatchOperator(src, c.index)
    case None => NoMatch
    case Some(k) =>
      OperatorLengths(k);
      var (op, tag) := OPERATORS[k];
      Advanced(c.(tokens := c.tokens + [Token(tag)], index := c.index + |op|, offset := c.offset + |op|))
  }

  /**
   * One pass of the main loop: the handlers in their fixed order, the first
   * that applies wins; the buffer is flushed before white space, delimiters
   * and operators are tried; a character no handler takes raises the error.
   */
  function Step(src: string, c: Cursor): (s: Transition)
    requires Terminable(src) && c.index < |src|
    ensures !s.NoMatch?
    ensures s.Advanced? ==> c.index < s.next.index <= |src|
    ensures s.Advanced? ==> |c.tokens| <= |s.next.tokens|
  {
    var s1 := StringLiterals(src, c);
    if !s1.NoMatch? then s1
    else
      var s2 := Comments(src, c);
      if !s2.NoMatch? then s2
      else
        var s3 := AlphaNumericChars(src, c);
        if !s3.NoMatch? then s3
        else
          var f := ConsumeBuffer(c);
          if f.Failed? then f
          else
            var c1 := f.next;
            var s4 := WhiteSpaces(src, c1);
            if !s4.NoMatch? then s4
            else
              var s5 := Delimiters(src, c1);
              if !s5.NoMatch? then s5
              else
                var s6 := Operators(src, c1);
                if !s6.NoMatch? then s6
                else Failed(ErrorAt(c1))
  }

  /** The main loop from state `c` to the terminator: no flush happens there, so a pending buffer is dropped. */
  function Run(src: string, c: Cursor): (r: ScanResult)
    requires Terminable(src) && c.index <= |src|
    decreases |src| - c.index
    ensures r.Ok? ==> |c.tokens| <= |r.tokens|
    ensures c.index == |src| ==> r == Ok(c.tokens)
  {
    if At(src, c.index) == NUL then Ok(c.tokens)
    else
      var s := Step(src, c);
      if s.Failed? then Err(s.error) else Run(src, s.next)
  }

  /** A whole scan; an absent input yields no tokens. */
  function Scan(input: Option<string>): (r: ScanResult)
    requires input.Some? ==> Terminable(input.value)
    ensures input.None? || input.value == [] ==> r == Ok([])
  {
    match input
    case None => Ok([])
    case Some(src) => Run(src, Start())
  }
}
