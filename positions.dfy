/**
 * Where the line and column end up after the lexer has consumed some text:
 * the line moves on by the number of newlines consumed, and the column is
 * one more than the number of characters after the last newline (or moves
 * on by the length of the text when it holds no newline). Inside a string
 * literal an escaped pair never starts a line, and the column after a
 * newline starts one further on.
 */
module Positions {
  import opened Wrappers
  import opened Chars
  import opened Tokens
  import opened StringScan
  import opened Scanner
  import opened Tables
  import opened StepFacts
  import opened Trivia

  /** The number of newlines in `s`. */
  function Newlines(s: string): (n: nat)
    ensures n <= |s|
  {
    if s == [] then 0
    else Newlines(s[..|s| - 1]) + (if s[|s| - 1] == '\n' then 1 else 0)
  }

  /** The column reached by reading `s` from column `col`. */
  function ColumnAfter(s: string, col: nat): (r: nat)
    ensures Newlines(s) == 0 ==> r == col + |s|
    ensures Newlines(s) > 0 ==> 1 <= r <= |s|
  {
    if s == [] then col
    else if s[|s| - 1] == '\n' then 1
    else ColumnAfter(s[..|s| - 1], col) + 1
  }

  /** Text with no newline character counts no newline. */
  lemma {:induction false} NoNewlines(s: string)
    requires forall i | 0 <= i < |s| :: s[i] != '\n'
    decreases |s|
    ensures Newlines(s) == 0
  {
    if s != [] {
      NoNewlines(s[..|s| - 1]);
    }
  }

  /** After the last newline, at index `k`, the column is one more than the characters that follow it. */
  lemma {:induction false} ColumnAfterLastNewline(s: string, col: nat, k: nat)
    requires k < |s| && s[k] == '\n' && Newlines(s[k + 1..]) == 0
    decreases |s|
    ensures ColumnAfter(s, col) == |s| - k
  {
    if k < |s| - 1 {
      var t := s[..|s| - 1];
      assert s[k + 1..][..|s| - k - 2] == t[k + 1..];
      assert s[|s| - 1] == s[k + 1..][|s| - k - 2];
      ColumnAfterLastNewline(t, col, k);
    }
  }

  /** Counting a first character, then the rest. */
  lemma {:induction false} NewlinesCons(ch: char, t: string)
    decreases |t|
    ensures Newlines([ch] + t) == (if ch == '\n' then 1 else 0) + Newlines(t)
  {
    var u := [ch] + t;
    if t != [] {
      assert u[..|u| - 1] == [ch] + t[..|t| - 1];
      assert u[|u| - 1] == t[|t| - 1];
      NewlinesCons(ch, t[..|t| - 1]);
    }
  }

  /** Reading a first character, then the rest. */
  lemma {:induction false} ColumnCons(ch: char, t: string, col: nat)
    decreases |t|
    ensures ColumnAfter([ch] + t, col) == ColumnAfter(t, if ch == '\n' then 1 else col + 1)
  {
    var u := [ch] + t;
    if t != [] {
      assert u[..|u| - 1] == [ch] + t[..|t| - 1];
      assert u[|u| - 1] == t[|t| - 1];
      ColumnCons(ch, t[..|t| - 1], col);
    }
  }

  /** Once a newline has been read, the starting column no longer matters. */
  lemma {:induction false} ColumnForgetsStart(t: string, x: nat, y: nat)
    requires Newlines(t) > 0
    decreases |t|
    ensures ColumnAfter(t, x) == ColumnAfter(t, y)
  {
    if t[|t| - 1] != '\n' {
      ColumnForgetsStart(t[..|t| - 1], x, y);
    }
  }

  /** `r` is where reading `src` from cursor `c` up to `r.index` ends: line and column follow the text read. */
  predicate Moved(src: string, c: Cursor, r: Cursor)
  {
    && c.index <= r.index <= |src|
    && r.line == c.line + Newlines(src[c.index..r.index])
    && r.offset == ColumnAfter(src[c.index..r.index], c.offset)
  }

  /** One character read at the cursor, then the rest up to `r`. */
  lemma ReadOne(src: string, c: Cursor, n: Cursor, r: Cursor)
    requires c.index < |src| && n.index == c.index + 1
    requires n.line == c.line + (if src[c.index] == '\n' then 1 else 0)
    requires n.offset == (if src[c.index] == '\n' then 1 else c.offset + 1)
    requires Moved(src, n, r)
    ensures Moved(src, c, r)
  {
    var t := src[n.index..r.index];
    var u := src[c.index..r.index];
    assert u == [src[c.index]] + t;
    NewlinesCons(src[c.index], t);
    ColumnCons(src[c.index], t, c.offset);
    assert Newlines(u) == Newlines(t) + (n.line - c.line);
    assert ColumnAfter(u, c.offset) == ColumnAfter(t, n.offset);
  }

  /** Skipping blanks moves the line by the newlines skipped and the column as the text read says. */
  lemma {:induction false} SkipBlanksMoves(src: string, c: Cursor)
    requires c.index <= |src|
    decreases |src| - c.index
    ensures Moved(src, c, SkipBlanks(src, c))
  {
    var ch := At(src, c.index);
    if IsBlank(ch) {
      var n := if ch == '\n' then c.(index := c.index + 1, line := c.line + 1, offset := 1)
               else c.(index := c.index + 1, offset := c.offset + 1);
      assert SkipBlanks(src, c) == SkipBlanks(src, n);
      SkipBlanksMoves(src, n);
      ReadOne(src, c, n, SkipBlanks(src, n));
    }
  }

  /** Skipping a line comment's body stays on the line and moves the column by the characters skipped. */
  lemma {:induction false} SkipLineMoves(src: string, c: Cursor)
    requires c.index <= |src|
    decreases |src| - c.index
    ensures Moved(src, c, SkipLine(src, c))
    ensures SkipLine(src, c).line == c.line
  {
    var ch := At(src, c.index);
    if ch != NUL && ch != '\n' {
      var n := c.(index := c.index + 1, offset := c.offset + 1);
      SkipLineMoves(src, n);
      ReadOne(src, c, n, SkipLine(src, n));
    }
  }

  /** Skipping a block comment's body, closer included, moves line and column as the text read says. */
  lemma {:induction false} SkipBlockMoves(src: string, c: Cursor)
    requires c.index <= |src|
    decreases |src| - c.index
    ensures Moved(src, c, SkipBlock(src, c))
  {
    var ch := At(src, c.index);
    if ch == NUL {
    } else if ch == '*' && At(src, c.index + 1) == '/' {
      assert src[c.index..c.index + 2] == "*/";
    } else {
      var n := if ch == '\n' then c.(index := c.index + 1, line := c.line + 1, offset := 1)
               else c.(index := c.index + 1, offset := c.offset + 1);
      assert SkipBlock(src, c) == SkipBlock(src, n);
      SkipBlockMoves(src, n);
      ReadOne(src, c, n, SkipBlock(src, n));
    }
  }

  /**
   * A literal's body as the column sees it: every escaped pair (a backslash
   * and the character after it) counts as two ordinary characters, so an
   * escaped newline starts no line.
   */
  function MaskEscapes(s: string): (t: string)
    ensures |t| == |s|
  {
    if s == [] then []
    else if s[0] == '\\' && |s| >= 2 then "\\\\" + MaskEscapes(s[2..])
    else [s[0]] + MaskEscapes(s[1..])
  }

  /** Where a literal's scan ends, given the masked body `t` it read and `q` = 1 for a closing quote. */
  predicate LiteralEnds(line: nat, offset: nat, t: string, q: nat, r: Scanned)
  {
    && r.line == line + Newlines(t)
    && r.offset == ColumnAfter(t, offset) + (if Newlines(t) > 0 then 1 else 0) + q
  }

  /** An escaped pair read first: the line does not move and the column moves by two. */
  lemma EscapedPairRead(t: string, line: nat, offset: nat, q: nat, r: Scanned)
    requires LiteralEnds(line, offset + 2, t, q, r)
    ensures LiteralEnds(line, offset, "\\\\" + t, q, r)
  {
    PlainRead('\\', t, line, offset + 1, q, r);
    PlainRead('\\', ['\\'] + t, line, offset, q, r);
    assert "\\\\" + t == ['\\'] + (['\\'] + t);
  }

  /** A newline read first: the next line starts, and its column counts from two. */
  lemma NewlineRead(t: string, line: nat, offset: nat, q: nat, r: Scanned)
    requires LiteralEnds(line + 1, 2, t, q, r)
    ensures LiteralEnds(line, offset, ['\n'] + t, q, r)
  {
    NewlinesCons('\n', t);
    ColumnCons('\n', t, offset);
    assert Newlines(t) > 0 ==> ColumnAfter(t, 2) == ColumnAfter(t, 1) by {
      if Newlines(t) > 0 {
        ColumnForgetsStart(t, 2, 1);
      }
    }
  }

  /** Any other character read first: the column moves by one. */
  lemma PlainRead(ch: char, t: string, line: nat, offset: nat, q: nat, r: Scanned)
    requires ch != '\n'
    requires LiteralEnds(line, offset + 1, t, q, r)
    ensures LiteralEnds(line, offset, [ch] + t, q, r)
  {
    NewlinesCons(ch, t);
    ColumnCons(ch, t, offset);
  }

  /**
   * `r` is where scanning a literal's body from `pos` at `line`:`offset`
   * ends: the body read (without the closing quote, `q` = 1 when there is
   * one) moves line and column as `LiteralEnds` says.
   */
  predicate BodyEnds(src: string, pos: nat, line: nat, offset: nat, r: Scanned)
  {
    var q := if r.token.tokenType == STRING then 1 else 0;
    && pos + q <= r.index <= |src|
    && LiteralEnds(line, offset, MaskEscapes(src[pos..r.index - q]), q, r)
  }

  /** An escaped pair at `pos`, then the rest of the body. */
  lemma EscapedPairScanned(src: string, pos: nat, line: nat, offset: nat, r: Scanned)
    requires pos + 2 <= |src| && src[pos] == '\\'
    requires BodyEnds(src, pos + 2, line, offset + 2, r)
    ensures BodyEnds(src, pos, line, offset, r)
  {
    var q := if r.token.tokenType == STRING then 1 else 0;
    var s := src[pos..r.index - q];
    assert s[0] == '\\' && |s| >= 2 && s[2..] == src[pos + 2..r.index - q];
    assert MaskEscapes(s) == "\\\\" + MaskEscapes(s[2..]);
    EscapedPairRead(MaskEscapes(s[2..]), line, offset, q, r);
  }

  /** A newline at `pos`, then the rest of the body. */
  lemma NewlineScanned(src: string, pos: nat, line: nat, offset: nat, r: Scanned)
    requires pos < |src| && src[pos] == '\n'
    requires BodyEnds(src, pos + 1, line + 1, 2, r)
    ensures BodyEnds(src, pos, line, offset, r)
  {
    var q := if r.token.tokenType == STRING then 1 else 0;
    var s := src[pos..r.index - q];
    assert s[0] == '\n' && s[1..] == src[pos + 1..r.index - q];
    assert MaskEscapes(s) == ['\n'] + MaskEscapes(s[1..]);
    NewlineRead(MaskEscapes(s[1..]), line, offset, q, r);
  }

  /** Any other character at `pos` (a backslash only when nothing follows it in the body), then the rest. */
  lemma PlainScanned(src: string, pos: nat, line: nat, offset: nat, r: Scanned)
    requires pos < |src| && src[pos] != '\n'
    requires BodyEnds(src, pos + 1, line, offset + 1, r)
    requires src[pos] == '\\' ==> r.index == pos + 1 && r.token.tokenType == INVALID
    ensures BodyEnds(src, pos, line, offset, r)
  {
    var q := if r.token.tokenType == STRING then 1 else 0;
    var s := src[pos..r.index - q];
    assert s[0] == src[pos] && s[1..] == src[pos + 1..r.index - q];
    assert !(s[0] == '\\' && |s| >= 2);
    assert MaskEscapes(s) == [src[pos]] + MaskEscapes(s[1..]);
    PlainRead(src[pos], MaskEscapes(s[1..]), line, offset, q, r);
  }

  /**
   * Scanning a literal's body: the line moves by the newlines read outside
   * escaped pairs; the column is one more than in plain text after such a
   * newline, and the closing quote counts one more.
   */
  lemma {:induction false} StringBodyMoves(src: string, pos: nat, line: nat, offset: nat, value: string)
    requires pos <= |src|
    decreases |src| - pos
    ensures BodyEnds(src, pos, line, offset, StringBody(src, pos, line, offset, value))
  {
    if pos == |src| || src[pos] == NUL || src[pos] == '"' {
      StopScanned(src, pos, line, offset, value);
    } else if src[pos] == '\\' && At(src, pos + 1) != NUL {
      var rest := value + [src[pos]] + [src[pos + 1]];
      StringBodyMoves(src, pos + 2, line, offset + 2, rest);
      EscapedPairStep(src, pos, line, offset, value);
    } else if src[pos] == '\n' {
      var rest := value + [src[pos]];
      StringBodyMoves(src, pos + 1, line + 1, 2, rest);
      NewlineStep(src, pos, line, offset, value);
    } else {
      var rest := value + [src[pos]];
      StringBodyMoves(src, pos + 1, line, offset + 1, rest);
      PlainStep(src, pos, line, offset, value);
    }
  }

  /** The scan stops at the terminator or the closing quote, having read nothing more. */
  lemma StopScanned(src: string, pos: nat, line: nat, offset: nat, value: string)
    requires pos <= |src| && (At(src, pos) == NUL || At(src, pos) == '"')
    ensures BodyEnds(src, pos, line, offset, StringBody(src, pos, line, offset, value))
  {
    var r := StringBody(src, pos, line, offset, value);
    assert r.index - (if r.token.tokenType == STRING then 1 else 0) == pos;
  }

  /** The scan at an escaped pair goes on two characters later. */
  lemma EscapedPairStep(src: string, pos: nat, line: nat, offset: nat, value: string)
    requires pos < |src| && src[pos] == '\\' && At(src, pos + 1) != NUL
    requires BodyEnds(src, pos + 2, line, offset + 2, StringBody(src, pos + 2, line, offset + 2, value + [src[pos]] + [src[pos + 1]]))
    ensures BodyEnds(src, pos, line, offset, StringBody(src, pos, line, offset, value))
  {
    var r := StringBody(src, pos, line, offset, value);
    assert r == StringBody(src, pos + 2, line, offset + 2, value + [src[pos]] + [src[pos + 1]]);
    EscapedPairScanned(src, pos, line, offset, r);
  }

  /** The scan at a newline goes on at the next line. */
  lemma NewlineStep(src: string, pos: nat, line: nat, offset: nat, value: string)
    requires pos < |src| && src[pos] == '\n'
    requires BodyEnds(src, pos + 1, line + 1, 2, StringBody(src, pos + 1, line + 1, 2, value + [src[pos]]))
    ensures BodyEnds(src, pos, line, offset, StringBody(src, pos, line, offset, value))
  {
    var r := StringBody(src, pos, line, offset, value);
    assert r == StringBody(src, pos + 1, line + 1, 2, value + [src[pos]]);
    NewlineScanned(src, pos, line, offset, r);
  }

  /** The scan at any other character goes on one column later. */
  lemma PlainStep(src: string, pos: nat, line: nat, offset: nat, value: string)
    requires pos < |src| && src[pos] != NUL && src[pos] != '"' && src[pos] != '\n'
    requires src[pos] == '\\' ==> At(src, pos + 1) == NUL
    requires BodyEnds(src, pos + 1, line, offset + 1, StringBody(src, pos + 1, line, offset + 1, value + [src[pos]]))
    ensures BodyEnds(src, pos, line, offset, StringBody(src, pos, line, offset, value))
  {
    var rest := value + [src[pos]];
    var r := StringBody(src, pos, line, offset, value);
    assert r == StringBody(src, pos + 1, line, offset + 1, rest);
    if src[pos] == '\\' {
      assert r == Scanned(Token(INVALID, rest), pos + 1, line, offset + 1);
    }
    PlainScanned(src, pos, line, offset, r);
  }

  /** A literal scanned from its opening quote: the quote counts one column, then the body moves as `BodyEnds` says. */
  lemma ParsedLiteralMoves(src: string, pos: nat, line: nat, offset: nat)
    requires pos < |src| && src[pos] == '"' && Terminable(src)
    ensures BodyEnds(src, pos + 1, line, offset + 1, ParseString(src, pos, line, offset))
  {
    StringBodyMoves(src, pos + 1, line, offset + 1, "\"");
  }

  /** Newlines in two pieces of text add up. */
  lemma {:induction false} NewlinesAppend(a: string, b: string)
    decreases |b|
    ensures Newlines(a + b) == Newlines(a) + Newlines(b)
  {
    if b == [] {
      assert a + b == a;
    } else {
      var u := a + b;
      assert u[..|u| - 1] == a + b[..|b| - 1];
      assert u[|u| - 1] == b[|b| - 1];
      NewlinesAppend(a, b[..|b| - 1]);
    }
  }

  /** Two characters read at the cursor, neither a newline, then the rest up to `r`. */
  lemma ReadOpener(src: string, c: Cursor, r: Cursor)
    requires c.index + 2 <= |src| && src[c.index] != '\n' && src[c.index + 1] != '\n'
    requires Moved(src, c.(index := c.index + 2, offset := c.offset + 2), r)
    ensures Moved(src, c, r)
  {
    var m := c.(index := c.index + 1, offset := c.offset + 1);
    ReadOne(src, m, c.(index := c.index + 2, offset := c.offset + 2), r);
    ReadOne(src, c, m, r);
  }

  /**
   * A block comment, with nothing buffered: one pass reads it whole, and the
   * line and column it ends at follow the text read, opener and closer
   * included.
   */
  lemma BlockCommentMoves(src: string, c: Cursor)
    requires Terminable(src) && c.index + 2 <= |src|
    requires src[c.index] == '/' && src[c.index + 1] == '*' && c.buffer == []
    ensures Step(src, c).Advanced? && Moved(src, c, Step(src, c).next)
    ensures Step(src, c).next == SkipBlock(src, c.(index := c.index + 2, offset := c.offset + 2))
  {
    var n := c.(index := c.index + 2, offset := c.offset + 2);
    assert ConsumeBuffer(c) == Advanced(c);
    BlockCommentStep(src, c, c);
    SkipBlockMoves(src, n);
    ReadOpener(src, c, SkipBlock(src, n));
  }

  /** A line comment, with nothing buffered: one pass reads it up to its newline, on the same line. */
  lemma LineCommentMoves(src: string, c: Cursor)
    requires Terminable(src) && c.index + 2 <= |src|
    requires src[c.index] == '/' && src[c.index + 1] == '/' && c.buffer == []
    ensures Step(src, c).Advanced? && Moved(src, c, Step(src, c).next)
    ensures Step(src, c).next.line == c.line && Step(src, c).next.tokens == c.tokens
  {
    var n := c.(index := c.index + 2, offset := c.offset + 2);
    assert ConsumeBuffer(c) == Advanced(c);
    LineCommentStep(src, c, c);
    SkipLineMoves(src, n);
    ReadOpener(src, c, SkipLine(src, n));
  }

  /** A run of blanks, with nothing buffered: one pass reads it whole, and line and column follow it. */
  lemma BlanksMove(src: string, c: Cursor)
    requires Terminable(src) && c.index < |src| && IsBlank(src[c.index]) && c.buffer == []
    ensures Step(src, c).Advanced? && Moved(src, c, Step(src, c).next)
  {
    WhiteSpaceStep(src, c);
    SkipBlanksMoves(src, c);
  }

  /** A block comment over three lines, then a character no handler takes. */
  const THREE_LINE_COMMENT := "/* a\nb\nc */@"

  /** The comment's text holds two newlines, and four characters follow the last one. */
  lemma ThreeLineCommentText()
    ensures Newlines(THREE_LINE_COMMENT[0..11]) == 2
    ensures ColumnAfter(THREE_LINE_COMMENT[0..11], 1) == 5
  {
    var read := THREE_LINE_COMMENT[0..11];
    assert read == "/* a" + "\n" + "b" + "\n" + "c */";
    NewlinesAppend("/* a" + "\n" + "b" + "\n", "c */");
    NewlinesAppend("/* a" + "\n" + "b", "\n");
    NewlinesAppend("/* a" + "\n", "b");
    NewlinesAppend("/* a", "\n");
    NoNewlines("/* a");
    NoNewlines("b");
    NoNewlines("c */");
    assert Newlines("\n") == 1;
    assert read[7..] == "c */";
    ColumnAfterLastNewline(read, 1, 6);
  }

  /** Skipping the comment's body from just after its opener stops right after its closer. */
  lemma ThreeLineCommentBody()
    ensures SkipBlock(THREE_LINE_COMMENT, Cursor(2, 1, 3, [], [])).index == 11
  {
    assert THREE_LINE_COMMENT[2..2 + 7] == " a\nb\nc ";
    SkipBlockLands(THREE_LINE_COMMENT, Cursor(2, 1, 3, [], []), " a\nb\nc ", true);
  }

  /** The first pass reads the whole comment and stops at line 3, column 5. */
  lemma ThreeLineCommentRead()
    ensures Step(THREE_LINE_COMMENT, Start()) == Advanced(Cursor(11, 3, 5, [], []))
  {
    BlockCommentMoves(THREE_LINE_COMMENT, Start());
    ThreeLineCommentBody();
    ThreeLineCommentText();
  }

  /** No operator is spelled at the character after the comment. */
  lemma NoOperatorAtEnd()
    ensures MatchOperator(THREE_LINE_COMMENT, 11).None?
  {
    forall j | 0 <= j < |OPERATORS|
      ensures !MatchesAt(OPERATORS[j].0, THREE_LINE_COMMENT, 11)
    {
      OperatorLengths(j);
      assert THREE_LINE_COMMENT[11..12] == "@";
    }
  }

  /**
   * The error after the comment is reported on its third line, at the
   * column right after the closer.
   */
  lemma ThreeLineCommentPosition()
    ensures Scan(Some(THREE_LINE_COMMENT)) == Err(LexError(3, 5))
  {
    var src := THREE_LINE_COMMENT;
    var next := Cursor(11, 3, 5, [], []);
    ThreeLineCommentRead();
    NoOperatorAtEnd();
    UnknownCharacterFails(src, next);
  }
}
