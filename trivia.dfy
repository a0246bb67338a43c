/**
 * Input made only of blanks and comments produces no tokens and no error,
 * an unclosed block comment at the end included. Such input is described
 * independently of the scanner, as a layout of pieces.
 */
module Trivia {
  import opened Wrappers
  import opened Chars
  import opened Scanner

  /** A piece of trivia: one blank, a line comment's text after `//`, or a block comment's text after the opening slash-star. */
  datatype Trivium = Blank(ch: char) | LineNote(text: string) | BlockNote(text: string, closed: bool)

  /** The characters a piece is written with. */
  function Spelling(p: Trivium): string
  {
    match p
    case Blank(ch) => [ch]
    case LineNote(text) => "//" + text
    case BlockNote(text, closed) => "/*" + text + (if closed then "*/" else "")
  }

  /** The characters a sequence of pieces is written with. */
  function Render(ps: seq<Trivium>): string
  {
    if ps == [] then [] else Spelling(ps[0]) + Render(ps[1..])
  }

  /** No star-slash occurs in `s`. */
  predicate NoCloser(s: string)
  {
    forall k | 0 <= k < |s| - 1 :: !(s[k] == '*' && s[k + 1] == '/')
  }

  /**
   * Piece `p` is followed by `rest` as it should be: a blank is a blank
   * character; a line comment has no newline in its text and ends the input
   * or is followed by a newline; a block comment's text has no star-slash, and
   * an unclosed one ends the input.
   */
  predicate Fits(p: Trivium, rest: seq<Trivium>)
  {
    match p
    case Blank(ch) => IsBlank(ch)
    case LineNote(text) => '\n' !in text && (rest != [] ==> rest[0] == Blank('\n'))
    case BlockNote(text, closed) => NoCloser(text) && (closed || rest == [])
  }

  /** Every piece fits what follows it. */
  predicate Layout(ps: seq<Trivium>)
  {
    ps == [] || (Fits(ps[0], ps[1..]) && Layout(ps[1..]))
  }

  /** Reading `src` from `i` as `a` followed by `b`. */
  lemma SplitAt(src: string, i: nat, a: string, b: string)
    requires i <= |src| && src[i..] == a + b
    ensures i + |a| <= |src| && src[i..i + |a|] == a && src[i + |a|..] == b
  {
    assert src[i..][..|a|] == a;
    assert src[i..][|a|..] == b;
  }

  /** The first piece of a layout, read off the input: a comment starts with a slash; a blank is one blank character. */
  lemma FirstPiece(src: string, i: nat, ps: seq<Trivium>)
    requires i <= |src| && src[i..] == Render(ps) && Layout(ps) && ps != []
    ensures i < |src| && src[i + |Spelling(ps[0])|..] == Render(ps[1..]) && Layout(ps[1..])
    ensures !ps[0].Blank? ==> src[i] == '/'
    ensures ps[0].Blank? ==> src[i] == ps[0].ch && IsBlank(src[i]) && |Spelling(ps[0])| == 1
  {
    SplitAt(src, i, Spelling(ps[0]), Render(ps[1..]));
  }

  /** Skipping blanks over a layout stops at the start of a later piece, past every leading blank piece. */
  lemma {:induction false} SkipBlanksLands(src: string, c: Cursor, ps: seq<Trivium>) returns (m: nat)
    requires Terminable(src) && c.index <= |src| && src[c.index..] == Render(ps) && Layout(ps)
    decreases |ps|
    ensures m <= |ps| && (ps != [] && ps[0].Blank? ==> m >= 1)
    ensures var r := SkipBlanks(src, c); src[r.index..] == Render(ps[m..]) && Layout(ps[m..])
  {
    if ps == [] {
      assert c.index == |src|;
      m := 0;
    } else if !ps[0].Blank? {
      FirstPiece(src, c.index, ps);
      m := 0;
    } else {
      var next := BlankPieceSkipped(src, c, ps);
      var m' := SkipBlanksLands(src, next, ps[1..]);
      assert ps[1..][m'..] == ps[m' + 1..];
      m := m' + 1;
    }
  }

  /** Skipping blanks at a blank piece goes on from the start of the next piece. */
  lemma BlankPieceSkipped(src: string, c: Cursor, ps: seq<Trivium>) returns (next: Cursor)
    requires c.index <= |src| && src[c.index..] == Render(ps) && Layout(ps) && ps != [] && ps[0].Blank?
    ensures next.index == c.index + 1 <= |src|
    ensures src[next.index..] == Render(ps[1..]) && Layout(ps[1..])
    ensures SkipBlanks(src, c) == SkipBlanks(src, next)
  {
    FirstPiece(src, c.index, ps);
    next := if src[c.index] == '\n' then c.(index := c.index + 1, line := c.line + 1, offset := 1)
            else c.(index := c.index + 1, offset := c.offset + 1);
  }

  /** Skipping a line comment's body stops at its end: the newline after it, or the end of the input. */
  lemma {:induction false} SkipLineLands(src: string, c: Cursor, text: string)
    requires Terminable(src) && c.index + |text| <= |src|
    requires src[c.index..c.index + |text|] == text && '\n' !in text
    requires c.index + |text| == |src| || src[c.index + |text|] == '\n'
    decreases |text|
    ensures SkipLine(src, c).index == c.index + |text|
  {
    if text != [] {
      assert src[c.index] == text[0];
      assert src[c.index + 1..c.index + 1 + |text[1..]|] == text[1..];
      SkipLineLands(src, c.(index := c.index + 1, offset := c.offset + 1), text[1..]);
    }
  }

  /** Skipping a block comment's body stops right after its closer, or at the end of the input if it has none. */
  lemma {:induction false} SkipBlockLands(src: string, c: Cursor, text: string, closed: bool)
    requires Terminable(src) && c.index + |text| <= |src|
    requires src[c.index..c.index + |text|] == text && NoCloser(text)
    requires closed ==> c.index + |text| + 2 <= |src| && src[c.index + |text|] == '*' && src[c.index + |text| + 1] == '/'
    requires !closed ==> c.index + |text| == |src|
    decreases |text|
    ensures SkipBlock(src, c).index == c.index + |text| + (if closed then 2 else 0)
  {
    if text != [] {
      assert src[c.index] == text[0];
      assert src[c.index] == '*' ==> At(src, c.index + 1) != '/' by {
        if |text| >= 2 {
          assert src[c.index + 1] == text[1];
        } else if closed {
          assert src[c.index + 1] == '*';
        }
      }
      assert src[c.index + 1..c.index + 1 + |text[1..]|] == text[1..];
      assert NoCloser(text[1..]);
      if src[c.index] == '\n' {
        SkipBlockLands(src, c.(index := c.index + 1, line := c.line + 1, offset := 1), text[1..], closed);
      } else {
        SkipBlockLands(src, c.(index := c.index + 1, offset := c.offset + 1), text[1..], closed);
      }
    }
  }

  /**
   * One pass at the start of a layout, with nothing buffered, consumes its
   * first `m` pieces (at least one) and emits nothing.
   */
  predicate ConsumesPieces(src: string, c: Cursor, ps: seq<Trivium>, m: nat)
    requires Terminable(src) && c.index < |src|
  {
    var s := Step(src, c);
    && 1 <= m <= |ps|
    && s.Advanced? && s.next.buffer == [] && s.next.tokens == c.tokens
    && src[s.next.index..] == Render(ps[m..]) && Layout(ps[m..])
  }

  lemma BlankPieceStep(src: string, c: Cursor, ps: seq<Trivium>) returns (m: nat)
    requires Terminable(src) && c.index <= |src| && c.buffer == []
    requires src[c.index..] == Render(ps) && Layout(ps) && ps != [] && ps[0].Blank?
    ensures c.index < |src| && ConsumesPieces(src, c, ps, m)
  {
    SplitAt(src, c.index, Spelling(ps[0]), Render(ps[1..]));
    assert src[c.index] == ps[0].ch;
    m := SkipBlanksLands(src, c, ps);
    assert Step(src, c) == Advanced(SkipBlanks(src, c));
  }

  /** Reading `src` from `i` as an opener of two characters, `text`, and `rest`. */
  lemma OpenerSplit(src: string, i: nat, opener: string, text: string, rest: string)
    requires |opener| == 2 && i <= |src| && src[i..] == opener + text + rest
    ensures i + 2 + |text| <= |src| && src[i] == opener[0] && src[i + 1] == opener[1]
    ensures src[i + 2..i + 2 + |text|] == text && src[i + 2 + |text|..] == rest
  {
    SplitAt(src, i, opener + text, rest);
    assert src[i..i + 2 + |text|][2..] == text;
  }

  /** A line comment piece read off the input: `//`, its text, then the next piece, which starts with a newline if there is one. */
  lemma LineNoteSpelled(src: string, i: nat, ps: seq<Trivium>)
    requires i <= |src| && src[i..] == Render(ps) && Layout(ps) && ps != [] && ps[0].LineNote?
    ensures i + 2 + |ps[0].text| <= |src| && src[i] == '/' && src[i + 1] == '/'
    ensures src[i + 2..i + 2 + |ps[0].text|] == ps[0].text && '\n' !in ps[0].text
    ensures src[i + 2 + |ps[0].text|..] == Render(ps[1..]) && Layout(ps[1..])
    ensures i + 2 + |ps[0].text| == |src| || src[i + 2 + |ps[0].text|] == '\n'
  {
    var text := ps[0].text;
    assert Render(ps) == Spelling(ps[0]) + Render(ps[1..]);
    OpenerSplit(src, i, "//", text, Render(ps[1..]));
    if ps[1..] != [] {
      assert ps[1..][0] == Blank('\n');
      FirstPiece(src, i + 2 + |text|, ps[1..]);
    }
  }

  /** A line comment piece: its text is skipped up to the start of the next piece. */
  lemma LinePieceText(src: string, c: Cursor, ps: seq<Trivium>)
    requires Terminable(src) && c.index <= |src|
    requires src[c.index..] == Render(ps) && Layout(ps) && ps != [] && ps[0].LineNote?
    ensures c.index + 2 <= |src| && src[c.index] == '/' && src[c.index + 1] == '/'
    ensures var r := SkipLine(src, c.(index := c.index + 2, offset := c.offset + 2));
      src[r.index..] == Render(ps[1..]) && Layout(ps[1..])
  {
    var d := c.(index := c.index + 2, offset := c.offset + 2);
    LineNoteSpelled(src, c.index, ps);
    SkipLineLands(src, d, ps[0].text);
    assert SkipLine(src, d).index == c.index + 2 + |ps[0].text|;
  }

  lemma LinePieceStep(src: string, c: Cursor, ps: seq<Trivium>)
    requires Terminable(src) && c.index <= |src| && c.buffer == []
    requires src[c.index..] == Render(ps) && Layout(ps) && ps != [] && ps[0].LineNote?
    ensures c.index < |src| && ConsumesPieces(src, c, ps, 1)
  {
    LinePieceText(src, c, ps);
    assert StringLiterals(src, c) == NoMatch;
  }

  /** A block comment piece read off the input: the opener, its text, its closer if any, then the next piece. */
  lemma BlockNoteSpelled(src: string, i: nat, ps: seq<Trivium>)
    requires i <= |src| && src[i..] == Render(ps) && Layout(ps) && ps != [] && ps[0].BlockNote?
    ensures i + 2 + |ps[0].text| <= |src| && src[i] == '/' && src[i + 1] == '*'
    ensures src[i + 2..i + 2 + |ps[0].text|] == ps[0].text && NoCloser(ps[0].text)
    ensures ps[0].closed ==> i + 2 + |ps[0].text| + 2 <= |src|
    ensures ps[0].closed ==> src[i + 2 + |ps[0].text|] == '*' && src[i + 2 + |ps[0].text| + 1] == '/'
    ensures !ps[0].closed ==> i + 2 + |ps[0].text| == |src|
    ensures src[i + 2 + |ps[0].text| + (if ps[0].closed then 2 else 0)..] == Render(ps[1..]) && Layout(ps[1..])
  {
    assert Render(ps) == Spelling(ps[0]) + Render(ps[1..]);
    BlockSplit(src, i, ps[0].text, ps[0].closed, Render(ps[1..]));
  }

  /** Reading `src` from `i` as a block comment's opener, text and closer (if any), then `rest`. */
  lemma BlockSplit(src: string, i: nat, text: string, closed: bool, rest: string)
    requires i <= |src| && src[i..] == "/*" + text + (if closed then "*/" else "") + rest
    ensures i + 2 + |text| <= |src| && src[i] == '/' && src[i + 1] == '*'
    ensures src[i + 2..i + 2 + |text|] == text
    ensures closed ==> i + 2 + |text| + 2 <= |src|
    ensures closed ==> src[i + 2 + |text|] == '*' && src[i + 2 + |text| + 1] == '/'
    ensures src[i + 2 + |text| + (if closed then 2 else 0)..] == rest
  {
    var e := i + 2 + |text|;
    if closed {
      assert src[i..] == "/*" + text + ("*/" + rest);
      OpenerSplit(src, i, "/*", text, "*/" + rest);
      SplitAt(src, e, "*/", rest);
      assert src[e..e + 2][1] == '/';
    } else {
      OpenerSplit(src, i, "/*", text, rest);
    }
  }

  /** A block comment piece: its text and closer are skipped up to the start of the next piece. */
  lemma BlockPieceText(src: string, c: Cursor, ps: seq<Trivium>)
    requires Terminable(src) && c.index <= |src|
    requires src[c.index..] == Render(ps) && Layout(ps) && ps != [] && ps[0].BlockNote?
    ensures c.index + 2 <= |src| && src[c.index] == '/' && src[c.index + 1] == '*'
    ensures var r := SkipBlock(src, c.(index := c.index + 2, offset := c.offset + 2));
      src[r.index..] == Render(ps[1..]) && Layout(ps[1..])
  {
    BlockNoteSpelled(src, c.index, ps);
    SkipBlockLands(src, c.(index := c.index + 2, offset := c.offset + 2), ps[0].text, ps[0].closed);
  }

  lemma BlockPieceStep(src: string, c: Cursor, ps: seq<Trivium>)
    requires Terminable(src) && c.index <= |src| && c.buffer == []
    requires src[c.index..] == Render(ps) && Layout(ps) && ps != [] && ps[0].BlockNote?
    ensures c.index < |src| && ConsumesPieces(src, c, ps, 1)
  {
    BlockPieceText(src, c, ps);
    var d := c.(index := c.index + 2, offset := c.offset + 2);
    assert ConsumeBuffer(c) == Advanced(c);
    assert BlockComment(src, c) == Advanced(SkipBlock(src, d));
    assert Comments(src, c) == BlockComment(src, c);
    assert StringLiterals(src, c) == NoMatch;
  }

  /** From the start of a layout, with nothing buffered, the scan ends with no further token. */
  lemma {:induction false} TriviaRun(src: string, c: Cursor, ps: seq<Trivium>)
    requires Terminable(src) && c.index <= |src| && c.buffer == []
    requires src[c.index..] == Render(ps) && Layout(ps)
    decreases |ps|
    ensures Run(src, c) == Ok(c.tokens)
  {
    if ps == [] {
      assert c.index == |src|;
    } else {
      var m := 1;
      match ps[0] {
        case Blank(_) => m := BlankPieceStep(src, c, ps);
        case LineNote(_) => LinePieceStep(src, c, ps);
        case BlockNote(_, _) => BlockPieceStep(src, c, ps);
      }
      var next := Step(src, c).next;
      TriviaRun(src, next, ps[m..]);
    }
  }

  /**
   * Input made only of blanks and comments, an unclosed block comment at the
   * end included, scans to no tokens and no error.
   */
  lemma TriviaScansToNothing(ps: seq<Trivium>)
    requires Layout(ps) && Terminable(Render(ps))
    ensures Scan(Some(Render(ps))) == Ok([])
  {
    TriviaRun(Render(ps), Start(), ps);
  }

  /** An absent input scans to no tokens. */
  lemma AbsentInputScansToNothing()
    ensures Scan(None) == Ok([])
  {
  }
}
