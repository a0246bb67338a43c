/**
 * What every successful scan produces, and what every failed one reports:
 * tokens are only ever appended, each one is well formed for its tag (no
 * INVALID, EOF_TOKEN or CHAR token is ever emitted, and no identifier is a
 * keyword), and an error always names a line and column of at least 1.
 */
module Soundness {
  import opened Wrappers
  import opened Chars
  import opened Tokens
  import opened Tables
  import opened BufferFlush
  import opened StringScan
  import opened StringFacts
  import opened Scanner

  /** A token the lexer can emit, with the text its tag calls for. */
  predicate WellFormed(t: Token)
  {
    var v := t.value;
    match t.tokenType
    case INVALID => false
    case EOF_TOKEN => false
    case CHAR => false
    case IDENTIFIER => v != [] && IsAlpha(v[0]) && IsIdentifierText(v) && v !in KEYWORDS
    case NUMBER => IsNumberLiteral(v)
    case STRING => |v| >= 2 && v[0] == '"' && v[|v| - 1] == '"' && Escaped(v[1..|v| - 1])
    case _ => v == ""
  }

  /** A scan state whose position is 1-based and whose tokens are all well formed. */
  predicate Sound(c: Cursor)
  {
    c.line >= 1 && c.offset >= 1 && forall k | 0 <= k < |c.tokens| :: WellFormed(c.tokens[k])
  }

  /** Transition `s` from the sound state `c` keeps it sound and only appends tokens, or reports a 1-based position. */
  predicate Keeps(c: Cursor, s: Transition)
  {
    match s
    case NoMatch => true
    case Advanced(n) => Sound(n) && c.tokens <= n.tokens
    case Failed(e) => e.line >= 1 && e.column >= 1
  }

  /** Appending a well-formed token to a sound state keeps it sound. */
  lemma AppendKeeps(c: Cursor, t: Token)
    requires Sound(c) && WellFormed(t)
    ensures Sound(c.(tokens := c.tokens + [t]))
  {
  }

  /** Every reserved word's tag is a keyword tag, emitted with empty text. */
  lemma KeywordTokensWellFormed(w: string)
    requires w in KEYWORDS
    ensures WellFormed(Token(KEYWORDS[w]))
  {
  }

  /** Every operator-table tag is emitted with empty text. */
  lemma OperatorTokensWellFormed(k: nat)
    requires k < |OPERATORS|
    ensures WellFormed(Token(OPERATORS[k].1))
  {
  }

  /** A non-INVALID flush result is well formed. */
  lemma ClassifiedWellFormed(b: string)
    requires Classify(b).tokenType != INVALID
    ensures WellFormed(Classify(b))
  {
    ClassifyCases(b);
    if b in KEYWORDS {
      KeywordTokensWellFormed(b);
    }
  }

  lemma FlushKeeps(c: Cursor)
    requires Sound(c)
    ensures Keeps(c, ConsumeBuffer(c))
  {
    if c.buffer != [] && Classify(c.buffer).tokenType != INVALID {
      ClassifiedWellFormed(c.buffer);
      AppendKeeps(c, Classify(c.buffer));
    }
  }

  /** Scanning a literal never moves back a line, and keeps the column at least 1. */
  lemma {:induction false} StringBodyPosition(src: string, pos: nat, line: nat, offset: nat, value: string)
    requires pos <= |src|
    decreases |src| - pos
    ensures var r := StringBody(src, pos, line, offset, value);
      r.line >= line && (offset >= 1 ==> r.offset >= 1)
  {
    var ch := At(src, pos);
    if ch == NUL || ch == '"' {
    } else if ch == '\\' && At(src, pos + 1) != NUL {
      StringBodyPosition(src, pos + 2, line, offset + 2, value + [ch] + [src[pos + 1]]);
    } else if ch == '\n' {
      StringBodyPosition(src, pos + 1, line + 1, 2, value + [ch]);
    } else {
      StringBodyPosition(src, pos + 1, line, offset + 1, value + [ch]);
    }
  }

  /** A literal scanned from a 1-based position ends at a 1-based position, and a STRING token is well formed. */
  lemma ParsedLiteralSound(src: string, pos: nat, line: nat, offset: nat)
    requires Terminable(src) && pos < |src| && src[pos] == '"' && line >= 1 && offset >= 1
    ensures var r := ParseString(src, pos, line, offset);
      r.line >= 1 && r.offset >= 1 && (r.token.tokenType == STRING ==> WellFormed(r.token))
  {
    var r := ParseString(src, pos, line, offset);
    assert r == StringBody(src, pos + 1, line, offset + 1, "\"");
    StringBodyPosition(src, pos + 1, line, offset + 1, "\"");
    if r.token.tokenType == STRING {
      ClosedLiteralShape(src, pos, line, offset);
    }
  }

  lemma StringKeeps(src: string, c: Cursor)
    requires Terminable(src) && c.index < |src| && Sound(c)
    ensures Keeps(c, StringLiterals(src, c))
  {
    if At(src, c.index) == '"' {
      FlushKeeps(c);
      var f := ConsumeBuffer(c);
      if f.Advanced? {
        var c1 := f.next;
        var r := ParseString(src, c1.index, c1.line, c1.offset);
        ParsedLiteralSound(src, c1.index, c1.line, c1.offset);
        if r.token.tokenType == STRING {
          AppendKeeps(c1.(index := r.index, line := r.line, offset := r.offset), r.token);
        }
      }
    }
  }

  /** Skipping a line comment's body never moves back a line, and keeps the column at least 1. */
  lemma {:induction false} SkipLinePosition(src: string, c: Cursor)
    requires c.index <= |src|
    decreases |src| - c.index
    ensures var r := SkipLine(src, c); r.line >= c.line && (c.offset >= 1 ==> r.offset >= 1)
  {
    var ch := At(src, c.index);
    if ch != NUL && ch != '\n' {
      SkipLinePosition(src, c.(index := c.index + 1, offset := c.offset + 1));
    }
  }

  /** Skipping a block comment's body never moves back a line, and keeps the column at least 1. */
  lemma {:induction false} SkipBlockPosition(src: string, c: Cursor)
    requires c.index <= |src|
    decreases |src| - c.index
    ensures var r := SkipBlock(src, c); r.line >= c.line && (c.offset >= 1 ==> r.offset >= 1)
  {
    var ch := At(src, c.index);
    if ch == NUL || (ch == '*' && At(src, c.index + 1) == '/') {
    } else if ch == '\n' {
      SkipBlockPosition(src, c.(index := c.index + 1, line := c.line + 1, offset := 1));
    } else {
      SkipBlockPosition(src, c.(index := c.index + 1, offset := c.offset + 1));
    }
  }

  /** Skipping blanks never moves back a line, and keeps the column at least 1. */
  lemma {:induction false} SkipBlanksPosition(src: string, c: Cursor)
    requires c.index <= |src|
    decreases |src| - c.index
    ensures var r := SkipBlanks(src, c); r.line >= c.line && (c.offset >= 1 ==> r.offset >= 1)
  {
    var ch := At(src, c.index);
    if !IsBlank(ch) {
    } else if ch == '\n' {
      SkipBlanksPosition(src, c.(index := c.index + 1, line := c.line + 1, offset := 1));
    } else {
      SkipBlanksPosition(src, c.(index := c.index + 1, offset := c.offset + 1));
    }
  }

  lemma CommentKeeps(src: string, c: Cursor)
    requires Terminable(src) && c.index < |src| && Sound(c)
    ensures Keeps(c, Comments(src, c))
  {
    FlushKeeps(c);
    if c.index + 2 <= |src| {
      var f := ConsumeBuffer(c);
      if f.Advanced? {
        var d := f.next.(index := f.next.index + 2, offset := f.next.offset + 2);
        SkipLinePosition(src, d);
        SkipBlockPosition(src, d);
      }
    }
  }

  lemma WhiteSpaceKeeps(src: string, c: Cursor)
    requires c.index < |src| && Sound(c)
    ensures Keeps(c, WhiteSpaces(src, c))
  {
    FlushKeeps(c);
    if ConsumeBuffer(c).Advanced? {
      SkipBlanksPosition(src, ConsumeBuffer(c).next);
    }
  }

  lemma DelimiterKeeps(src: string, c: Cursor)
    requires c.index < |src| && Sound(c)
    ensures Keeps(c, Delimiters(src, c))
  {
    var tag := DelimiterTag(At(src, c.index));
    if tag != INVALID {
      AppendKeeps(c, Token(tag));
    }
  }

  lemma OperatorKeeps(src: string, c: Cursor)
    requires c.index < |src| && Sound(c)
    ensures Keeps(c, Operators(src, c))
  {
    match MatchOperator(src, c.index)
    case None =>
    case Some(k) =>
      OperatorTokensWellFormed(k);
      AppendKeeps(c, Token(OPERATORS[k].1));
  }

  /** One pass keeps the state sound and only appends tokens, or reports a 1-based position. */
  lemma StepKeeps(src: string, c: Cursor)
    requires Terminable(src) && c.index < |src| && Sound(c)
    ensures Keeps(c, Step(src, c))
  {
    StringKeeps(src, c);
    CommentKeeps(src, c);
    FlushKeeps(c);
    var f := ConsumeBuffer(c);
    if f.Advanced? {
      WhiteSpaceKeeps(src, f.next);
      DelimiterKeeps(src, f.next);
      OperatorKeeps(src, f.next);
    }
  }

  /** From a sound state, a run ends with sound tokens extending the current ones, or a 1-based error. */
  lemma {:induction false} RunKeeps(src: string, c: Cursor)
    requires Terminable(src) && c.index <= |src| && Sound(c)
    decreases |src| - c.index
    ensures match Run(src, c)
      case Ok(ts) => c.tokens <= ts && forall k | 0 <= k < |ts| :: WellFormed(ts[k])
      case Err(e) => e.line >= 1 && e.column >= 1
  {
    if At(src, c.index) != NUL {
      StepKeeps(src, c);
      var s := Step(src, c);
      if s.Advanced? {
        RunKeeps(src, s.next);
      }
    }
  }

  /**
   * Every token of a successful scan is well formed for its tag; a failed
   * scan reports a line and column of at least 1.
   */
  lemma ScanIsSound(input: Option<string>)
    requires input.Some? ==> Terminable(input.value)
    ensures match Scan(input)
      case Ok(ts) => forall k | 0 <= k < |ts| :: WellFormed(ts[k])
      case Err(e) => e.line >= 1 && e.column >= 1
  {
    if input.Some? {
      RunKeeps(input.value, Start());
    }
  }
}
