/**
 * What a scanned string literal is: the text between its quotes has no bare
 * quote and every backslash in it escapes the character after it; and any
 * such text between quotes scans back as exactly that literal.
 */
module StringFacts {
  import opened Chars
  import opened Tokens
  import opened StringScan

  /**
   * The inside of a closed literal: every backslash is followed by the
   * character it escapes, and no other character is a quote.
   */
  predicate Escaped(s: string)
    decreases |s|
  {
    if s == [] then true
    else if s[0] == '\\' then |s| >= 2 && Escaped(s[2..])
    else s[0] != '"' && Escaped(s[1..])
  }

  /** Scanning from `p` over escaped text followed by a quote stops right after that quote. */
  lemma {:induction false} BodyScansToQuote(src: string, p: nat, line: nat, offset: nat, value: string, body: string)
    requires Terminable(src) && p + |body| < |src|
    requires src[p..p + |body|] == body && src[p + |body|] == '"' && Escaped(body)
    decreases |body|
    ensures var r := StringBody(src, p, line, offset, value);
      r.token == Token(STRING, value + body + "\"") && r.index == p + |body| + 1
  {
    if body == [] {
    } else if body[0] == '\\' {
      assert src[p] == body[0] && src[p + 1] == body[1];
      assert src[p + 1] != NUL;
      var rest := value + [src[p]] + [src[p + 1]];
      assert src[p + 2..p + 2 + |body[2..]|] == body[2..];
      BodyScansToQuote(src, p + 2, line, offset + 2, rest, body[2..]);
      assert rest + body[2..] == value + body;
    } else {
      assert src[p] == body[0];
      var rest := value + [src[p]];
      assert src[p + 1..p + 1 + |body[1..]|] == body[1..];
      if src[p] == '\n' {
        BodyScansToQuote(src, p + 1, line + 1, 2, rest, body[1..]);
      } else {
        BodyScansToQuote(src, p + 1, line, offset + 1, rest, body[1..]);
      }
      assert rest + body[1..] == value + body;
    }
  }

  /**
   * Round trip: escaped text between two quotes is scanned as one STRING
   * token whose text is the whole literal, and the scan resumes right after
   * the closing quote.
   */
  lemma ScanQuoted(src: string, pos: nat, line: nat, offset: nat, body: string)
    requires Terminable(src) && pos + |body| + 2 <= |src|
    requires src[pos] == '"' && src[pos + 1..pos + 1 + |body|] == body && src[pos + 1 + |body|] == '"'
    requires Escaped(body)
    ensures var r := ParseString(src, pos, line, offset);
      r.token == Token(STRING, "\"" + body + "\"") && r.index == pos + |body| + 2
  {
    BodyScansToQuote(src, pos + 1, line, offset + 1, "\"", body);
  }

  /** A STRING result of a scan from `p` closes on the first quote that is not escaped. */
  lemma {:induction false} ClosedBodyIsEscaped(src: string, p: nat, line: nat, offset: nat, value: string)
    requires Terminable(src) && p <= |src|
    requires StringBody(src, p, line, offset, value).token.tokenType == STRING
    decreases |src| - p
    ensures var r := StringBody(src, p, line, offset, value);
      p < r.index <= |src| && src[r.index - 1] == '"' && Escaped(src[p..r.index - 1])
  {
    var r := StringBody(src, p, line, offset, value);
    var ch := At(src, p);
    if ch == NUL || ch == '"' {
      assert src[p..r.index - 1] == [];
    } else if ch == '\\' && At(src, p + 1) != NUL {
      var rest := value + [ch] + [src[p + 1]];
      assert r == StringBody(src, p + 2, line, offset + 2, rest);
      ClosedBodyIsEscaped(src, p + 2, line, offset + 2, rest);
      var s := src[p..r.index - 1];
      assert s[2..] == src[p + 2..r.index - 1];
    } else {
      var rest := value + [ch];
      if ch == '\n' {
        assert r == StringBody(src, p + 1, line + 1, 2, rest);
        ClosedBodyIsEscaped(src, p + 1, line + 1, 2, rest);
      } else {
        assert r == StringBody(src, p + 1, line, offset + 1, rest);
        ClosedBodyIsEscaped(src, p + 1, line, offset + 1, rest);
      }
      var s := src[p..r.index - 1];
      assert s[1..] == src[p + 1..r.index - 1];
    }
  }

  /**
   * Every STRING token is a quote, escaped text, and a quote: a backslashed
   * quote never closes the literal.
   */
  lemma ClosedLiteralShape(src: string, pos: nat, line: nat, offset: nat)
    requires pos < |src| && src[pos] == '"' && Terminable(src)
    requires ParseString(src, pos, line, offset).token.tokenType == STRING
    ensures var v := ParseString(src, pos, line, offset).token.value;
      |v| >= 2 && v[0] == '"' && v[|v| - 1] == '"' && Escaped(v[1..|v| - 1])
  {
    var r := ParseString(src, pos, line, offset);
    assert r == StringBody(src, pos + 1, line, offset + 1, "\"");
    ClosedBodyIsEscaped(src, pos + 1, line, offset + 1, "\"");
    var v := r.token.value;
    assert v == src[pos..r.index];
    assert |v| == r.index - pos;
    var inner, body := v[1..|v| - 1], src[pos + 1..r.index - 1];
    forall k | 0 <= k < |inner|
      ensures inner[k] == body[k]
    {
      calc {
        inner[k];
        v[k + 1];
        src[pos..r.index][k + 1];
        src[pos + k + 1];
        body[k];
      }
    }
    assert inner == body;
  }

  /** An escaped quote is copied into the text and does not end the literal. */
  lemma EscapedQuoteExample()
    ensures ParseString("\"a\\\"b\"", 0, 1, 1).token == Token(STRING, "\"a\\\"b\"")
  {
    var body := "a\\\"b";
    assert Escaped(body[2..][2..]);
    assert Escaped(body);
    ScanQuoted("\"a\\\"b\"", 0, 1, 1, body);
  }

  /** A raw newline in a literal starts the next line, and the column after it is 2. */
  lemma NewlineInLiteral()
    ensures ParseString("\"\n\"", 0, 1, 1) == Scanned(Token(STRING, "\"\n\""), 3, 2, 3)
  {
    var src := "\"\n\"";
    assert StringBody(src, 2, 2, 2, "\"\n") == Scanned(Token(STRING, "\"\n\""), 3, 2, 3);
  }

  /** An escaped newline is copied, counts two columns, and does not start a new line. */
  lemma EscapedNewlineInLiteral()
    ensures ParseString("\"\\\n\"", 0, 1, 1) == Scanned(Token(STRING, "\"\\\n\""), 4, 1, 5)
  {
    var src := "\"\\\n\"";
    assert StringBody(src, 3, 1, 4, "\"\\\n") == Scanned(Token(STRING, "\"\\\n\""), 4, 1, 5);
  }
}
