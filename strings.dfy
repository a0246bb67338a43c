/**
 * Scanning a string literal: from the opening quote to the closing quote,
 * copying backslash escapes verbatim and keeping the position up to date.
 */
module StringScan {
  import opened Chars
  import opened Tokens

  /** What scanning a literal yields: the token, and the index, line and column it stops at. */
  datatype Scanned = Scanned(token: Token, index: nat, line: nat, offset: nat)

  /**
   * Scanning the rest of a literal whose text so far is `value`, from index
   * `pos` at `line`:`offset`, up to and including the closing quote.
   */
  function StringBody(src: string, pos: nat, line: nat, offset: nat, value: string): (r: Scanned)
    requires pos <= |src|
    decreases |src| - pos
    ensures pos <= r.index <= |src|
    ensures r.token.tokenType == STRING || r.token.tokenType == INVALID
  {
    var ch := At(src, pos);
    if ch == NUL || ch == '"' then
      if ch == '"' then Scanned(Token(STRING, value + "\""), pos + 1, line, offset + 1)
      else Scanned(Token(INVALID, value), pos, line, offset)
    else if ch == '\\' && At(src, pos + 1) != NUL then
      // the escaped character is copied whatever it is, so an escaped quote does not close
      StringBody(src, pos + 2, line, offset + 2, value + [ch] + [src[pos + 1]])
    else if ch == '\n' then
      // the column is reset to 1 and then advanced past the newline
      StringBody(src, pos + 1, line + 1, 2, value + [ch])
    else
      StringBody(src, pos + 1, line, offset + 1, value + [ch])
  }

  /** The text gains exactly the characters consumed, the closing quote included. */
  lemma {:induction false} StringBodyText(src: string, pos: nat, line: nat, offset: nat, value: string)
    requires pos <= |src|
    decreases |src| - pos
    ensures var r := StringBody(src, pos, line, offset, value);
      pos <= r.index <= |src| && r.token.value == value + src[pos..r.index]
  {
    var ch := At(src, pos);
    var r := StringBody(src, pos, line, offset, value);
    if ch == NUL || ch == '"' {
    } else if ch == '\\' && At(src, pos + 1) != NUL {
      var rest := value + [ch] + [src[pos + 1]];
      StringBodyText(src, pos + 2, line, offset + 2, rest);
      assert r == StringBody(src, pos + 2, line, offset + 2, rest);
      assert src[pos..r.index] == [ch] + [src[pos + 1]] + src[pos + 2..r.index];
    } else {
      var rest := value + [ch];
      if ch == '\n' {
        StringBodyText(src, pos + 1, line + 1, 2, rest);
        assert r == StringBody(src, pos + 1, line + 1, 2, rest);
      } else {
        StringBodyText(src, pos + 1, line, offset + 1, rest);
        assert r == StringBody(src, pos + 1, line, offset + 1, rest);
      }
      assert src[pos..r.index] == [ch] + src[pos + 1..r.index];
    }
  }

  /**
   * Only a closing quote makes a STRING; running into the end of the input
   * gives an INVALID token that stops at the end.
   */
  lemma {:induction false} StringBodyEnd(src: string, pos: nat, line: nat, offset: nat, value: string)
    requires pos <= |src| && Terminable(src)
    decreases |src| - pos
    ensures var r := StringBody(src, pos, line, offset, value);
      && (r.token.tokenType == STRING || r.token.tokenType == INVALID)
      && (r.token.tokenType == STRING ==> pos < r.index <= |src| && src[r.index - 1] == '"')
      && (r.token.tokenType == INVALID ==> r.index == |src|)
  {
    var ch := At(src, pos);
    if ch == NUL || ch == '"' {
    } else if ch == '\\' && At(src, pos + 1) != NUL {
      StringBodyEnd(src, pos + 2, line, offset + 2, value + [ch] + [src[pos + 1]]);
    } else if ch == '\n' {
      StringBodyEnd(src, pos + 1, line + 1, 2, value + [ch]);
    } else {
      StringBodyEnd(src, pos + 1, line, offset + 1, value + [ch]);
    }
  }

  /**
   * Scanning a literal whose opening quote is at `pos`. Its text runs from the
   * opening quote to the closing one inclusive; with no closing quote it is
   * INVALID and runs to the end of the input.
   */
  function ParseString(src: string, pos: nat, line: nat, offset: nat): (r: Scanned)
    requires pos < |src| && src[pos] == '"' && Terminable(src)
    ensures pos < r.index <= |src|
    ensures r.token.value == src[pos..r.index]
    ensures r.token.tokenType == STRING ==> pos + 2 <= r.index && src[r.index - 1] == '"'
    ensures r.token.tokenType == INVALID ==> r.index == |src|
    ensures r.token.tokenType == STRING || r.token.tokenType == INVALID
  {
    StringBodyText(src, pos + 1, line, offset + 1, "\"");
    StringBodyEnd(src, pos + 1, line, offset + 1, "\"");
    StringBody(src, pos + 1, line, offset + 1, "\"")
  }

  /** The source's string scanner, updating the index, line and column it is given. */
  method ParseStringLiteral(src: string, pos0: nat, line0: nat, offset0: nat)
    returns (token: Token, pos: nat, line: nat, offset: nat)
    requires pos0 < |src| && src[pos0] == '"' && Terminable(src)
    ensures Scanned(token, pos, line, offset) == ParseString(src, pos0, line0, offset0)
  {
    var value := "\"";
    pos := pos0 + 1;
    line := line0;
    offset := offset0 + 1;
    while At(src, pos) != NUL && At(src, pos) != '"'
      invariant pos0 < pos <= |src|
      invariant StringBody(src, pos, line, offset, value) == ParseString(src, pos0, line0, offset0)
      decreases |src| - pos
    {
      ghost var was := StringBody(src, pos, line, offset, value);
      if src[pos] == '\\' && At(src, pos + 1) != NUL {
        assert was == StringBody(src, pos + 2, line, offset + 2, value + [src[pos]] + [src[pos + 1]]);
        value := value + [src[pos]];
        pos := pos + 1;
        offset := offset + 1;
        // known escapes (\n \t \r \\ \" \') and unknown ones alike are kept as written
        value := value + [src[pos]];
      } else if src[pos] == '\n' {
        assert was == StringBody(src, pos + 1, line + 1, 2, value + [src[pos]]);
        line := line + 1;
        offset := 1;
        value := value + [src[pos]];
      } else {
        assert was == StringBody(src, pos + 1, line, offset + 1, value + [src[pos]]);
        value := value + [src[pos]];
      }
      pos := pos + 1;
      offset := offset + 1;
    }
    if At(src, pos) == '"' {
      value := value + "\"";
      pos := pos + 1;
      offset := offset + 1;
      return Token(STRING, value), pos, line, offset;
    } else {
      return Token(INVALID, value), pos, line, offset;
    }
  }
}
