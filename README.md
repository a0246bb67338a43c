# parsec lexer — a Dafny model

This project models the single-pass lexer of the `parsec` compiler front end.
`Lexer::generateTokens` walks a NUL-terminated character buffer once. Each
pass of its main loop offers the current character to fixed handlers in this
order:

- string literals;
- comments;
- identifier and number text, which is accumulated in a token buffer;
- a flush of that buffer;
- white space;
- delimiters;
- operators, matched against an ordered table.

A character that no handler takes raises an error at the current line and
column. The `Token` value type is modelled, together with its 42-value tag
enumeration and the tag-name table of `getTokenTypeName`.

The model has two layers:

- **Functions in module `Scanner`.** These describe the behaviour: a scan
  state `Cursor` (index, line, column, buffer, tokens), one function per
  handler, one pass of the main loop `Step`, the loop `Run`, and the whole
  scan `Scan`. `Scan` returns every token, or the first error.
- **The class `Lexing.Lexer`.** Its fields are the ones the C++ object updates
  in place, and its methods are the handlers. Each method is proved to make
  exactly the transition its `Scanner` function describes. `GenerateTokens` is
  proved to return `Scan(input)`. `bufferToToken` and `parseStringLiteral` are
  methods with the original loops, each proved equal to a function
  (`Classify`, `ParseString`).

Properties are proved about these functions:

- A successful scan only emits well-formed tokens, and an error reports a
  1-based position.
- Operator selection is longest-match.
- A literal's text between its quotes is escaped, and any escaped text between
  quotes scans back to exactly that literal.
- The number test accepts exactly the digits-with-optional-fraction grammar.
- Input made only of blanks and comments scans to nothing.
- Tag names read back to their tag.
- Line and column follow the text read: the line grows by the newlines read, and after a newline the column counts the characters since it.

A few behaviours of the code are modelled as written, because the code is what
runs:

- The main loop ends at the terminator without a final flush. An identifier,
  keyword or number that ends the input is therefore never emitted
  (`TrailingWordDropped`, `AssignmentDropsTrailingNumber`, `DecimalDropped`).
- The identifier check is reachable with a failing result: `a1.5` is
  accumulated (the period follows a digit) and then rejected as INVALID
  (`WordFlushExamples`).
- A delimiter moves the index but not the column.
- A number may end in a period (`3.`).
- A newline inside a string literal resets the column to 1 and then counts
  itself, so the column after it is 2.
- An escaped newline in a literal does not start a new line.
- An unclosed block comment ends the scan without error.
- An unclosed string literal raises the error at the end of the input (`UnclosedString`).

Modules and files:

| file | module | contents |
|---|---|---|
| wrappers.dfy | Wrappers | `Option` |
| token.dfy | Tokens | `TokenType`, `Token`, the enumeration's underlying values |
| token_names.dfy | TokenNames | `getTokenTypeName` and its inverse |
| chars.dfy | Chars | the character classes and NUL-terminated reads |
| tables.dfy | Tables | the keyword and operator tables, operator matching, the delimiter switch |
| classify.dfy | BufferFlush | `bufferToToken` |
| strings.dfy | StringScan | `parseStringLiteral` |
| scanner.dfy | Scanner | the scan state, the handlers, one pass and the whole scan as functions |
| lexer.dfy | Lexing | the `Lexer` class |
| steps.dfy | StepFacts | what one pass does for each kind of character |
| string_facts.dfy | StringFacts | the shape of string literals and their round trip |
| soundness.dfy | Soundness | every emitted token is well formed |
| trivia.dfy | Trivia | blanks and comments scan to nothing |
| positions.dfy | Positions | line and column in closed form after blanks, comments and literals |
| scan_examples.dfy | ScanExamples | whole scans of small inputs |

## Model

| member | source | states |
|---|---|---|
| Lexing.Lexer.constructor | src/Lexer.cpp:96 | A new lexer has no input and the start state: index 0, line 1, column 1, empty buffer, no tokens |
| Lexing.Lexer.GenerateTokens | src/Lexer.cpp:102-145 | The method resets the state, returns no tokens for an absent input, and otherwise runs the handler chain until the terminator. Its result equals `Scan(input)`: every token in order, or the first error raised |
| Lexing.Lexer.HandleStringLiterals | src/Lexer.cpp:235-253 | At a quote it flushes the buffer, scans the literal and appends the token, or raises the error at the position where the scan stopped. Any other character is declined and the state is unchanged |
| Lexing.Lexer.HandleComments | src/Lexer.cpp:151-171 | A slash followed by a slash or a star is handed to the line or block comment handler. Any other character, a lone slash included, is declined and the state is unchanged |
| Lexing.Lexer.HandleLineComments | src/Lexer.cpp:173-183 | It flushes the buffer, steps over `//`, and stops at the next newline or the end of input. The new state is `SkipLine` of the state after the opener |
| Lexing.Lexer.HandleMultilineComments | src/Lexer.cpp:185-208 | It flushes the buffer and steps over the opener. It stops right after the first star-slash, or at the end if there is none, counting newlines as lines. The new state is `SkipBlock` of the state after the opener |
| Lexing.Lexer.SkipLineBody | src/Lexer.cpp:179-182 | The line comment loop leaves the object in the state `SkipLine` describes |
| Lexing.Lexer.SkipBlockBody | src/Lexer.cpp:191-207 | The block comment loop leaves the object in the state `SkipBlock` describes |
| Lexing.Lexer.HandleWhiteSpaces | src/Lexer.cpp:210-233 | At a blank it flushes the buffer once and skips the whole run of blanks; a newline moves to column 1 of the next line. A non-blank is declined and the state is unchanged |
| Lexing.Lexer.HandleAlphaNumericChars | src/Lexer.cpp:255-267 | A letter, digit or underscore, or a period after a buffered digit, is appended to the buffer and advances index and column by one. Anything else is declined |
| Lexing.Lexer.HandleDelimiters | src/Lexer.cpp:269-316 | A delimiter character appends its tag and advances the index by one but not the column. Any other character is declined |
| Lexing.Lexer.HandleOperators | src/Lexer.cpp:318-346 | The table is tried in order. The first entry spelled at the index is emitted and index and column advance by its length; when no entry is spelled there the handler declines and the state is unchanged |
| Lexing.Lexer.MatchesAtIndex | src/Lexer.cpp:324-331 | The character-by-character comparison that stops at the terminator returns true exactly when the operator is spelled at the index |
| Lexing.Lexer.ConsumeTokenBuffer | src/Lexer.cpp:399-410 | An empty buffer is left alone. Otherwise an INVALID classification raises the error at the current position, and any other token is appended and the buffer emptied |
| BufferFlush.BufferToToken | src/Lexer.cpp:348-397 | The loops return exactly `Classify(buffer)` |
| BufferFlush.Classify | src/Lexer.cpp:348-397 | A keyword gives its tag with empty text; any other text is kept as the token's text. A NUMBER is a digit-led number literal, an IDENTIFIER is a letter-led identifier, and nothing else but INVALID is possible |
| BufferFlush.ClassifyCases | src/Lexer.cpp:348-397 | A keyword gives its tag with empty text; other text is kept. NUMBER holds exactly for number literals. IDENTIFIER holds exactly for non-keyword, letter-led, alphanumeric text. INVALID holds exactly when none of these applies |
| BufferFlush.NumberTextIsLiteral | src/Lexer.cpp:360-378 | The digit-led, one-period test accepts exactly digits, optionally followed by a period and more digits (possibly none) |
| BufferFlush.NumberFlushExamples | src/Lexer.cpp:360-378 | `3.1.4` and `12ab` are INVALID; `3.` is a NUMBER |
| BufferFlush.WordFlushExamples | src/Lexer.cpp:353-396 | `while` is the WHILE keyword with empty text, `while1` is an IDENTIFIER, and `a1.5` is INVALID |
| StringScan.ParseStringLiteral | src/Lexer.cpp:50-94 | The loop returns the token and the new index, line and column that `ParseString` describes |
| StringScan.ParseString | src/Lexer.cpp:50-94 | The token text is exactly the characters consumed, from the opening quote on. A STRING ends with the closing quote; an INVALID token (unclosed literal) stops at the end of the input; no other tag is possible |
| StringScan.StringBody | src/Lexer.cpp:55-93 | The scan moves forward within the input and gives either a STRING or an INVALID token |
| StringScan.StringBodyText | src/Lexer.cpp:55-83 | The literal's text grows by exactly the characters the loop consumes |
| StringScan.StringBodyEnd | src/Lexer.cpp:55-93 | Only a closing quote gives a STRING; reaching the terminator gives INVALID at the end of the input |
| StringFacts.BodyScansToQuote | src/Lexer.cpp:55-89 | Scanning escaped text followed by a quote stops right after that quote, with the text appended |
| StringFacts.ScanQuoted | src/Lexer.cpp:50-94 | Round trip: a quote, escaped text and a quote scan back to one STRING token with exactly that text, and the scan resumes after the closing quote |
| StringFacts.ClosedBodyIsEscaped | src/Lexer.cpp:55-89 | A STRING result closes on a quote, and the text before it is escaped |
| StringFacts.ClosedLiteralShape | src/Lexer.cpp:50-94 | Every STRING token is a quote, escaped text and a quote, so a backslashed quote never closes a literal |
| StringFacts.EscapedQuoteExample | src/Lexer.cpp:56-73 | In `"a\"b"` the escaped quote is kept in the text and does not end the literal |
| StringFacts.NewlineInLiteral | src/Lexer.cpp:74-82 | A raw newline in a literal moves to the next line, and the column after it is 2 |
| StringFacts.EscapedNewlineInLiteral | src/Lexer.cpp:56-73 | An escaped newline is copied, counts two columns, and does not start a new line |
| Scanner.ConsumeBuffer | src/Lexer.cpp:399-410 | The flush never declines, never moves the position, and leaves the buffer empty when it succeeds |
| Scanner.StringLiterals | src/Lexer.cpp:235-253 | When the string handler applies it consumes input and stays within the input |
| Scanner.SkipLine | src/Lexer.cpp:179-182 | The skip only moves forward within the input and keeps buffer and tokens |
| Scanner.SkipBlock | src/Lexer.cpp:191-207 | The skip only moves forward within the input and keeps buffer and tokens |
| Scanner.LineComment | src/Lexer.cpp:173-183 | A line comment consumes input and stays within the input |
| Scanner.BlockComment | src/Lexer.cpp:185-208 | A block comment consumes input and stays within the input |
| Scanner.Comments | src/Lexer.cpp:151-171 | When the comment handler applies it consumes input and stays within the input |
| Scanner.AlphaNumericChars | src/Lexer.cpp:255-267 | The handler applies exactly when the character joins the buffer. It then appends that character to the buffer, moves index and column one on, stays on the line and emits nothing |
| Scanner.SkipBlanks | src/Lexer.cpp:213-230 | The skip only moves forward within the input and keeps buffer and tokens |
| Scanner.WhiteSpaces | src/Lexer.cpp:210-233 | When the white-space handler applies it consumes input and stays within the input |
| Scanner.Delimiters | src/Lexer.cpp:269-316 | The handler declines exactly when the character is not a delimiter. A delimiter moves the index one on, leaves line and column where they were, keeps the buffer and appends one token |
| Scanner.Operators | src/Lexer.cpp:318-346 | The handler applies exactly when the table has an entry spelled at the index. It then moves index and column on by the length of the entry `MatchOperator` selects, stays on the line, keeps the buffer and appends one token |
| Scanner.Joins | src/Lexer.cpp:258 | A character that joins the buffer is never the terminator, a quote, a slash, a blank or a delimiter, so no earlier handler takes it |
| Scanner.Run | src/Lexer.cpp:118-144 | At the terminator the loop stops with the tokens it has; a successful run never has fewer tokens than it started with |
| Scanner.Scan | src/Lexer.cpp:102-145 | An absent or empty input scans to no tokens |
| Scanner.Step | src/Lexer.cpp:118-142 | One pass of the main loop always does something: it consumes input, which guarantees the loop terminates, or it raises the error |
| StepFacts.AccumulatesIff | src/Lexer.cpp:118-126 | A pass appends the character to the buffer and moves one column on exactly when the character joins the buffer |
| StepFacts.OperatorStep | src/Lexer.cpp:128-138 | A character that starts an operator (and no comment) makes the pass flush the buffer and emit the selected entry's tag, advancing by its length |
| StepFacts.SlashIsDivide | src/Lexer.cpp:151-171 | A slash not followed by a slash or a star is DIVIDE |
| StepFacts.LonePeriodIsDot | src/Lexer.cpp:258 | A period that does not follow a buffered digit is DOT, after the flush |
| StepFacts.StringStep | src/Lexer.cpp:235-253 | At a quote the pass flushes the buffer first, and a failing flush is what it reports. Otherwise the literal is scanned from the flushed state: a closed literal appends its STRING token and moves to where the scan ended; an unclosed one raises the error at the line and column where the scan stopped, which is the end of the input |
| StepFacts.LineCommentStep | src/Lexer.cpp:151-183 | At `//` the pass flushes the buffer first, then steps over the opener and skips the body from the flushed state |
| StepFacts.BlockCommentStep | src/Lexer.cpp:151-208 | At a slash and a star the pass flushes the buffer first, then steps over the opener and skips the body from the flushed state |
| StepFacts.CommentFlushFails | src/Lexer.cpp:173-174 | At a comment opener, a buffer that does not classify raises the error before any of the comment is read |
| StepFacts.CommentPass | src/Lexer.cpp:118-123 | When the comment handler applies, its result is the result of the pass |
| StepFacts.WhiteSpaceStep | src/Lexer.cpp:128-132 | At a blank, the pass flushes the buffer and skips the whole run of blanks |
| StepFacts.DelimiterStep | src/Lexer.cpp:128-135 | At a delimiter, the pass flushes the buffer and emits the delimiter's tag. The index moves one on and the column stays where it was |
| StepFacts.UnknownCharacterFails | src/Lexer.cpp:140-141 | A character no handler takes raises the error at the current line and column |
| StepFacts.InvalidBufferFails | src/Lexer.cpp:399-419 | A buffer that does not classify raises the error, reporting the line and column of the first character that does not join it |
| StepFacts.LoneAmpersandOrBarFails | src/Lexer.cpp:30-31 | A single `&` or `|` starts no operator and raises the error where it stands |
| StepFacts.InvalidWordFails | src/Lexer.cpp:118-129 | Letters, digits and underscores up to position j go into the buffer. When the buffered text does not classify, the character at j raises the error at its own column |
| StepFacts.TrailingWordDropped | src/Lexer.cpp:118-144 | When every remaining character joins the buffer (letters, digits, underscores, and periods after a digit), the scan ends without emitting them |
| ScanExamples.UnclosedString | src/Lexer.cpp:235-253 | `"abc` fails at line 1, column 5: the literal's scan stops at the end of the input and the error is raised there |
| ScanExamples.DecimalDropped | src/Lexer.cpp:102-145 | `3.14` alone scans to no tokens: the number is buffered and never flushed |
| ScanExamples.AssignmentBlankFlushes | src/Lexer.cpp:210-233 | In `x = 42`, the blank after `x` flushes it as an IDENTIFIER |
| ScanExamples.AssignmentOperator | src/Lexer.cpp:318-346 | In `x = 42`, the `=` not followed by `=` is ASSIGN |
| ScanExamples.AssignmentSecondBlank | src/Lexer.cpp:210-233 | In `x = 42`, the blank after `=` is skipped |
| ScanExamples.AssignmentDropsTrailingNumber | src/Lexer.cpp:102-145 | `x = 42` scans to IDENTIFIER `x` and ASSIGN only; the buffered `42` is never flushed |
| ScanExamples.MalformedNumberFails | src/Lexer.cpp:399-410 | `12ab;` fails at line 1, column 5: the semicolon triggers the flush of `12ab`, a digit-led buffer that is not a number |
| Positions.ColumnAfterLastNewline | src/Lexer.cpp:213-230 | After reading text from any column, the column is one more than the number of characters after its last newline |
| Positions.SkipBlanksMoves | src/Lexer.cpp:213-230 | After skipping blanks, the line is the start line plus the newlines skipped, and the column is the start column plus the characters read, or one more than the characters after the last newline |
| Positions.SkipLineMoves | src/Lexer.cpp:179-182 | Skipping a line comment's body stays on the line and moves the column by the characters skipped |
| Positions.SkipBlockMoves | src/Lexer.cpp:191-207 | Skipping a block comment's body, closer included, moves the line by its newlines and the column as the text read says |
| Positions.StringBodyMoves | src/Lexer.cpp:55-93 | In a literal's body only unescaped newlines start a line. The column after one is 2, and an escaped pair counts two columns. A closing quote counts one more column |
| Positions.ParsedLiteralMoves | src/Lexer.cpp:50-94 | A whole literal ends where its opening quote, then its body, move line and column |
| Positions.BlockCommentMoves | src/Lexer.cpp:185-208 | With nothing buffered, a pass at a block comment reads it through its closer, and line and column follow the text read |
| Positions.LineCommentMoves | src/Lexer.cpp:173-183 | With nothing buffered, a pass at a line comment reads it up to its newline on the same line, and emits nothing |
| Positions.BlanksMove | src/Lexer.cpp:210-233 | With nothing buffered, a pass at a blank reads the whole run of blanks, and line and column follow the text read |
| Positions.ThreeLineCommentPosition | src/Lexer.cpp:185-208 | `/* a`, `b`, `c */@` fails at line 3, column 5: the comment's two newlines move to line 3, and the four characters after the last one give column 5 |
| Soundness.AppendKeeps | src/Lexer.cpp:407 | Appending a well-formed token keeps the state sound |
| Soundness.KeywordTokensWellFormed | src/Lexer.cpp:17-21 | Every keyword's tag is emitted with empty text and is not INVALID, EOF or CHAR |
| Soundness.OperatorTokensWellFormed | src/Lexer.cpp:24-43 | Every operator tag is emitted with empty text |
| Soundness.ClassifiedWellFormed | src/Lexer.cpp:348-397 | A flush result that is not INVALID is well formed |
| Soundness.FlushKeeps | src/Lexer.cpp:399-410 | The flush keeps the state sound and only appends |
| Soundness.StringBodyPosition | src/Lexer.cpp:55-83 | Scanning a literal never moves back a line and keeps the column at least 1 |
| Soundness.ParsedLiteralSound | src/Lexer.cpp:50-94 | A literal scanned from a 1-based position ends at a 1-based position, and a STRING token is a quote, escaped text and a quote |
| Soundness.StringKeeps | src/Lexer.cpp:235-253 | The string handler keeps the state sound, or reports a 1-based position |
| Soundness.SkipLinePosition | src/Lexer.cpp:179-182 | Skipping a line comment never moves back a line and keeps the column at least 1 |
| Soundness.SkipBlockPosition | src/Lexer.cpp:191-207 | Skipping a block comment never moves back a line and keeps the column at least 1 |
| Soundness.SkipBlanksPosition | src/Lexer.cpp:213-230 | Skipping blanks never moves back a line and keeps the column at least 1 |
| Soundness.CommentKeeps | src/Lexer.cpp:151-208 | The comment handlers keep the state sound and only append |
| Soundness.WhiteSpaceKeeps | src/Lexer.cpp:210-233 | The white-space handler keeps the state sound and only appends |
| Soundness.DelimiterKeeps | src/Lexer.cpp:269-316 | The delimiter handler keeps the state sound and only appends |
| Soundness.OperatorKeeps | src/Lexer.cpp:318-346 | The operator handler keeps the state sound and only appends |
| Soundness.StepKeeps | src/Lexer.cpp:118-142 | One pass keeps the state sound and only appends tokens, or reports a 1-based position |
| Soundness.RunKeeps | src/Lexer.cpp:118-144 | From a sound state the run ends with well-formed tokens extending the current ones, or with a 1-based error |
| Soundness.ScanIsSound | src/Lexer.cpp:102-145 | A successful scan emits only well-formed tokens: never INVALID, EOF or CHAR; identifiers are not keywords; numbers are number literals; strings are quoted escaped text. A failed scan reports line and column at least 1 |
| Trivia.FirstPiece | src/Lexer.cpp:151-233 | Read off the input, a comment piece starts with a slash and a blank piece is one blank character; the rest of the input is the rest of the layout |
| Trivia.BlankPieceSkipped | src/Lexer.cpp:213-230 | Skipping blanks at a blank piece continues from the start of the next piece |
| Trivia.SkipBlanksLands | src/Lexer.cpp:213-230 | Skipping blanks over a layout stops at the start of a later piece, past every leading blank |
| Trivia.SkipLineLands | src/Lexer.cpp:179-182 | Skipping a line comment stops at its newline or at the end of input |
| Trivia.SkipBlockLands | src/Lexer.cpp:191-207 | Skipping a block comment stops right after its closer, or at the end of input when it is unclosed |
| Trivia.BlankPieceStep | src/Lexer.cpp:210-233 | A pass at a blank consumes at least one piece and emits nothing |
| Trivia.LineNoteSpelled | src/Lexer.cpp:173-183 | A line comment piece is `//`, then text without a newline, then the end of input or a newline |
| Trivia.LinePieceText | src/Lexer.cpp:173-183 | A line comment is skipped up to the start of the next piece |
| Trivia.LinePieceStep | src/Lexer.cpp:151-183 | A pass at a line comment consumes it and emits nothing |
| Trivia.BlockNoteSpelled | src/Lexer.cpp:185-208 | A block comment piece is the opener, then text without a closer, then the closer or the end of input |
| Trivia.BlockPieceText | src/Lexer.cpp:185-208 | A block comment and its closer are skipped up to the start of the next piece |
| Trivia.BlockPieceStep | src/Lexer.cpp:151-208 | A pass at a block comment consumes it and emits nothing |
| Trivia.TriviaRun | src/Lexer.cpp:118-144 | From the start of a layout with nothing buffered, the run emits nothing more and raises no error |
| Trivia.TriviaScansToNothing | src/Lexer.cpp:102-145 | Input of only blanks and comments, including an unclosed block comment at the end, scans to no tokens and no error |
| Trivia.AbsentInputScansToNothing | src/Lexer.cpp:112-114 | An absent input (null pointer) scans to no tokens |
| Chars.AtEnd | src/Lexer.cpp:118 | In a buffer with no NUL of its own, the terminator is read exactly at the end |
| Chars.IsBlank | src/Lexer.cpp:425-427 | A blank is a character above NUL and at most the space |
| Chars.IsAlpha | src/Lexer.cpp:429-431 | A letter or underscore lies between `A` and `z` and is not a digit |
| Chars.IsAlphaNumeric | src/Lexer.cpp:437-439 | A letter, digit or underscore lies between `0` and `z` and is not a blank |
| Chars.IsOperator | src/Lexer.cpp:441-444 | An operator character lies between `!` and the vertical bar, and is neither alphanumeric nor blank |
| Chars.IsDelimiter | src/Lexer.cpp:446-448 | A delimiter character is neither alphanumeric, nor blank, nor an operator character |
| Chars.ClassesAreDisjoint | src/Lexer.cpp:425-448 | The blank, alphanumeric, delimiter and operator character classes are disjoint; NUL and the quote are in none of them |
| Tables.KeywordNamesAreUpperCase | src/Lexer.cpp:17-21 | Every keyword's tag prints as the keyword in upper case |
| Tables.OperatorLengths | src/Lexer.cpp:24-43 | The operator table lists its two-character spellings first and holds no NUL |
| Tables.MatchOperator | src/Lexer.cpp:320-343 | The selected entry is spelled at the index and no earlier entry is. Nothing is selected exactly when no entry is spelled there |
| Tables.FirstMatchFrom | src/Lexer.cpp:320-343 | The result is the first entry, from the given position on, that is spelled at the index. None means no entry from there is spelled |
| Tables.LongestMatch | src/Lexer.cpp:23-43 | The entry selected by table order is spelled at the index and no longer entry is, so the longest operator wins. When nothing is selected, nothing is spelled |
| Tables.DistinctSpellings | src/Lexer.cpp:24-43 | No spelling appears twice in the operator table |
| Tables.DelimiterTag | src/Lexer.cpp:275-303 | The switch gives a non-INVALID tag exactly for the delimiter characters |
| Tokens.Ordinal | include/parsec/Token.h:7-58 | Each tag has an underlying value below 42 |
| Tokens.OrdinalOfKeywordTag | include/parsec/Token.h:8-23 | Values 0 to 13 map to the sentinel and keyword tags and back |
| Tokens.OrdinalOfLiteralOrArithmeticTag | include/parsec/Token.h:26-37 | Values 14 to 23 map to the literal and arithmetic tags and back |
| Tokens.OrdinalOfComparisonOrLogicalTag | include/parsec/Token.h:38-46 | Values 24 to 32 map to the comparison and logical tags and back |
| Tokens.OrdinalOfDelimiterTag | include/parsec/Token.h:49-57 | Values 33 to 41 map to the delimiter tags and back |
| Tokens.AllTags | include/parsec/Token.h:7-58 | The tags in declaration order, the i-th having value i |
| Tokens.TagOfOrdinal | include/parsec/Token.h:7-58 | The tag with a given tag's value is that tag |
| Tokens.ClosedTagSet | include/parsec/Token.h:7-58 | The enumeration has exactly 42 distinct tags and every tag is among them |
| Tokens.Token.SetType | include/parsec/Token.h:73-75 | Replacing the tag keeps the text |
| Tokens.Token.SetValue | include/parsec/Token.h:80-82 | Replacing the text keeps the tag |
| Tokens.DefaultToken | include/parsec/Token.h:68 | A default token is INVALID with empty text |
| Tokens.ConstructedToken | include/parsec/Token.h:68-79 | A token built with a tag (and text) returns them through its getters; the text defaults to empty |
| TokenNames.TypeName | src/Token.cpp:5-94 | Every tag has a non-empty name, and the name is `EOF` exactly for EOF_TOKEN |
| TokenNames.KeywordNameReadsBack | src/Token.cpp:7-34 | The names of the sentinel and keyword tags read back to their tags |
| TokenNames.OperatorNameReadsBack | src/Token.cpp:35-72 | The names of the literal and operator tags read back to their tags |
| TokenNames.DelimiterNameReadsBack | src/Token.cpp:73-90 | The names of the delimiter tags read back to their tags |
| TokenNames.TagNamedInvertsTypeName | src/Token.cpp:5-94 | Reading a printed name back recovers the tag |
| TokenNames.NamesAreDistinct | src/Token.cpp:5-94 | Distinct tags have distinct names |

## Left out

- The demonstration driver src/main.cpp lexes a built-in sample program and prints its tokens and any error message; console output is not part of this model.
- `Lexer::error` throws a `std::runtime_error` with the message "Lexer error at line L:C"; the model returns `Err(LexError(L, C))` and does not build the message text.
- `m_token_buffer.reserve(30)` only sets a capacity; capacity is not modelled.
- Line, column and index are `uint32_t` in the source; the model uses unbounded naturals and does not model wrap-around past 2^32 characters or lines.
- `Token::setType` and `Token::setValue` update a token in place; `Token` is a value type copied into the token vector, so they are modelled as functions returning the updated token.
- `getTokenTypeName` returns a null pointer for a value outside the enumeration; Dafny's `TokenType` has no such values, so that branch is not modelled.
- The lexer never produces EOF_TOKEN or CHAR tokens; those tags exist only in the enumeration and its names.
- `isOperator` has no caller in the lexer; it is modelled as a predicate and only appears in `Chars.ClassesAreDisjoint`.
- The C++ constructor is defaulted and leaves the position fields uninitialised until `generateTokens` sets them; `Lexing.Lexer.constructor` starts from the start state instead.
- The input must not hold a NUL before its end; a C string stops at its first NUL, so such characters are not representable as input.
- `Lexing.Lexer.HandleMultilineComments` and `Lexing.Lexer.HandleWhiteSpaces` keep index, line and column in local variables during their loops and write them back afterwards. The fields hold the same values at every exit, but the intermediate field updates are not modelled.
- Line and column count characters, while the C++ code counts bytes of its `char` buffer: a character encoded in several UTF-8 bytes moves the C++ column by more than one (after `"é` the model reports column 3, the C++ code column 4). The model has no byte encoding of characters.
- Tokens hold their tag and text only; the source does not record token positions either.
