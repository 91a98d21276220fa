# A Normal-mode reference model of VSCodeVim

This project is a Dafny model of part of the Normal mode of VSCodeVim, the
Vim emulator for VS Code. The part it covers is what the repository's
Normal-mode test suite, `test/mode/modeNormal.test.ts`, pins down exactly.
Each of that suite's `newTest` records gives a start buffer with a cursor,
the keys pressed, and the end buffer, cursor and mode. The emulator's own
implementation is not part of this model. The model is therefore a
reference definition of what the tests require, and every test it covers
is stated as a lemma over that definition.

The buffer is a non-empty sequence of lines, none holding a line break,
plus a cursor `(line, column)` (module `Buffer`). A session (`Session`)
adds the mode (Normal or Insert) and the unnamed register. `Keys` reads
one command at a time, and `Session.Run` applies the commands in turn.
The modelled commands are these:

- `[count]<C-a>` and `[count]<C-x>` (`Numbers`, `Increment`). The first
  number literal on the cursor's line that ends after the cursor changes:
  - a decimal takes an adjacent `-` as its sign and loses its leading zeros;
  - an octal keeps its width;
  - a hex keeps its `0x`/`0X` prefix, the width of its digits and the case
    of its letters.
  
  The cursor ends on the literal's last character.
- `v`, `V` and `<C-v>` with `j` to select lines, then `[count]<C-a>` or
  `[count]g<C-a>` (`Increment.VisualIncrement`). Each selected line changes
  its first number inside the selection. Under `g` the k-th selected line
  changes by k times the count.
- `[count]dd`, `d[count]d`, `[count]d-`, `[count]yy`, `[count]Y`, and `p`
  and `P` with a linewise register (`LineCommands`). A count is cut down to
  the lines there are, and a buffer whose lines all go keeps one empty line.
- Counts on both sides of an operator multiply: `2d3w` is `d6w` and `3d/x`
  is `d3/x` (`Keys`).
- The operators `d`, `c` and `y` with these targets:
  - `w` and `/pattern<CR>` (`Motions`);
  - the quote objects `i'`, `a'`, `i"`, `a"`, `` i` `` and `` a` `` (`Quotes`);
    they stay on the cursor's line, and a backslash escapes the character
    after it;
  - the bracket objects `i(`, `a(`, `ib`, `i{`, `iB`, `i[`, `i<` and their
    `a` forms, with a count picking the count-th enclosing pair
    (`Brackets`);
  - the argument objects `ia` and `aa` (`Arguments`).
  
  `v` followed by an object and `c` is read as `c` with that object. An
  object that is not there changes nothing, and the mode stays Normal.

The test records appear in `LineCases`, `AddCases`, `QuoteCases`,
`BracketCases` and `ArgumentCases`. Each is a lemma:
`Case(Start(lines, line, col), keys, endLines, endLine, endCol, endMode)`.
`Scenario` holds the steps these lemmas share. Along with these concrete
cases, every operation carries all-inputs properties:

- a number's new text scans back as one literal of the same radix with the
  new value;
- the scan finds whole numbers and every digit;
- `ddP` restores the buffer;
- `2d3w` parses as `d6w`;
- a bracket object uses the innermost pair, or for a count the count-th
  pair out;
- the quote pairs are consecutive unescaped quotes;
- `ia` lies inside the top-level argument around the cursor.

## Model

| member | source | states |
|---|---|---|
| Buffer.JoinSplit | test/mode/modeNormal.test.ts:75-80 | The buffer's lines and its text carry the same information: splitting the text at line breaks and joining again gives the text back. |
| Buffer.SplitJoin | test/mode/modeNormal.test.ts:75-80 | The other direction: joining well-formed lines and splitting the text again gives the same lines. |
| Buffer.PosAtOffset | test/mode/modeNormal.test.ts:486-492 | A cursor position and its offset in the joined text convert into each other without loss; objects that span lines are found by offset. |
| Buffer.Replace | test/mode/modeNormal.test.ts:510-516 | Replacing offsets [a, b) of the text with new text gives well-formed lines whose text is the old text with that range replaced. |
| Numbers.LiteralAt | test/mode/modeNormal.test.ts:2089-2150 | At a `0x` prefix or a digit, the scan reads one literal that meets the literal rules: hex after `0x`/`0X`, octal for a leading `0` with only octal digits, otherwise decimal with an adjacent `-` as its sign; hex and octal never take a sign. |
| Numbers.LiteralsFrom | test/mode/modeNormal.test.ts:2019-2031 | Every literal the left-to-right scan finds is a literal of the line, found at or after the scan's start. |
| Numbers.LiteralsOrdered | test/mode/modeNormal.test.ts:2187-2199 | The scan lists the literals left to right, none overlapping the next. |
| Numbers.LiteralsBoundary | test/mode/modeNormal.test.ts:2075-2080 | No digit sits right before a literal the scan finds: a cursor in the middle of a number sees the whole number. |
| Numbers.LiteralsCover | test/mode/modeNormal.test.ts:2187-2199 | Every digit of the line lies in one of the literals the scan finds. |
| Numbers.FirstEndingAfter | test/mode/modeNormal.test.ts:2026-2031 | Picks the first literal that ends after the cursor column: all literals before it end at or before the cursor. |
| Numbers.Target | test/mode/modeNormal.test.ts:2110-2115 | A hex or octal result stays within 0 and 2^32 - 1. |
| Numbers.ToDigitsValue | test/mode/modeNormal.test.ts:2103-2108 | Writing a number's digits in a base and reading them back gives the number. |
| Numbers.Rendered | test/mode/modeNormal.test.ts:2033-2150 | The new text of a literal scans back as exactly one literal of the same radix, spanning the whole text, with the new value. It follows the formatting rules: a decimal has a `-` exactly when negative and no leading zero; an octal starts with `0` and keeps the old width; a hex keeps its prefix, the old width of its digits and the case of its letters. |
| Numbers.Render | test/mode/modeNormal.test.ts:2033-2150 | The text replacing a literal is its value plus the count, written as `Rendered` states, with the literal's radix, prefix, width and letter case. |
| Numbers.IncrementLine | test/mode/modeNormal.test.ts:2019-2206 | `<C-a>` on a line. The result is None exactly when every literal ends at or before the cursor. Otherwise the first literal ending after the cursor is replaced by its rendered new value and nothing else on the line changes. The cursor ends on the new text's last character. |
| Numbers.DecimalRoundTrip | test/mode/modeNormal.test.ts:2103-2108 | A decimal's text scans as one decimal literal spanning it, with a sign exactly when negative, and its value is the number. |
| Numbers.DecimalFormat | test/mode/modeNormal.test.ts:2103-2108 | A decimal is written without leading zeros, with `-` exactly when negative. |
| Numbers.OctalRoundTrip | test/mode/modeNormal.test.ts:2096-2101 | An octal's text scans as one octal literal spanning it, with the number as its value. |
| Numbers.OctalFormat | test/mode/modeNormal.test.ts:2096-2101 | An octal keeps its leading `0` and the old width, growing only when the digits need more room. |
| Numbers.HexRoundTrip | test/mode/modeNormal.test.ts:2040-2045 | A hex text scans as one hex literal spanning it, with the number as its value. |
| Numbers.HexFormat | test/mode/modeNormal.test.ts:2040-2045 | A hex keeps its prefix, pads its digits to the old width and writes every letter in the old case. |
| Increment.IncrementAt | test/mode/modeNormal.test.ts:2180-2185 | `<C-a>` in a buffer. It is None exactly when no literal on the cursor's line ends after the cursor. Otherwise only the cursor's line changes, and it becomes `IncrementLine`'s new line with the cursor on the new literal's last character. |
| Increment.Window | test/mode/modeNormal.test.ts:2224-2238 | The columns of a line that a selection covers: the whole line when linewise, the block's columns cut to the line when blockwise. |
| Increment.IncrementWindow | test/mode/modeNormal.test.ts:2208-2238 | Only the selected columns change, and they change as `<C-a>` at their start would. Without a number there, the line stays as it is. |
| Increment.VisualIncrement | test/mode/modeNormal.test.ts:2208-2262 | Visual `<C-a>`: the buffer keeps its length and every line changes as `LineChanged` states. Unselected lines keep their text, and each selected line changes its first number inside the selection by the count (by k times the count on the k-th line under `g`). The cursor goes to the selection's start. |
| Increment.TimesIsProduct | test/mode/modeNormal.test.ts:2240-2262 | Under `g<C-a>` the k-th selected line changes by k times the count. |
| Increment.BlockKeepsOutside | test/mode/modeNormal.test.ts:2232-2238 | Blockwise, the text left and right of the block's columns is unchanged on every line. |
| Increment.NoNumberNoChange | test/mode/modeNormal.test.ts:2208-2238 | A line with no number inside its selected columns stays unchanged. |
| Increment.LinewiseIsNormal | test/mode/modeNormal.test.ts:2216-2222 | Linewise `<C-a>` on one line changes the line exactly as Normal-mode `<C-a>` from its first column does. |
| LineCommands.Span | test/mode/modeNormal.test.ts:104-109 | A count covers at most the lines left from the cursor's line; it is cut down only when it runs past the end. |
| LineCommands.DeleteLines | test/mode/modeNormal.test.ts:75-123 | `[count]dd` removes the clamped span of lines and puts them in the register. Deleting every line leaves one empty line. The cursor goes to the first non-blank of the line now at the deleted place, or of the new last line. |
| LineCommands.Yank | test/mode/modeNormal.test.ts:2264-2283 | `[count]Y` takes min(count, lines left) lines from the cursor's line, each equal to the buffer's line. |
| LineCommands.PutLines | test/mode/modeNormal.test.ts:125-130 | `[count]p` and `[count]P` insert count copies of the register's lines below or above the cursor's line. The lines before and after are unchanged, and the cursor goes to the first non-blank of the first put line. |
| LineCommands.PutShape | test/mode/modeNormal.test.ts:125-130 | A put is the old lines up to the insertion point, the copies, then the rest of the old lines. |
| LineCommands.RepeatLength | test/mode/modeNormal.test.ts:2271-2276 | count copies of a block of n lines are count * n lines. |
| LineCommands.DeleteThenPutAbove | test/mode/modeNormal.test.ts:125-130 | `ddP` undoes `dd` when lines remain below: the deleted lines go back where they were. |
| LineCommands.DeleteLastThenPutBelow | test/mode/modeNormal.test.ts:75-80 | `ddp` undoes `dd` on a buffer's last lines: the cursor is on the new last line and the lines go back below it. |
| LineCommands.DeleteThenPutSwaps | test/mode/modeNormal.test.ts:125-130 | `ddp` swaps a line with the line below it, and the cursor goes to the moved line. |
| LineCommands.YankThenPut | test/mode/modeNormal.test.ts:2264-2283 | `[count]Yp` inserts the yanked lines below the cursor's line, and the cursor goes to the first copy. |
| LineCommands.DeleteAll | test/mode/modeNormal.test.ts:82-87 | Deleting every line from the first leaves one empty line, with the cursor at (0, 0). |
| Keys.SplitCount | test/mode/modeNormal.test.ts:96-102 | A count is a run of digits not starting with 0; without one the keys are left as they are. |
| Keys.SplitCountKeys | test/mode/modeNormal.test.ts:96-102 | A count written in decimal reads back as the same number. |
| Keys.ParseOperand | test/mode/modeNormal.test.ts:111-116 | What follows an operator key is read as a command of that operator with a count of at least 1, consuming keys. |
| Keys.OperatorCommand | test/mode/modeNormal.test.ts:111-116 | Keys starting with an optional count and `d`, `c` or `y` read as that operator, with the count, or 1 when there is none. |
| Keys.CountThenOperator | test/mode/modeNormal.test.ts:96-102 | A count before the operator becomes the operator's count. |
| Keys.CountEitherSide | test/mode/modeNormal.test.ts:223-235 | A count before the operator means the same as the same count after it: `3d/two` is `d3/two`. |
| Keys.CountsMultiply | test/mode/modeNormal.test.ts:1987-1996 | Counts before and after the operator multiply: `2d12w` reads as `d24w`. |
| Keys.OperandCount | test/mode/modeNormal.test.ts:1987-1996 | Only the product of the two counts matters. |
| Keys.SearchKeys | test/mode/modeNormal.test.ts:216-221 | `d/pattern<CR>` (and with `c` or `y`) reads as the operator with a search for the pattern, consuming every key. |
| Keys.ObjectKeys | test/mode/modeNormal.test.ts:446-452 | `d`, `c` or `y`, then `i` or `a` and an object name, read as the operator on that object with count 1. |
| Keys.CountedObjectKeys | test/mode/modeNormal.test.ts:494-508 | `c3i)` reads as `c` on the `i)` object with count 3. |
| Quotes.SkippingFindsQuotes | test/mode/modeNormal.test.ts:783-837 | The scan that steps over each backslash and the character after it finds exactly the quotes that the escape-flag definition calls unescaped. |
| Quotes.QuoteColumnsExact | test/mode/modeNormal.test.ts:783-837 | The quote columns listed are exactly the unescaped quotes of the line, in increasing order. |
| Quotes.EnclosingQuotesPair | test/mode/modeNormal.test.ts:703-717 | Quotes pair first with second, third with fourth, from the start of the line. The chosen pair is the first that closes at or after the cursor; None when every pair closes before it. |
| Quotes.QuoteObject | test/mode/modeNormal.test.ts:623-861 | A quote object exists exactly when a pair closes at or after the cursor, and it lies within the line. |
| Quotes.QuoteObjectSpan | test/mode/modeNormal.test.ts:719-781 | `i"` is the text between the quotes, and with a count of 2 or more the quotes too. `a"` is the quoted text with the blanks after it up to a non-blank or the line's end; when no blank follows, it takes the blanks before it instead. |
| Quotes.EscapeFlag | test/mode/modeNormal.test.ts:783-797 | A character is escaped exactly when an unescaped backslash precedes it. |
| Quotes.EscapedBackslash | test/mode/modeNormal.test.ts:807-821 | After an escaped backslash, the next character delimits again. |
| Brackets.ObjectDelims | test/mode/modeNormal.test.ts:478-484 | The bracket object names: `(`, `)` and `b` mean the same pair, as do `{`, `}` and `B`, and `[`, `]`. |
| Brackets.FindOpenUnmatched | test/mode/modeNormal.test.ts:470-476 | The backward scan stops at the nearest opening delimiter that the text up to the cursor leaves unmatched. |
| Brackets.FindCloseUnmatched | test/mode/modeNormal.test.ts:446-452 | The forward scan stops at the nearest closing delimiter that the text from the opening one leaves unmatched. |
| Brackets.EnclosingPair | test/mode/modeNormal.test.ts:446-476 | The pair around the cursor is a matched pair enclosing it; on an opening or closing delimiter, it is that delimiter's pair. |
| Brackets.EnclosingPairInnermost | test/mode/modeNormal.test.ts:454-460 | Every matched pair around the cursor encloses the chosen one, so the chosen pair is the innermost. |
| Brackets.EnclosingPairFound | test/mode/modeNormal.test.ts:566-588 | When any matched pair encloses the cursor, one is found; so the object fails only when no pair encloses the cursor. |
| Brackets.PairsNest | test/mode/modeNormal.test.ts:454-460 | Two matched pairs never cross: one lies inside the other or they are the same. |
| Brackets.NthPair | test/mode/modeNormal.test.ts:494-508 | With a count, the object uses a matched pair around the cursor; with count 1 it is the innermost. |
| Brackets.NthPairNests | test/mode/modeNormal.test.ts:494-508 | The count-th pair strictly encloses the (count-1)-th. |
| Brackets.NthPairLevels | test/mode/modeNormal.test.ts:494-508 | Every matched pair around the cursor, inside the count-th pair, is the j-th pair for some j up to count; so exactly count pairs around the cursor lie within it. |
| Brackets.NthPairOutward | test/mode/modeNormal.test.ts:494-508 | A matched pair around the count-th pair contains the (count+1)-th, so none is skipped. |
| Brackets.Inner | test/mode/modeNormal.test.ts:526-548 | `i(` starts after the opening delimiter, or on the next line when the delimiter ends its line. It ends at the closing delimiter, or at the end of the previous line when only blanks stand before the closing one on its line. |
| Brackets.BracketObject | test/mode/modeNormal.test.ts:446-620 | A bracket object exists exactly when the count-th pair does; `a(` is the pair with its delimiters, `i(` is its `Inner` range. |
| Brackets.AroundIsBalanced | test/mode/modeNormal.test.ts:510-524 | `a(` starts with an opening delimiter, ends with a closing one, and is balanced in between. |
| Brackets.NoOpenNoPair | test/mode/modeNormal.test.ts:566-588 | With no opening delimiter at or before the cursor there is no pair, and the object fails. |
| Arguments.SeparatorsFromTop | test/mode/modeNormal.test.ts:2844-2850 | The separator scan finds, in increasing order, exactly the commas at nesting depth 0 inside the pair. |
| Arguments.Separators | test/mode/modeNormal.test.ts:2852-2898 | The separators of a pair are exactly its top-level commas, in increasing order. |
| Arguments.SegmentAt | test/mode/modeNormal.test.ts:2852-2898 | The cursor's argument lies between two consecutive boundaries (the delimiters or top-level commas), with no top-level comma inside. A cursor on the closing delimiter is in the last argument. |
| Arguments.ArgumentPair | test/mode/modeNormal.test.ts:2748-2770 | The argument list is the innermost matched `(`/`[` pair around the cursor; None exactly when no such pair exists. |
| Arguments.InnerArgument | test/mode/modeNormal.test.ts:2772-2962 | `ia` is the argument without the white space around it. An argument that is only white space is taken whole, and becomes empty. |
| Arguments.AroundArgument | test/mode/modeNormal.test.ts:2964-3026 | For `aa`, the only argument is everything between the delimiters, and fails when that is blank. The first of several takes the comma after it and the blanks after that comma. A later argument takes the comma before it. |
| Arguments.ArgumentObject | test/mode/modeNormal.test.ts:2748-3026 | None exactly when no pair encloses the cursor, or for `aa` when the only argument is blank. Otherwise the result is the `ia` or `aa` range of the top-level argument that holds the cursor. |
| Motions.WordStepNextStart | test/mode/modeNormal.test.ts:40-59 | One `w` step goes to the next start of a word (or the end of the text), passing no other word start. |
| Motions.WordStepAtLineEnd | test/mode/modeNormal.test.ts:61-73 | Under an operator, the last `w` stops at the end of its line. |
| Motions.WordForward | test/mode/modeNormal.test.ts:1987-1996 | `[count]w` moves forward, strictly unless at the end of the text. |
| Motions.WordForwardCounts | test/mode/modeNormal.test.ts:1987-1996 | With no operator waiting, `[count]w` lands on the count-th word start after the cursor: it stops on a word start, with exactly count - 1 word starts passed on the way. Only the end of the text can stop it sooner, having passed at most count - 1. |
| Motions.WordForwardPending | test/mode/modeNormal.test.ts:1987-1996 | With an operator waiting, `[count]w` takes count - 1 plain steps and then one step that stops at the end of its line. |
| Motions.FirstMatch | test/mode/modeNormal.test.ts:216-221 | The first occurrence of the pattern in a range, with none before it; None when the range holds none. |
| Motions.NextMatch | test/mode/modeNormal.test.ts:216-221 | The next occurrence after the cursor, wrapping to the start of the text; None exactly when the pattern does not occur. |
| Motions.NextAfterUnique | test/mode/modeNormal.test.ts:216-221 | The next occurrence is unique. |
| Motions.SearchForward | test/mode/modeNormal.test.ts:223-235 | `[count]/` lands on an occurrence of the pattern, and is None exactly when the pattern does not occur. With count 1 it is the next occurrence after the cursor, wrapping around. |
| Motions.SearchCompose | test/mode/modeNormal.test.ts:223-235 | Searching a + b times is searching a times, then b more from there. So `3/two` is the third occurrence. |
| Motions.SearchSingle | test/mode/modeNormal.test.ts:2430-2436 | With a single occurrence, any count lands on it. |
| Session.FindObject | test/mode/modeNormal.test.ts:446-861 | A quote object is found on the cursor's line, and its offsets name the same text there. A bracket object lies within the count-th pair around the cursor. An argument object lies strictly inside the innermost `(`/`[` pair around the cursor. |
| Session.ApplyRange | test/mode/modeNormal.test.ts:446-452 | `d`, `c` or `y` on a range puts its text in the register. `d` and `c` remove it, and `y` keeps the buffer. `c` starts Insert mode at the range's start; the others stay Normal with the cursor on a character there. |
| Session.Unchanged | test/mode/modeNormal.test.ts:566-588 | A command that finds nothing keeps the buffer, cursor and register, and the mode is Normal. |
| Session.DeleteUp | test/mode/modeNormal.test.ts:1980-1985 | `[count]d-` deletes the cursor's line and up to count lines above it, linewise; on the first line it changes nothing. |
| Session.AddCommand | test/mode/modeNormal.test.ts:2019-2206 | `[count]<C-a>`/`<C-x>` replaces the cursor's line with `IncrementLine`'s result for plus or minus the count, and moves the cursor to its end. With no number after the cursor, nothing changes. The register is kept. |
| Session.ActiveEnd | test/mode/modeNormal.test.ts:2208-2262 | After `down` presses of `j`, the selection's active end is that many lines below, as far as there are lines, in the same column. |
| Session.VisualAddCommand | test/mode/modeNormal.test.ts:2208-2262 | The visual `<C-a>` session command: every line changes as `VisualIncrement` states for the selection from the cursor to the active end, and the mode returns to Normal. |
| Session.PutCommand | test/mode/modeNormal.test.ts:125-130 | `p`/`P` with a linewise register inserts the lines as `PutLines` states, and an empty register changes nothing. |
| Session.LinesCommand | test/mode/modeNormal.test.ts:75-123 | `[count]dd` deletes as `DeleteLines` states and `[count]yy` yanks as `Yank` states; either way the lines go to the register linewise. |
| Session.WordCommand | test/mode/modeNormal.test.ts:1987-1996 | An operator with `[count]w` acts on the text from the cursor to where the motion lands. The text goes to the register, and `d`/`c` remove it. |
| Session.SearchCommand | test/mode/modeNormal.test.ts:216-235 | An operator with `[count]/pattern` acts on the text between the cursor and the count-th occurrence. With no occurrence, nothing changes. |
| Session.ObjectCommand | test/mode/modeNormal.test.ts:446-620 | An operator with a text object acts on the object's range, or changes nothing and stays Normal when there is no object. |
| LineCases.DeleteLastLine | test/mode/modeNormal.test.ts:75-80 | `dd` on ["one", "two"] with the cursor on line 1 leaves ["one"], cursor on line 0, in Normal mode |
| LineCases.DeleteOnlyLine | test/mode/modeNormal.test.ts:82-87 | `dd` on ["one"] with the cursor on line 0 leaves [""], cursor on line 0, in Normal mode |
| LineCases.DeleteFirstLine | test/mode/modeNormal.test.ts:89-94 | `dd` on ["one", "two"] with the cursor on line 0 leaves ["two"], cursor on line 0, in Normal mode |
| LineCases.DeleteThreeLines | test/mode/modeNormal.test.ts:96-102 | `3dd` on ["one", "two", "three", "four", "five"] with the cursor on line 0 leaves ["four", "five"], cursor on line 0, in Normal mode |
| LineCases.DeleteThreePastEnd | test/mode/modeNormal.test.ts:104-109 | `3dd` on ["one", "two", "three", "four", "five"] with the cursor on line 3 leaves ["one", "two", "three"], cursor on line 2, in Normal mode |
| LineCases.DeleteCountAfterOperator | test/mode/modeNormal.test.ts:111-116 | `d2d` on ["one", "two", "three", "four", "five"] with the cursor on line 2 leaves ["one", "two", "five"], cursor on line 2, in Normal mode |
| LineCases.DeleteEmptyLine | test/mode/modeNormal.test.ts:118-123 | `dd` on ["one", "", "two"] with the cursor on line 1 leaves ["one", "two"], cursor on line 1, in Normal mode |
| LineCases.DeleteThenPut | test/mode/modeNormal.test.ts:125-130 | `ddp` on ["one", "two"] with the cursor on line 0 leaves ["two", "one"], cursor on line 1, in Normal mode |
| LineCases.YankKeepsCursor | test/mode/modeNormal.test.ts:1503-1508 | `yy` on ["one", "two"] with the cursor at (1, 2) leaves ["one", "two"], cursor at (1, 2), in Normal mode |
| LineCases.DeleteLinesUp | test/mode/modeNormal.test.ts:1980-1985 | `d3-` on ["one", "two", "three", "four", "five", "six", "seven"] with the cursor on line 5 leaves ["one", "two", "seven"], cursor on line 2, in Normal mode |
| LineCases.YankThenPut | test/mode/modeNormal.test.ts:2264-2269 | `Yp` on ["blah blah"] with the cursor at (0, 0) leaves ["blah blah", "blah blah"], cursor at (1, 0), in Normal mode |
| LineCases.YankTwoThenPut | test/mode/modeNormal.test.ts:2271-2276 | `2Yp` on ["one", "two", "three"] with the cursor at (0, 0) leaves ["one", "one", "two", "two", "three"], cursor at (1, 0), in Normal mode |
| LineCases.YankPastEndThenPut | test/mode/modeNormal.test.ts:2278-2283 | `100Yp` on ["one", "two", "three"] with the cursor at (0, 0) leaves ["one", "one", "two", "three", "two", "three"], cursor at (1, 0), in Normal mode |
| LineCases.DeleteToSearch | test/mode/modeNormal.test.ts:216-221 | `d/four\n` on "one two three four" with the cursor at column 4 deletes up to the next occurrence of "four": "one four", cursor at column 4, Normal mode |
| LineCases.DeleteToThirdMatchCountFirst | test/mode/modeNormal.test.ts:223-228 | `3d/two\n` on "one two two two two" with the cursor at column 4 deletes up to the third occurrence of "two": "one two", cursor at column 4, Normal mode |
| LineCases.DeleteToThirdMatchCountInside | test/mode/modeNormal.test.ts:230-235 | `d3/two\n` on "one two two two two" with the cursor at column 4 deletes up to the third occurrence of "two": "one two", cursor at column 4, Normal mode |
| LineCases.DeleteToSearchForward | test/mode/modeNormal.test.ts:2430-2436 | `d/bar\n` on "foo junk junk bar" with the cursor at column 4 deletes up to the next occurrence of "bar": "foo bar", cursor at column 4, Normal mode |
| AddCases.AddBehindWord | test/mode/modeNormal.test.ts:2019-2024 | `<C-a>` on a word reaches the number after it. |
| AddCases.AddSkipsWord | test/mode/modeNormal.test.ts:2026-2031 | `<C-a>` changes the first number that ends after the cursor, past a word. |
| AddCases.AddNegativeInWord | test/mode/modeNormal.test.ts:2033-2038 | `<C-a>` on a negative number moves it towards zero. |
| AddCases.AddHex | test/mode/modeNormal.test.ts:2040-2045 | `<C-a>` on a hex number carries into a new digit and keeps the prefix. |
| AddCases.AddBeforePoint | test/mode/modeNormal.test.ts:2047-2052 | `<C-a>` before a point changes the digits before it. |
| AddCases.AddCountPastZero | test/mode/modeNormal.test.ts:2054-2059 | `15<C-a>` takes -10 past zero to 5. |
| AddCases.AddAfterPoint | test/mode/modeNormal.test.ts:2061-2066 | `10<C-a>` after a point changes the digits after it, as a number of its own. |
| AddCases.AddOctal | test/mode/modeNormal.test.ts:2068-2073 | `<C-a>` on an octal number carries to 010. |
| AddCases.AddInsideNumber | test/mode/modeNormal.test.ts:2075-2080 | `<C-a>` in the middle of a number changes the whole number. |
| AddCases.AddHexBehindWord | test/mode/modeNormal.test.ts:2082-2087 | `<C-a>` on a hex number right after a word. |
| AddCases.AddFakeHex | test/mode/modeNormal.test.ts:2089-2094 | `<C-a>` on `00xf`: 00 is an octal number and the x ends it. |
| AddCases.AddOctalZeros | test/mode/modeNormal.test.ts:2096-2101 | `<C-a>` on an octal number keeps its width. |
| AddCases.AddDecimalZeros | test/mode/modeNormal.test.ts:2103-2108 | `<C-a>` on a decimal with leading zeros drops them. |
| AddCases.AddNegativeHexZero | test/mode/modeNormal.test.ts:2110-2115 | `<C-a>` on a hex number after a minus sign: the sign is not part of it. |
| AddCases.AddZeroIsDecimal | test/mode/modeNormal.test.ts:2117-2122 | `10<C-a>` on a lone 0: a decimal, so it becomes 10. |
| AddCases.AddOctalAfterMinus | test/mode/modeNormal.test.ts:2124-2129 | `<C-a>` on an octal number after a minus sign: the sign is not part of it. |
| AddCases.AddOctalAfterPlus | test/mode/modeNormal.test.ts:2131-2136 | `<C-a>` on an octal number after a plus sign. |
| AddCases.AddHexAfterMinus | test/mode/modeNormal.test.ts:2138-2143 | `<C-a>` on a hex number after a minus sign. |
| AddCases.AddHexAfterPlus | test/mode/modeNormal.test.ts:2145-2150 | `<C-a>` on a hex number after a plus sign. |
| AddCases.SubtractBehindWord | test/mode/modeNormal.test.ts:2152-2157 | `<C-x>` takes 10 to 9, one character shorter. |
| AddCases.AddAfterWord | test/mode/modeNormal.test.ts:2159-2164 | `<C-a>` on a number right after a word. |
| AddCases.AddBetweenWords | test/mode/modeNormal.test.ts:2166-2171 | `<C-a>` on a number between two words. |
| AddCases.SubtractThreeTimes | test/mode/modeNormal.test.ts:2173-2178 | `<C-x>` three times on a negative number between words. |
| AddCases.AddNothingAfterCursor | test/mode/modeNormal.test.ts:2180-2185 | `<C-a>` with no number ending after the cursor on its line changes nothing; the next line is not looked at. |
| AddCases.AddFirstOfTwo | test/mode/modeNormal.test.ts:2187-2192 | `<C-a>` on a word with two numbers changes the first. |
| AddCases.AddSecondOfTwo | test/mode/modeNormal.test.ts:2194-2199 | `<C-a>` past the first of two numbers changes the second. |
| AddCases.AddAfterMinusWord | test/mode/modeNormal.test.ts:2201-2206 | `<C-a>` on a word behind a minus sign: the sign is part of the number only when right before it. |
| QuoteCases.VisualQuoteOnOpening | test/mode/modeNormal.test.ts:623-629 | `vi'c` with the cursor on the opening quote changes what the quotes hold. On ["one 'two' three"] at (0, 4), leaves ["one '' three"] with the cursor at (0, 5) in Insert mode. |
| QuoteCases.VisualQuoteInside | test/mode/modeNormal.test.ts:631-637 | `vi'c` inside the quoted text. On ["one 'two' three"] at (0, 6), leaves ["one '' three"] with the cursor at (0, 5) in Insert mode. |
| QuoteCases.VisualQuoteOnClosing | test/mode/modeNormal.test.ts:639-645 | `vi'c` with the cursor on the closing quote. On ["one 'two' three"] at (0, 8), leaves ["one '' three"] with the cursor at (0, 5) in Insert mode. |
| QuoteCases.VisualQuoteAhead | test/mode/modeNormal.test.ts:647-653 | `vi'c` before a quoted string changes what that string's quotes hold. On ["one 'two' three"] at (0, 2), leaves ["one '' three"] with the cursor at (0, 5) in Insert mode. |
| QuoteCases.ChangeQuoteOnOpening | test/mode/modeNormal.test.ts:655-661 | `ci'` with the cursor on the opening quote empties the quotes. On ["'one'"] at (0, 0), leaves ["''"] with the cursor at (0, 1) in Insert mode. |
| QuoteCases.ChangeQuoteInside | test/mode/modeNormal.test.ts:663-669 | `ci'` inside the quoted text. On ["'one'"] at (0, 2), leaves ["''"] with the cursor at (0, 1) in Insert mode. |
| QuoteCases.ChangeQuoteOnClosing | test/mode/modeNormal.test.ts:671-677 | `ci'` with the cursor on the closing quote. On ["'one'"] at (0, 4), leaves ["''"] with the cursor at (0, 1) in Insert mode. |
| QuoteCases.ChangeQuoteAhead | test/mode/modeNormal.test.ts:679-685 | `ci'` before a quoted string. On ["one 'two'"] at (0, 2), leaves ["one ''"] with the cursor at (0, 5) in Insert mode. |
| QuoteCases.ChangeDoubleOnOpening | test/mode/modeNormal.test.ts:687-693 | `ci"` on the opening quote. On ['"one"'] at (0, 0), leaves ['""'] with the cursor at (0, 1) in Insert mode. |
| QuoteCases.ChangeDoubleAhead | test/mode/modeNormal.test.ts:695-701 | `ci"` before a quoted string. On ['one "two"'] at (0, 0), leaves ['one ""'] with the cursor at (0, 5) in Insert mode. |
| QuoteCases.ChangeDoubleOnClosingOfFirst | test/mode/modeNormal.test.ts:703-709 | `ci"` on the closing quote of the first of two strings takes the first. On ['one "two" three "four"'] at (0, 8), leaves ['one "" three "four"'] with the cursor at (0, 5) in Insert mode. |
| QuoteCases.ChangeDoubleOnUnpaired | test/mode/modeNormal.test.ts:711-717 | `ci"` on a quote that has no partner finds nothing: nothing changes and the mode stays Normal. On ['one "two" three "four" five" six'] at (0, 27), finds nothing: buffer and cursor unchanged, Normal mode. |
| QuoteCases.AroundDoubleAhead | test/mode/modeNormal.test.ts:719-725 | `ca"` before a quoted string with nothing after it takes the blanks before it. On ['one "two"'] at (0, 0), leaves ["one"] with the cursor at (0, 3) in Insert mode. |
| QuoteCases.AroundDoubleOnOpening | test/mode/modeNormal.test.ts:727-733 | `ca"` on the opening quote with nothing after the string takes the blank before it. On ['one "two"'] at (0, 4), leaves ["one"] with the cursor at (0, 3) in Insert mode. |
| QuoteCases.AroundDoubleTrailing | test/mode/modeNormal.test.ts:735-741 | `ca"` takes the blanks after the closing quote. On ['one "two"            three'] at (0, 6), leaves ["one three"] with the cursor at (0, 4) in Insert mode. |
| QuoteCases.AroundDoubleTrailingLine | test/mode/modeNormal.test.ts:743-749 | `ca"` takes the blanks after the closing quote up to the end of the line, and the next line stays. On ['one "two"   ', "three"] at (0, 6), leaves ["one ", "three"] with the cursor at (0, 4) in Insert mode. |
| QuoteCases.AroundDoubleLeading | test/mode/modeNormal.test.ts:751-757 | `ca"` with no blank after the closing quote takes the blanks before the opening one. On ['one      "two"three'] at (0, 11), leaves ["onethree"] with the cursor at (0, 3) in Insert mode. |
| QuoteCases.CountedInnerDouble | test/mode/modeNormal.test.ts:775-781 | `c2i"` takes the quotes but no blanks. On ['one      "two"three'] at (0, 11), leaves ["one      three"] with the cursor at (0, 9) in Insert mode. |
| QuoteCases.CountedInnerDoubleLine | test/mode/modeNormal.test.ts:759-773 | `c2i"` takes the quotes and leaves the blanks after them. On ['one "two"   ', "three"] at (0, 6), leaves ["one    ", "three"] with the cursor at (0, 4) in Insert mode. |
| QuoteCases.ChangeDoubleEscapes | test/mode/modeNormal.test.ts:783-789 | `ci"` passes over escaped quotes. On ['"one \"two\""'] at (0, 9), leaves ['""'] with the cursor at (0, 1) in Insert mode. |
| QuoteCases.ChangeDoubleOneEscape | test/mode/modeNormal.test.ts:791-797 | `ci"` from the opening quote passes over an escaped quote. On ['"one \" two"'] at (0, 0), leaves ['""'] with the cursor at (0, 1) in Insert mode. |
| QuoteCases.ChangeDoubleEscapeBehind | test/mode/modeNormal.test.ts:799-805 | `ci"` after an escaped quote. On ['one "two \" three"'] at (0, 12), leaves ['one ""'] with the cursor at (0, 5) in Insert mode. |
| QuoteCases.ChangeDoubleEscapedBackslash | test/mode/modeNormal.test.ts:807-813 | `ci"` over an escaped backslash. On ['one "two \\three"'] at (0, 7), leaves ['one ""'] with the cursor at (0, 5) in Insert mode. |
| QuoteCases.ChangeDoubleAfterBackslash | test/mode/modeNormal.test.ts:815-821 | `ci"` on a closing quote after an escaped backslash. On ['"\\"'] at (0, 3), leaves ['""'] with the cursor at (0, 1) in Insert mode. |
| QuoteCases.AroundDoubleOnClosing | test/mode/modeNormal.test.ts:823-829 | `ca"` on the closing quote. On ['one "two"'] at (0, 8), leaves ["one"] with the cursor at (0, 3) in Insert mode. |
| QuoteCases.ChangeDoubleEscapeRun | test/mode/modeNormal.test.ts:831-837 | `ci"` over a run of backslashes. On ['"two\\\""'] at (0, 4), leaves ['""'] with the cursor at (0, 1) in Insert mode. |
| QuoteCases.ChangeDoubleSecondString | test/mode/modeNormal.test.ts:839-845 | `ci"` on the opening quote of the second of two strings takes the second. On ['"one" "two"'] at (0, 6), leaves ['"one" ""'] with the cursor at (0, 7) in Insert mode. |
| QuoteCases.AroundDoubleBehind | test/mode/modeNormal.test.ts:847-853 | `ca"` after the last quoted string finds nothing. On ['"one" two'] at (0, 6), finds nothing: buffer and cursor unchanged, Normal mode. |
| QuoteCases.AroundBacktick | test/mode/modeNormal.test.ts:855-861 | `` ca` `` inside a string in backticks. On ["one `two`"] at (0, 5), leaves ["one"] with the cursor at (0, 3) in Insert mode. |
| BracketCases.ChangeParensOnFirst | test/mode/modeNormal.test.ts:446-452 | `ci(` inside a call's parentheses empties them. |
| BracketCases.ChangeParensNested | test/mode/modeNormal.test.ts:454-460 | `ci(` on an opening parenthesis takes that pair, nested pairs and all. |
| BracketCases.ChangeParensEmptyInner | test/mode/modeNormal.test.ts:462-468 | `ci(` on the closing parenthesis of an empty inner pair changes nothing but enters Insert mode. |
| BracketCases.ChangeParensBackwards | test/mode/modeNormal.test.ts:470-476 | `ci(` finds the opening parenthesis back past a nested pair. |
| BracketCases.ChangeParensAlias | test/mode/modeNormal.test.ts:478-484 | `cib` is `ci(`. |
| BracketCases.ChangeParensAcrossLines | test/mode/modeNormal.test.ts:486-492 | `ci)` over a pair that spans two lines, the closing one not first on its line. |
| BracketCases.ChangeThirdPairInside | test/mode/modeNormal.test.ts:494-500 | `c3i)` changes what the third pair out holds. |
| BracketCases.ChangeThirdPairAround | test/mode/modeNormal.test.ts:502-508 | `c3a)` changes the third pair out, parentheses included. |
| BracketCases.AroundParensAcrossLines | test/mode/modeNormal.test.ts:510-516 | `ca(` takes a pair that spans two lines. |
| BracketCases.AroundParensAlias | test/mode/modeNormal.test.ts:518-524 | `cab` is `ca(`. |
| BracketCases.ChangeBracesEmptyLine | test/mode/modeNormal.test.ts:526-532 | `ci{` with only an empty line between the braces changes nothing but enters Insert mode. |
| BracketCases.ChangeBracesTrailingBlanks | test/mode/modeNormal.test.ts:534-540 | `ci{` takes the blanks after the opening brace and the empty line. |
| BracketCases.ChangeBracesIndentedClose | test/mode/modeNormal.test.ts:542-548 | `ci{` leaves the indentation before a closing brace that starts its line. |
| BracketCases.ChangeParensOnClosing | test/mode/modeNormal.test.ts:550-556 | `ci(` on the closing parenthesis. |
| BracketCases.ChangeBracesAlias | test/mode/modeNormal.test.ts:558-564 | `ciB` is `ci{`. |
| BracketCases.AroundParensMissing | test/mode/modeNormal.test.ts:566-572 | `ca(` with no parentheses finds nothing: nothing changes and the mode stays Normal. |
| BracketCases.AroundBracesMissing | test/mode/modeNormal.test.ts:574-580 | `ca{` with no braces finds nothing. |
| BracketCases.AroundBracesAliasMissing | test/mode/modeNormal.test.ts:582-588 | `caB` with no braces finds nothing. |
| BracketCases.ChangeBracketsEmptyLine | test/mode/modeNormal.test.ts:590-596 | `ci[` with only an empty line between the brackets changes nothing but enters Insert mode. |
| BracketCases.ChangeBracketsOnFirst | test/mode/modeNormal.test.ts:598-604 | `ci]` inside square brackets empties them. |
| BracketCases.AroundBracketsOpen | test/mode/modeNormal.test.ts:606-612 | `ca[` takes the square brackets too. |
| BracketCases.AroundBracketsClose | test/mode/modeNormal.test.ts:614-620 | `ca]` is `ca[`. |
| ArgumentCases.NoDelimiters | test/mode/modeNormal.test.ts:2748-2754 | `cia` with no parentheses or brackets around the cursor finds nothing: nothing changes and the mode stays Normal. |
| ArgumentCases.FlippedDelimiters | test/mode/modeNormal.test.ts:2756-2762 | `cia` between a closing and an opening parenthesis finds nothing. |
| ArgumentCases.SeparatorsOnly | test/mode/modeNormal.test.ts:2764-2770 | `cia` among commas with no delimiters around them finds nothing. |
| ArgumentCases.SingleArgument | test/mode/modeNormal.test.ts:2772-2778 | `cia` in the only argument empties the parentheses. |
| ArgumentCases.EmptyOnOpening | test/mode/modeNormal.test.ts:2780-2786 | `cia` on the opening delimiter of `()`. |
| ArgumentCases.OneCommaOnComma | test/mode/modeNormal.test.ts:2804-2810 | `cia` on the comma of `(,)` takes the empty argument after it. |
| ArgumentCases.CommasOnLastComma | test/mode/modeNormal.test.ts:2828-2834 | `cia` on the last comma of `(,,,)`. |
| ArgumentCases.FirstOfThree | test/mode/modeNormal.test.ts:2852-2858 | `cia` in the first of three arguments. |
| ArgumentCases.MiddleOfThree | test/mode/modeNormal.test.ts:2868-2874 | `cia` in the middle argument leaves the blank after the comma. |
| ArgumentCases.LastOfThree | test/mode/modeNormal.test.ts:2884-2890 | `cia` in the last argument. |
| ArgumentCases.BlankArgument | test/mode/modeNormal.test.ts:2900-2906 | `cia` in an argument of blanks takes the blanks. |
| ArgumentCases.TrailingBlankAfterComma | test/mode/modeNormal.test.ts:2916-2922 | `cia` on a line of its own leaves the blank after the comma on the line before. |
| ArgumentCases.MiddleOfLines | test/mode/modeNormal.test.ts:2940-2946 | `cia` in the middle argument of a list over several lines. |
| ArgumentCases.DeleteSingle | test/mode/modeNormal.test.ts:2964-2970 | `daa` in the only argument empties the parentheses. |
| ArgumentCases.DeleteEmpty | test/mode/modeNormal.test.ts:2972-2978 | `daa` in `()` finds nothing. |
| ArgumentCases.DeleteFirstOfThree | test/mode/modeNormal.test.ts:2980-2986 | `daa` in the first argument takes the comma and blank after it. |
| ArgumentCases.DeleteMiddleOfThree | test/mode/modeNormal.test.ts:2988-2994 | `daa` in the middle argument takes the comma before it. |
| ArgumentCases.DeleteLastOfThree | test/mode/modeNormal.test.ts:2996-3002 | `daa` in the last argument takes the comma before it. |
| ArgumentCases.DeleteMiddleOfLines | test/mode/modeNormal.test.ts:3012-3018 | `daa` in the middle argument of a list over several lines joins the comma before it with the line after. |

## Left out

- Numbers.Target: the tests leave the width of hex and octal values open. As a modelling choice they wrap around at 2^32, while decimals are unbounded integers.
- Numbers.HexUpper: a hex result takes the letter case of the rightmost letter digit of the old literal, and lower case when the old literal has no letter. The tests only use literals in one case.
- Increment.LineAmount: under `g<C-a>` the k-th selected line counts every selected line, including lines that hold no number. The tests select only lines with numbers.
- Increment.VisualIncrement: the tests at test/mode/modeNormal.test.ts:2208-2262 are covered by all-inputs lemmas only, not as concrete case lemmas.
- Session.PutCommand: a put from a characterwise register (after `yi(` or `di"`) has no outcome (None). No linewise-only test needs it.
- Keys.ParseCommand: `cc`, `cw`, `c-`, `y-`, `?` and every key outside the commands above are not read; they have no outcome (None).
- Motions.MatchAt: `/` searches for the pattern as literal text. Regular expressions, `\c`/`\C`, `\%V`, `^` and `$` are not modelled, and nor is the backward search `?`.
- Session.State: the numbered and named registers are collapsed into the one unnamed register.
- Session.Run: typing in Insert mode, `<Esc>` and dot-repeat are not modelled. Keys that arrive after a command has entered Insert mode have no outcome.
- Motions.WordForward: only `w` is modelled, as far as `d[count]w` needs it. `cw`, `e`, `b` and the other motions are left out. Its own ensures give only bounds and progress; where it lands is stated by `Motions.WordForwardCounts` and `Motions.WordForwardPending`.
- Keys.CountsMultiply: the `2d12w` record (test/mode/modeNormal.test.ts:1987-1996) is proved only through this all-inputs lemma. It has no concrete case, because evaluating 24 word steps over its buffer is beyond the verifier's budget.
- Arguments.ArgumentObject: these argument records have no concrete case lemma: test/mode/modeNormal.test.ts lines 2788, 2796, 2812, 2820, 2836, 2844, 2860, 2876, 2892, 2908, 2924, 2932, 2948, 2956, 3004 and 3020. The all-inputs contracts of `ArgumentObject`, `InnerArgument` and `AroundArgument` state the rules they exercise.
- Word, WORD, sentence, paragraph, indent and tag objects, `gq`, `gn`/`gN`, marks, `<C-u>` scrolling, `<C-g>`, multiple cursors and the VS Code host are outside this model.
