# tracer, modelled in Dafny

tracer watches an application's log as it is piped through it. It echoes every line, in red
while an error block is open, and stores each finished block in a database as a pair of texts:
the block's first line (the short text) and the whole block (the full text). Run on a terminal
instead, it lets the user browse the stored errors. A scrolling list shows one entry per error,
and a detail pane shows the selected error's full text.

This project models the two engines behind that:

- **The error segmenter** (`StdinParser`): a line-at-a-time state machine over `inError`,
  `hasReadAt` and `errorBuffer`.
  - `text.dfy` holds the few Python string operations it needs.
  - `patterns.dfy` holds its three regular expressions, written out as predicates.
  - `segmenter.dfy` holds the parser:
    - the pure functions `ParseStep`, `FlushStep`, `LogLineStep`, `ErrorLineStep`, `Feed` and
      `Run` give the meaning of each method and of the read loop;
    - the class `StdinParser` runs the same code on its own fields and is proved to agree with
      them;
    - the lemmas state what a whole run stores and echoes.
  - The input stream is a `seq<string>` of lines. The database is a ghost sequence of
    `Record(short, full)` pairs that `flushError` appends to. What is printed is a sequence of
    echoed strings.
- **The viewport arithmetic** (`viewport.dfy`):
  - A `DataList`'s scroll state is a `Cursor(index, pos, lines, count)`. One pure step
    function per method gives its meaning. The class `DataList` runs the source's code and
    is proved to agree with them. For page up that is the program's `PageUpAsWritten`. The
    corrected `PageUpStep` is a separate function (see Findings).
  - A key sequence (`Session`) lets the lemmas speak about any run of operations. A flag picks
    the program's page up or the corrected one.
  - `DetailPane` is a class whose methods pan over the loaded text.
- **The list text of a stored error** (`errors.dfy`).

`tracer.py` is the older single-file version of the program. Its `StdinParser`
(tracer.py:318-366) is line for line the one in tracer/parser.py, shifted by 308 lines. Its
`DataList` (tracer.py:136-246) is the one in tracer/view.py, shifted by 9 lines. Its
`DetailPane` scroll methods (tracer.py:275-305) are those of tracer/view.py, shifted by 6
lines. So one model serves both, and the table below cites the package files.

The older `DetailPane(stdscr, data)` constructor loads its text when it is built. It is
modelled as `Viewport.DetailPane.FromData`. The older `Error.getListText` is `Errors.ListText`.

The model follows the code in these points, where its behaviour may be unexpected:

- A block is closed by a line that starts with `<`. It is also closed by a non-continuation
  line that directly follows a line starting with `at `: `hasReadAt` is set again from every
  line read while a block is open, so it looks back one line only.
  - After a frame, a blank, `Caused by: ` or `... N more` line clears `hasReadAt`. A plain
    log line after it then joins the block, which stays open
    (`Segmenter.FrameThenContinuationKeepsTheBlockOpen`,
    `Segmenter.BlankAfterFrameKeepsTheBlockOpen`).
  - Stack frames indented by spaces or a tab do not start with `at `, so they never set
    `hasReadAt`. While no line starts with `at `, the block is therefore not closed by a
    plain log line; it stays open until a `<` line or the next `ERROR` line. A trace of two
    space-indented frames followed by an `INFO` line is thus one open block holding all four
    lines, not a closed block of three (`Segmenter.IndentedFramesKeepTheBlockOpen`).
- A block still open when the input ends is never stored: the read loop ends without a
  final `flushError` (tracer/parser.py:16-21). In `Segmenter.RunStoresRedText` and
  `Segmenter.RunBlocks` the records are only the closed blocks; the block still open is the
  buffer, which neither lemma stores.
- `setData` does not reset the pane's offsets, and it never lowers `numCols`.
- The pane's offsets are not clamped to `[0, …]`: `scrollBottom`, `scrollDown` and
  `scrollRight` give negative offsets when the text is smaller than the window.
- `screenPos <= index` is not kept:
  - `scrollDown` and `scrollBottom` put the cursor row below the selection when there are
    fewer entries than rows;
  - `shrink` can do the same after that.
  
  The no-blank-rows property is proved for lists at least as long as the full window, with
  the corrected page up only: the program's page up can leave a blank row (see Findings).
  The bounds property is proved for the program's page up and the corrected one.

## Model

| member | source | states |
|---|---|---|
| `Text.Split` | tracer/view.py:256 | `str.split` on one character gives one more piece than there are separators, and no piece holds a separator |
| `Patterns.IsErrorStart` | tracer/parser.py:7 | `ERROR_START.search`: some position of the line begins `ERROR`; a line that matches has at least five characters |
| `Patterns.IsErrorMore` | tracer/parser.py:8 | `ERROR_MORE.match`: the line, less one final newline, is three non-newline characters, a space, digits and ` more`; a line that matches has at least nine characters |
| `Patterns.IsBlank` | tracer/parser.py:9 | `BLANK_LINE.match`: every character of the line is whitespace; the empty line matches |
| `Patterns.IsContinuePattern` | tracer/parser.py:37-42 | `isContinuePattern`: the line starts with `at ` or `Caused by: `, or matches `ERROR_MORE` or `BLANK_LINE`; the empty line is a continuation line |
| `Patterns.ErrorStartIff` | tracer/parser.py:7 | a line is a start line (the lazy `.*?ERROR` found by `search`) exactly when `ERROR` occurs in it |
| `Patterns.ErrorStartHasE` | tracer/parser.py:7 | a start line holds a capital `E` |
| `Patterns.MoreLineMatches` | tracer/parser.py:8 | every line of the shape three non-newline characters, space, digits, ` more`, with or without a final newline, matches `ERROR_MORE` |
| `Patterns.ErrorMoreShape` | tracer/parser.py:8 | every line matching `ERROR_MORE` has that shape |
| `Patterns.FrameContinues` | tracer/parser.py:37-42 | a line starting with `at ` is a continuation line and does not start with `<` |
| `Patterns.ContinuationAccepts` | tracer/parser.py:37-42 | a frame, a `Caused by: ` line, a `... 12 more` line and a whitespace-only line are continuation lines |
| `Patterns.IndentedFrameRefused` | tracer/parser.py:39 | a tab-indented frame is not a continuation line: the prefix test is literal |
| `Patterns.IndentedFrameIsNoFrame` | tracer/parser.py:25-31 | a tab-indented frame starts with neither `at ` nor `<` and carries no `ERROR` |
| `Patterns.IndentedMoreRefused` | tracer/parser.py:8 | a tab-indented `... 12 more` line is refused, because `...` stands for exactly three characters |
| `Patterns.LogLineRefused` | tracer/parser.py:37-42 | an ordinary log line is not a continuation line |
| `Segmenter.Closes` | tracer/parser.py:25 | the test that ends a block: only while `inError`, a line starting with `<`, or a non-continuation line directly after an `at ` line; a line starting with `at ` never closes a block |
| `Segmenter.Flushed` | tracer/parser.py:44-49 | a flush stores nothing for an empty buffer, else exactly one record: short = first line, full = first line followed by the rest joined, so full starts with short |
| `Segmenter.FlushStep` | tracer/parser.py:44-49 | `flushError` empties the buffer, appends `Flushed(buffer)` to the store and changes nothing else |
| `Segmenter.ParseStep` | tracer/parser.py:23-35 | an `ERROR` line flushes and opens a block with `hasReadAt` false and an empty buffer; otherwise, while in error, a `<` line or a non-continuation line directly after an `at ` line flushes and clears `inError`; otherwise the state keeps its block; in error, `hasReadAt` becomes "this line starts with `at `"; outside a block a non-start line changes nothing |
| `Segmenter.LogLineStep` | tracer/parser.py:52-53 | `printLogLine` echoes the line unchanged and changes nothing else |
| `Segmenter.ErrorLineStep` | tracer/parser.py:55-57 | `printErrorLine` appends the line to the buffer and echoes it wrapped in the red codes |
| `Segmenter.Feed` | tracer/parser.py:16-21 | one pass of the loop keeps the invariant (in error iff the buffer is non-empty, the buffer opens with its only `ERROR` line, every record's full text starts with its short text) and echoes the line once, in red iff a block is open after `parseError` |
| `Segmenter.Run` | tracer/parser.py:11-21 | after any input the invariant holds, in particular `inError == false` implies an empty buffer, and one string was echoed per line |
| `Segmenter.StdinParser.constructor` | tracer/parser.py:11-21 | the loop over the lines leaves the parser in the state `Run(lines)`, so the invariant of `Run` and the lemmas about it hold of the parser after any input |
| `Segmenter.StdinParser.ParseError` | tracer/parser.py:23-35 | the method's new state is `ParseStep` of the old one, so it opens, closes or keeps the block as `ParseStep` states |
| `Segmenter.StdinParser.FlushError` | tracer/parser.py:44-49 | the method's new state is `FlushStep` of the old one: at most one record stored, buffer emptied |
| `Segmenter.StdinParser.PrintLogLine` | tracer/parser.py:52-53 | the method's new state is `LogLineStep` of the old one: the line echoed plainly, nothing else changed |
| `Segmenter.StdinParser.PrintErrorLine` | tracer/parser.py:55-57 | the method's new state is `ErrorLineStep` of the old one: the line buffered and echoed in red |
| `Segmenter.FlagsMeaning` | tracer/parser.py:16-21 | the colour of line `i` is fixed once it is read: it is `inError` after the first `i + 1` lines |
| `Segmenter.RunEchoesEachLineOnce` | tracer/parser.py:16-21 | every input line is echoed exactly once, in order, in red exactly when a block is open after `parseError` on it |
| `Segmenter.FeedShape` | tracer/parser.py:23-57 | one line either stores nothing and is buffered iff echoed in red, or stores the whole previous buffer as one record and leaves at most this line, which then opens a new block |
| `Segmenter.FeedKeepsRedText` | tracer/parser.py:16-57 | one line adds itself to "stored full texts followed by the buffer" exactly when it is echoed in red |
| `Segmenter.RunStoresRedText` | tracer/parser.py:16-57 | the stored full texts, in order, followed by the buffer, join to exactly the lines echoed in red |
| `Segmenter.RunBlocks` | tracer/parser.py:16-49 | each record is a contiguous run of input lines: opened by an `ERROR` line, no other inside, all red, ended by the next start line or a plain line; short = its first line, full = its lines joined; records follow input order without overlap; the buffer is the newest lines, all red |
| `Segmenter.FeedOpens` | tracer/parser.py:31-35 | an `ERROR` line stores the previous buffer and becomes the only line of the new buffer, with `inError` true and `hasReadAt` false |
| `Segmenter.FeedCloses` | tracer/parser.py:24-28 | a closing line without `ERROR` stores the block, clears `inError`, sets `hasReadAt` from itself and is echoed plainly |
| `Segmenter.FeedContinues` | tracer/parser.py:24-28 | a line in error that neither opens nor closes joins the buffer, sets `hasReadAt` from itself and is echoed in red |
| `Segmenter.FrameJoins` | tracer/parser.py:25-28 | in error, an `at ` line joins the block and sets `hasReadAt` |
| `Segmenter.FeedIdle` | tracer/parser.py:16-35 | outside a block, a line without `ERROR` is only echoed |
| `Segmenter.ConsecutiveStartsMakeTwoBlocks` | tracer/parser.py:31-35 | two `ERROR` lines in a row, then a `<` line, store two one-line records in order |
| `Segmenter.BlockGrows` | tracer/parser.py:24-28 | after a non-frame line, lines without `ERROR`, `<` or `at ` never close the block, whatever they are |
| `Segmenter.FramesExtendBlock` | tracer/parser.py:24-28 | frames never close the block; after the first one `hasReadAt` is set |
| `Segmenter.FramesThenTextCloseTheBlock` | tracer/parser.py:23-49 | a start line, frames, then a non-continuation line store exactly one record: (start line, start line + frames joined) |
| `Segmenter.IndentedFramesKeepTheBlockOpen` | tracer/parser.py:25-28 | after a start line, lines without `ERROR`, `<` or `at ` (indented frames, log lines) store nothing and all join the open block |
| `Segmenter.FrameThenContinuationKeepsTheBlockOpen` | tracer/parser.py:24-28 | in an open block, a frame, then a continuation line that is not a frame (blank, `Caused by: `, `... N more`), then a plain line: nothing is stored, all three join the block and `hasReadAt` ends false |
| `Segmenter.BlankAfterFrameKeepsTheBlockOpen` | tracer/parser.py:16-42 | a start line, `at a`, a blank line and `INFO ok` leave one open block of all four lines and an empty store |
| `Segmenter.TabIndentedTraceStaysOpen` | tracer/parser.py:28 | a start line and two tab-indented frames leave the block open with all three lines buffered |
| `Viewport.PyIndex` | tracer/view.py:166-167 | Python indexing: in range from the front for `[0, n)`, from the back for `[-n, 0)`, `IndexError` otherwise |
| `Viewport.DrawRangeHoldsSelection` | tracer/view.py:143-158 | under the bounds invariant, `redraw`'s range `[max(0, index-screenPos), min(numItems, index+screenLines-screenPos))` contains `index` and has at most `screenLines` rows |
| `Viewport.FilledDrawsWholeWindow` | tracer/view.py:143-158 | with no blank rows and enough entries, `redraw` fills every row, starting at `index - screenPos` |
| `Viewport.AddKeepsBounds` | tracer/view.py:161-164 | adding an entry keeps the selection in range and counts it |
| `Viewport.PressKeepsBounds` | tracer/view.py:169-237 | for a non-empty list and a window of at least one row, each of up, down, top, bottom, page up (as written or corrected), page down, shrink and grow keeps `0 <= index < numItems` and `0 <= screenPos < screenLines` |
| `Viewport.SessionKeepsBounds` | tracer/view.py:166-237 | so does any sequence of them, with the program's page up or the corrected one, so `getSelection` always indexes inside the list |
| `Viewport.PressKeepsFilled` | tracer/view.py:169-237 | with at least `MAX_LINES >= 3` entries and a window between 3 and `MAX_LINES` rows, each operation, with the corrected page up, keeps the selection in range, the height in that range and the window free of blank rows (`Steady`) |
| `Viewport.SessionFillsWindow` | tracer/view.py:143-237 | so does any sequence of them with the corrected page up, and `redraw` always fills the whole window |
| `Viewport.PagingAtTheEnds` | tracer/view.py:199-219 | page up is a no-op on the first entry and page down on the last; a page down that passes the end selects the last entry on the last row |
| `Viewport.PagingMovesAtMostAPage` | tracer/view.py:199-219 | from any state in bounds, lists shorter than the window included, a page, with the program's page up or the corrected one, moves the selection at least one and at most a window height; clear of the ends it moves exactly a window height and keeps the cursor row (for the program's page up also when it lands one entry above the cursor row) |
| `Viewport.FixScrollPutsLastEntryLast` | tracer/view.py:169-173 | `_fixScroll` keeps `index` and `numItems`, never lowers `screenPos`, and when it acts leaves `index - screenPos + screenLines == numItems` |
| `Viewport.ShrinkThenGrow` | tracer/view.py:221-237 | `shrink` sets 3 rows and `screenPos <= 2`, keeping smaller rows; a following `grow` restores `MAX_LINES` rows with `index` unchanged |
| `Viewport.SelectionSevenOnRowThree` | tracer/view.py:175-187 | eight downs and one up from the top of 20 entries in 5 rows select entry 7 on row 3 |
| `Viewport.PageUpLeavesBlankRow` | tracer/view.py:199-208 | from entry 7 on row 3 (no blank rows), page up as written selects entry 2 on row 3 and `redraw` fills 4 of 5 rows; the corrected test selects entry 3 and fills all 5 |
| `Viewport.PageUpAsWritten` | tracer/view.py:199-208 | `scrollPageUp` as written: keeps the window height and the number of entries; from a state in bounds it stays in bounds and never moves the selection down |
| `Viewport.PageUpAsWrittenMisplaces` | tracer/view.py:199-208 | whenever `screenPos >= 1` and `index - screenLines == screenPos - 1`, page up as written leaves the cursor row one below the selection |
| `Viewport.DataList.constructor` | tracer/view.py:129-141 | a window of `rows - 4` lines, `MAX_LINES` equal to it, at entry 0 on row 0, no entries |
| `Viewport.DataList.Redraw` | tracer/view.py:143-159 | the rows drawn are entries `DrawStart..DrawEnd`, each a space then the text padded to `screenCols - 1`, the selection reversed; under the bounds invariant 1 to `screenLines` rows with the selection among them |
| `Viewport.DataList.AddItem` | tracer/view.py:161-164 | appends the text and the data and increments `numItems`, keeping `numItems == len(items) == len(itemData)` |
| `Viewport.DataList.GetSelection` | tracer/view.py:166-167 | returns the selected text and data, with Python's negative indexing, or fails exactly when `index` is outside `[-numItems, numItems)` |
| `Viewport.DataList.FixScroll` | tracer/view.py:169-173 | `index` kept, `screenPos` never lowered, and when it moves the last entry is on the last row; keeps the bounds invariant |
| `Viewport.DataList.ScrollUp` | tracer/view.py:175-180 | new state is `ScrollUpStep` of the old; keeps the bounds invariant and `Steady` (no blank rows) |
| `Viewport.DataList.ScrollDown` | tracer/view.py:182-187 | new state is `ScrollDownStep` of the old; keeps the bounds invariant and `Steady` |
| `Viewport.DataList.ScrollTop` | tracer/view.py:189-192 | `index = screenPos = 0`; keeps the bounds invariant and `Steady` |
| `Viewport.DataList.ScrollBottom` | tracer/view.py:194-197 | `index = numItems - 1` and `screenPos = screenLines - 1`, whatever `numItems`; keeps the bounds invariant and `Steady` |
| `Viewport.DataList.ScrollPageUp` | tracer/view.py:199-208 | new state is `PageUpAsWritten` of the old; keeps the bounds invariant, and keeps `Steady` unless `index - screenLines == screenPos - 1` (see Findings) |
| `Viewport.DataList.ScrollPageDown` | tracer/view.py:210-219 | new state is `PageDownStep` of the old; keeps the bounds invariant and `Steady` |
| `Viewport.DataList.Resize` | tracer/view.py:221-230 | new height; `screenPos` pulled back to `lines - 1` if it was at or past it; a height of at least one keeps the bounds invariant |
| `Viewport.DataList.Shrink` | tracer/view.py:232-233 | three rows, state `ShrinkStep` of the old; keeps the bounds invariant and `Steady` |
| `Viewport.DataList.Grow` | tracer/view.py:235-237 | `MAX_LINES` rows, then `_fixScroll`: state `GrowStep` of the old; keeps the bounds invariant (for `MAX_LINES >= 1`) and `Steady` |
| `Viewport.WidestLine` | tracer/view.py:260-262 | the loop over the lines raises the width to the longest line and never lowers it: the result is `max(start, longest line)` |
| `Viewport.DetailPane.constructor` | tracer/view.py:246-253 | a window of `rows - 8` lines, offsets 0, `numCols` 0, no text loaded |
| `Viewport.DetailPane.FromData` | tracer.py:255-269 | the older constructor: offsets 0, `numLines` = number of newlines + 1, `numCols` = longest line |
| `Viewport.DetailPane.SetData` | tracer/view.py:255-267 | `numLines` = number of newlines + 1; `numCols` = max(old `numCols`, longest line); offsets unchanged |
| `Viewport.DetailPane.ScrollBottom` | tracer/view.py:269-271 | `linePos = numLines - screenLines`, negative for a short text |
| `Viewport.DetailPane.ScrollTop` | tracer/view.py:273-275 | `linePos = 0` |
| `Viewport.DetailPane.ScrollDown` | tracer/view.py:277-281 | `linePos = min(linePos + 1, numLines - screenLines)`, so `linePos + screenLines <= numLines`; `colPos` unchanged |
| `Viewport.DetailPane.ScrollUp` | tracer/view.py:283-287 | `linePos = max(linePos - 1, 0)`; `colPos` unchanged |
| `Viewport.DetailPane.ScrollRight` | tracer/view.py:289-293 | `colPos = min(colPos + 5, numCols - screenCols)`, so `colPos + screenCols <= numCols`; `linePos` unchanged |
| `Viewport.DetailPane.ScrollLeft` | tracer/view.py:295-299 | `colPos = max(colPos - 5, 0)`; `linePos` unchanged |
| `Errors.ListText` | tracer.py:420-421 | the list text is the time stamp, then `": "`, then the short error |
| `Errors.ListTextDetermines` | tracer.py:420-421 | for time stamps of one length, two errors have the same list text exactly when they have the same time stamp and short error |

## Left out

- Reading `sys.stdin` and printing to a terminal: the input is a sequence of lines, and the
  echo is a sequence of strings, with the colour codes as text. tracer/parser.py uses `sys`
  without importing it; the model takes the lines as given.
- The database (`DBManager`, sqlite): the store is an append-only ghost sequence of
  (short, full) records. Time stamps and row ids are not modelled, except as fields of
  `Errors.Error`.
- The regular expression engine: the three patterns are written out as predicates.
- `hasReadException`, which nothing reads, and the `isinstance(data, str)` test after
  `split`, which never holds.
- `hasReadAt` before the first `ERROR` line: the source leaves it unset, and reads it only
  while `inError`, which only an `ERROR` line sets. The model starts it at `false`.
- All curses calls: drawing, `clear`, `refresh`, `resize`, `newpad`, `addstr` and its
  `try/except: pass` guards. `DataList.Redraw` returns the rows it would draw. The other
  methods leave out their closing `redraw()`/`refresh()`, which changes no field.
- `MainWin`: the key loop, screen painting and the list set-up from the database. The key
  sequences of `Viewport.Session` stand for the `DataList` calls its keys make.
- The `__main__` block with its `KeyboardInterrupt`/`atexit` handling, and the
  configuration file.
- `Viewport.DetailPane.ScrollDown`: requires `loaded`, because `numLines` does not exist
  before the first `setData` and the source raises `AttributeError` there.
- `Viewport.DetailPane.ScrollBottom`: requires `loaded`, for the same reason.
- `Errors.Error`: follows the older record with `fullError`. The package's
  tracer/common.py:54-61 has the same `getListText` without that field.

## Findings

| source | as written | input that shows it | evidently intended | confidence | as-written member | corrected member |
|---|---|---|---|---|---|---|
| tracer/view.py:199-208 (and tracer.py:208-217) | page up raises the selection to the cursor row only when `index - (screenPos - 1) < 0`, so `index == screenPos - 1` passes and the cursor row ends one below the selection | 20 entries in a 5-row window: from the top, eight downs and one up select entry 7 on row 3; page up selects entry 2 on row 3, and `redraw` draws entries 0 to 3 in four rows, leaving the bottom row blank | the comparison `<= 0`: the selection never lands above its row, so the window stays full (entry 3 on row 3) | high; not executed | `Viewport.PageUpAsWritten` | `Viewport.PageUpStep` |
