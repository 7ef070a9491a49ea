# nim editing core in Dafny

A model of the editing core of `nim`, a small vi-like terminal editor written
in C (`main.c`). It covers the following, each modelled as a pure function over
an immutable `Editor` value:

- the line buffer: rows, each with its raw text and its tab-expanded render
  buffer;
- how a logical column maps to a display column;
- cursor motion and the clamp every motion ends with;
- viewport scrolling;
- the normal-mode key interpreter: digit count prefix, the `g`/`gg`
  sequence buffer, `G`, paging and `:`;
- the ESC branch of the main loop.

The two loops of `editorUpdateRow` and `editorRowCursorxToRenderx` are also
written as methods, with loop invariants, and proved equal to the functional
definitions.

Files, one module each:

- `options.dfy` — `Option`.
- `tab_render.dfy` — `TabRender`. `TAB_WIDTH`, the render buffer (`Render`),
  the display column (`RenderX`), `firstNonSpace`, and the `UpdateRow` and
  `CursorxToRenderx` loops.
- `rows.dfy` — `Rows`. The `Row` record, `editorAppendRow`, and the line-end
  trimming `editorOpen` does.
- `editor_state.dfy` — `EditorState`. The `Editor` record (the fields of
  `struct editorConfig`), the key codes, `getCurrentRow`, the session
  invariant `Valid`, and `initEditor`.
- `motion.dfy` — `Motion`. `editorMoveCursor`, split into its key switch and
  its final clamp; `editorMoveCursorToLine`; and the counted repeat loop.
- `viewport.dfy` — `Viewport`. `editorScroll`.
- `normal_mode.dfy` — `NormalMode`. `editorHandleNormalMode`, one turn of the
  main loop (`ProcessKey`), and key sequences (`Run`).

How the model represents the source:

- **Keys.** A key is a `char`. Keys passed to `editorMoveCursor` are `int`,
  because `TOP` is 1000; the code 0 is the clamp-only call
  `editorMoveCursor(0)`.
- **Counts.** The digit buffer `numberSequence` is `digits`. The integer
  `numberSequenceInt` is `count`.
- **Sequence buffer.** The sequence buffer is `gSequence`.
- **Raw text and render buffer.** Each `Row` keeps the raw text and the render
  buffer, as `erow` does. `RowsRendered` says every cached render buffer
  equals `Render(raw)`.

## Model

| member | source | states |
|---|---|---|
| TabRender.FirstNonSpace | main.c:23-31 | the result is the length of the longest all-blank prefix: every character before it is one of space, \t, \n, \r, \f, \v, and the character at it is not blank (or the text ends) |
| TabRender.Render | main.c:213-225 | the render buffer of a line, copying every character and padding every tab to the next multiple of TAB_WIDTH: it holds no tab and is at least as long as the raw text |
| TabRender.RenderX | main.c:192-202 | the display column of logical column cx, one character at a time: every character takes at least one and at most TAB_WIDTH columns, so cx <= renderx <= TAB_WIDTH*cx |
| TabRender.AdvanceTab | main.c:196-198 | a tab moves renderx to the next multiple of TAB_WIDTH, between 1 and TAB_WIDTH columns on |
| TabRender.RenderStep | main.c:213-222 | rendering one more raw character appends its cell (the character, or spaces up to the next multiple of TAB_WIDTH for a tab) to the rendering of the prefix, and counts one more tab for a tab |
| TabRender.RenderXIsPrefixLength | main.c:192-202 | the display column of logical column cx is the length of the render buffer of raw[..cx]; the cursor is drawn right after the rendered text before it |
| TabRender.RenderPrefix | main.c:213-222 | rendering is monotone: the rendering of a prefix of a line is a prefix of the line's rendering |
| TabRender.RenderLength | main.c:204-211 | size <= rendersize <= size + tabs*(TAB_WIDTH-1), so the allocation of main.c:211 has room for every cell and the NUL |
| TabRender.RenderXStrictlyIncreasing | main.c:192-202 | display columns grow strictly with the logical column, and the end of the line maps to rendersize |
| TabRender.RenderAgreesWithRenderX | main.c:192-222 | a non-tab character is drawn at its display column and advances it by one; a tab advances it to the next multiple of TAB_WIDTH, by 1 to 4 columns, all of them spaces in the render buffer |
| TabRender.RenderExample | main.c:192-222 | "a\tb" renders as "a   b", and logical column 2 is display column 4 |
| TabRender.UpdateRow | main.c:203-226 | the copy-and-pad loop builds exactly the render buffer Render(raw), so it holds no tab and the length bounds of RenderLength hold of it; its loop invariant keeps every write inside the size+1+tabs*(TAB_WIDTH-1) bytes allocated |
| TabRender.CountTabs | main.c:205-208 | the first loop counts the tabs of the line |
| TabRender.PadTab | main.c:216-219 | the inner padding loop appends one space and then spaces up to the next tab stop, that is, the cell of a tab |
| TabRender.TabCountPrefix | main.c:205-211 | a prefix has no more tabs than its line, and its size + tabs*(TAB_WIDTH-1) bound never exceeds the line's, so the buffer sized for the whole line fits every prefix rendered so far |
| TabRender.CursorxToRenderx | main.c:192-202 | the loop returns the length of the render buffer of raw[..cx], which is at least cx |
| Rows.AppendRow | main.c:227-243 | the buffer gains exactly one row at the end, holding the text and its rendering; the earlier rows are untouched, and a fully rendered buffer stays fully rendered |
| Rows.TrimLineEnd | main.c:257-259 | the stored line is a prefix of the line read, does not end in CR or LF, and only CR and LF were removed |
| EditorState.CurrentRow | main.c:430-436 | there is a current row exactly when 0 <= cursory < rowscount, and it is rows[cursory]; a negative cursory gives none, because the comparison with the unsigned rowscount turns it into a huge value |
| EditorState.InitEditor | main.c:575-594 | the initial editor (no rows, cursor at the origin, empty prefixes, normal mode, screen height one less than the window) satisfies the session invariant |
| Motion.ApplyKey | main.c:439-486 | the key switch touches only the cursor and the end-of-line anchor; `$` sets the anchor and keeps the row; h, l, 0 and ^ clear it; other keys keep it; the column stays non-negative |
| Motion.LowerRowOffset | main.c:501-502 | the decrement loop stops at the largest offset not exceeding the old one for which row + offset <= rowscount, or at 0 |
| Motion.Settle | main.c:487-502 | the final clamp puts the row in [0, rowscount] and the column in [0, length of the current row]; with the anchor set, and a row that was not negative before the clamp (or an empty buffer), the column is the row length; the row offset only shrinks, until row + offset <= rowscount |
| Motion.MoveCursor | main.c:437-503 | after every motion 0 <= cursory <= rowscount and 0 <= cursorx <= row length; only the cursor, the anchor and the row offset change; `$` pins the column to the row end |
| Motion.MoveHorizontal | main.c:442-481 | l moves right or wraps to column 0 of the next row; h moves left or wraps to the end of the previous row; 0 goes to column 0; ^ goes to the first non-blank index of the render buffer, cut to the row length |
| Motion.MoveVertical | main.c:451-491 | j/+ and k/- move one row within [0, rowscount-1]; G goes to the last row; TOP to row 0; the column is the old column cut to the new row, or the row end when anchored |
| Motion.MoveAlign | main.c:487-499 | the clamp-only call clamps the row into [0, rowscount]; a row that was out of range before the clamp leaves the column at 0 |
| Motion.MoveCursorToLine | main.c:415-428 | jumps to row min(n, rowscount)-1 (at least 0) for a count n >= 0, resets the row offset and the count, and ends clamped |
| Motion.RepeatMotion | main.c:538-545 | repeating a motion keeps the cursor in bounds and only touches the cursor, the anchor and the row offset |
| Motion.RepeatDown | main.c:538-545 | a counted j moves down n rows, stopping at the last row |
| Motion.RepeatUp | main.c:538-545 | a counted k moves up n rows, stopping at row 0 |
| Motion.MoveIdempotent | main.c:468-485 | 0, ^, $, G and TOP are idempotent: a second identical motion changes nothing |
| Motion.RepeatAbsolute | main.c:538-545 | repeating 0, ^, $, G or TOP n > 0 times equals doing it once |
| Viewport.Scroll | main.c:271-294 | only renderx and the offsets change; renderx is the rendered length of the text before the cursor; afterwards the cursor row is visible; the row offset does not move if the row already was visible, and otherwise moves just far enough that the row lands on the first or the last screen line; a row whose raw text is at most screencols long has column offset 0; on a longer one renderx is visible |
| Viewport.ScrollIdempotent | main.c:271-294 | recomputing the viewport a second time changes nothing |
| Viewport.ScrollKeepsValid | main.c:271-294 | scrolling keeps the session invariant |
| Viewport.ShortTabbedRowOffScreen | main.c:292-293 | the width test compares the raw size: with a row of three tabs on a five-column screen and the cursor at its end, renderx is 12 and the column offset stays 0, so the cursor is drawn off screen |
| NormalMode.DecimalValue | main.c:513-513 | the count read from the digit buffer: the decimal value of the digits, most significant first, never negative for a string of digits |
| NormalMode.DecimalRoundTrip | main.c:506-514 | reading back (atoi) the digits typed for n gives n, and they form a prefix the buffer accepts |
| NormalMode.DecimalPositive | main.c:506-514 | a non-empty digit prefix never starting with '0' reads as a positive count |
| NormalMode.DecimalDigitsOfValue | main.c:506-514 | every prefix the buffer can hold is the decimal writing of its value, so buffer and count determine each other |
| NormalMode.Dispatch | main.c:518-561 | the switch keeps the cursor in bounds and the rows and digit buffer unchanged; only g grows the sequence buffer; only : changes the mode (to command); the screen size, the column offset and renderx are untouched |
| NormalMode.FinishSequence | main.c:562-571 | with fewer than two keys buffered nothing changes; with two it moves to the `gg` target row, empties the buffer and resets the count |
| NormalMode.HandleNormal | main.c:505-572 | every normal-mode key other than Ctrl-Q keeps the session invariant and the rows, and leaves the screen size, the column offset and renderx, which only editorScroll sets, unchanged |
| NormalMode.ProcessKey | main.c:604-612 | the loop exits exactly on Ctrl-Q in normal mode; ESC returns to normal mode with an empty sequence buffer and changes nothing else; other modes ignore other keys |
| NormalMode.Turn | main.c:602-612 | one turn of the loop: editorRefreshScreen runs editorScroll (main.c:380) on the state, then the key is processed; it exits exactly on Ctrl-Q in normal mode, ESC leaves the refreshed state in normal mode with an empty sequence buffer, and other modes keep the refreshed state |
| NormalMode.Run | main.c:602-613 | the main loop over a key sequence: every turn first refreshes the viewport, then processes the key; any sequence that does not exit leaves a valid editor over the same rows |
| NormalMode.DigitKeys | main.c:506-510 | 1-9 always extend the digit prefix, and 0 extends it once it has started; a leading 0 is the motion to column 0 |
| NormalMode.DispatchMotion | main.c:531-545 | a motion key runs the motion count times for a positive count and once otherwise, then resets the count |
| NormalMode.CountedMotion | main.c:506-545 | a motion key after a typed prefix n runs the motion max(n,1) times from the flushed state and leaves the count at 0 |
| NormalMode.DispatchBottom | main.c:547-552 | G with a count goes to line count (1-based, clamped) and resets the row offset; without one it goes to the last row |
| NormalMode.BottomKey | main.c:511-552 | G after a prefix n goes to line n, or to the last row without a count; the count is consumed |
| NormalMode.GKey | main.c:528-571 | the first g only buffers; a second g moves to line n of the pending count, or to row 0, and empties the buffer |
| NormalMode.PendingGKept | main.c:518-561 | only g touches the sequence buffer |
| NormalMode.NonDigitFlushes | main.c:511-516 | a non-digit key is dispatched after the digit prefix has been turned into the count and emptied |
| NormalMode.DispatchPage | main.c:553-560 | Ctrl-F and Ctrl-B are the clamp-only motion from the row one screen height below or above |
| NormalMode.PageKeysMove | main.c:553-560 | the same, seen from editorHandleNormalMode, after the prefix flush |
| NormalMode.PageKeys | main.c:553-560 | paging clamps the row into [0, rowscount] and keeps the anchor; a target row outside the buffer leaves the column at 0; the count is left pending |
| NormalMode.ColonKey | main.c:524-527 | : switches to command mode and changes nothing but the flushed prefix |
| NormalMode.UnknownKey | main.c:511-561 | a key the switch ignores only flushes the prefix into the count, which stays pending for a later motion |
| NormalMode.EscIdempotent | main.c:605-608 | a second ESC changes nothing |
| NormalMode.LineStartTakesRenderedIndex | main.c:478-481 | ^ stores a render-buffer index as the raw column: on "\tx" it lands at column 2, past the x |
| NormalMode.PageUpLeavesAnchorBehind | main.c:557-560 | Ctrl-B past row 0 with the anchor set gives column 0 on a non-empty row with the anchor still set |
| NormalMode.RunConcat | main.c:602-613 | running a then b is running a + b |
| NormalMode.TypeCount | main.c:506-510 | typing digits that keep the prefix well formed only extends the digit buffer |
| NormalMode.RunOne | main.c:609-611 | in normal mode a key other than ESC and Ctrl-Q is handed to editorHandleNormalMode |
| NormalMode.TypeCountThen | main.c:506-516 | typing the digits of n and then a non-digit key dispatches that key with pending count n |
| NormalMode.TypedCountDown | main.c:506-545 | typing n then j moves down n rows, stopping at the last row, and consumes the count |
| NormalMode.CountedDown | main.c:538-545 | j with a positive pending count n moves down n rows, stopping at the last row, and consumes the count |
| NormalMode.TypedGotoBottom | main.c:506-552 | typing n then G goes to line n, or to the last row without a count |
| NormalMode.GKeyTwice | main.c:528-571 | two g keys make one gg: to line n of the pending count, or to row 0 |
| NormalMode.TypedGotoTop | main.c:506-571 | typing n then gg goes to line n (row n-1, clamped); gg alone goes to row 0 |
| NormalMode.BottomThenUp | main.c:602-613 | with more than screenrows+2 rows, the refresh after G puts the last row on the bottom screen line, and the clamp of the following k lowers the row offset to exactly 2 |
| NormalMode.BottomScrolls | main.c:279-280 | after G the refresh sets the row offset to rowscount - screenrows, so the last row is on the bottom screen line |
| NormalMode.UpLowersOffset | main.c:501-502 | k from the last row with a row offset above 2 lands on row rowscount-2, and the decrement loop lowers the offset to 2 |
| NormalMode.PendingGAcrossKeys | main.c:528-571 | keys other than g and ESC leave a pending g in place, and keys other than : keep the mode |
| NormalMode.LateSecondG | main.c:562-571 | the two g keys need not be adjacent: g, any keys without g, ESC, Ctrl-Q or :, then g still fires gg |
| NormalMode.RunPrefix | main.c:602-613 | every prefix of a runnable key sequence is runnable |
| NormalMode.NoExitWithoutCtrlQ | main.c:519-523 | only Ctrl-Q ends the loop |

## Left out

- Terminal handling is not modelled: raw mode, `editorReadKey`, `getCursorPosition`, `getWindowSize` and `die`. The window size is a parameter of `InitEditor`, and keys are the input sequence of `Run`.
- Drawing is not modelled: the output half of `editorRefreshScreen`, `editorDrawRows`, `editorDrawStatusBar` and the append buffer `abAppend`/`abFree`. The viewport update `editorRefreshScreen` starts with (`editorScroll`, main.c:380) is modelled, as the first step of every `Turn`. The status bar's percentage is floating point.
- `editorOpen` reading the file is not modelled. Only the per-line trimming is kept (`TrimLineEnd`), and the rows are built with `AppendRow`.
- The Ctrl-Q branch is modelled only as `Exit`. Clearing the screen and `exit` are I/O.
- Insert, replace and command modes are not modelled. The source has no handler for them: `ProcessKey` ignores every key there except ESC.
- `charToDigit` (main.c:18-21) is never called by the source and is not modelled.
- Integers are unbounded. The `int` fields of the editor are 32 bits in C, and `atoi` of a very long digit prefix overflows there. Neither wrap-around is modelled.
- Unsigned comparisons with `rowscount` are modelled where they change the result: `j` on an empty buffer (main.c:452), `editorMoveCursorToLine` with a negative count (main.c:417), and `getCurrentRow` on a negative row (main.c:432), which Ctrl-B past the first row produces (main.c:558) and which therefore counts as no row. Elsewhere both sides are non-negative.
- Motion.MoveCursor: requires 0 <= cursory <= rowscount for every key except the clamp-only 0. Only Ctrl-F, Ctrl-B and line jumps produce a row out of range, and they all pass key 0.
- NormalMode.HandleNormal: `^` requires a current row (cursory < rowscount). On the row past the last one the source dereferences NULL.
- Viewport.Scroll: requires a current row (cursory < rowscount) and a column inside it. The last test of `editorScroll` reads `rows[cursory]` unconditionally, which is out of bounds on an empty buffer or past the last row.
- NormalMode.Run: every turn requires what `editorScroll` requires, so a key sequence is runnable only while the cursor is on a real row before each key. A session over an empty buffer (started without a file, or on an empty file) cannot take a turn, since the source reads `rows[0]` of a NULL array there. After `l` at the end of the last row or Ctrl-F past it, the next turn is not modelled. For the same reason `TypedGotoBottom` and `TypedGotoTop` start on a real row.
- Viewport.Scroll: row visibility is stated only for a screen height above 0, and column visibility only for a screen width above 0. With no visible rows or columns nothing can be visible.
- Viewport.Scroll: renderx is promised visible only on a row whose raw text is longer than the screen. The last test of `editorScroll` (main.c:292) compares the raw size with screencols, not the rendered width, so a short row with tabs keeps column offset 0 even when renderx lies beyond the screen (`ShortTabbedRowOffScreen`). The model keeps this behaviour of the code.
- NormalMode.DecimalValue: the digit buffer is filled by `abAppend` (main.c:64-74), which never writes a terminating NUL, and `atoi` at main.c:513 reads it as a C string, past its end. The model takes the value of the digits alone, which is what `atoi` returns when the byte after them is not a digit. The `strstr` on the sequence buffer (main.c:563) has the same missing terminator, but there it cannot matter: that buffer holds only `g` keys, so with two of them it starts with "gg".
- Where this editor differs from vi, the model follows the code:
  - Column range. The column may equal the row length in normal mode, not length-1.
  - Sticky column. There is none. A vertical move cuts the column to the new row, and only `$` pins it to the row end (`isEndMode`).
  - ESC. ESC clears only the sequence buffer and the mode. The digit buffer and the pending count survive it.
  - Pending count. A count flushed by a key that does not use it stays pending for a later motion.
  - `gg`. It is found by substring search on the sequence buffer, so a pending `g` is not cancelled by other keys (`LateSecondG`).
  - Missing commands. There are no `d`/`dd`, `x`, `J`, `f`, insert commands or line editing in the source. The line buffer only grows through `editorAppendRow`.
- Motion.MoveCursor: the claim that the anchor `isEndMode` pins the column to the row end is stated only for calls that start on a row in range. Ctrl-B past the first row is a counterexample (`PageUpLeavesAnchorBehind`), so `Valid` does not include it.
