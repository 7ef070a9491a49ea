/**
 * Cursor motion (main.c:414-503): the key switch of editorMoveCursor, the
 * clamp every motion ends with, line jumps and repeated motions.
 */
module Motion {
  import opened Options
  import opened TabRender
  import opened Rows
  import opened EditorState

  predicate IsHorizontal(key: int)
  {
    key == KeyLeft || key == KeyRight || key == KeyLineFirst || key == KeyLineStart
  }

  predicate IsVertical(key: int)
  {
    key == KeyDown || key == KeyPlus || key == KeyUp || key == KeyMinus || key == KeyBottom || key == KeyTop
  }

  /**
   * What editorMoveCursor needs of its caller. The source dereferences the
   * current row for `^` and the previous row for `h` at column 0, so those
   * rows must exist; only the clamp-only call (key 0) is made with a row out
   * of range.
   */
  predicate CanMove(s: Editor, key: int)
  {
    && 0 <= s.cursorX
    && (key != KeyAlign ==> 0 <= s.cursorY <= |s.rows|)
    && (key == KeyLineStart ==> s.cursorY < |s.rows|)
  }

  /** The switch of editorMoveCursor (main.c:441-486). */
  function ApplyKey(s: Editor, key: int): (r: Editor)
    requires CanMove(s, key)
    ensures r == s.(cursorX := r.cursorX, cursorY := r.cursorY, isEndMode := r.isEndMode)
    ensures 0 <= r.cursorX
    ensures key == KeyLineEnd ==> r.isEndMode && r.cursorY == s.cursorY
    ensures IsHorizontal(key) ==> !r.isEndMode
    ensures !IsHorizontal(key) && key != KeyLineEnd ==> r.isEndMode == s.isEndMode
    ensures key != KeyAlign || 0 <= s.cursorY ==> 0 <= r.cursorY || |s.rows| == 0
  {
    if key == KeyRight then
      var t := s.(isEndMode := false);
      if s.cursorY < |s.rows| && s.cursorX < |s.rows[s.cursorY].raw| then t.(cursorX := s.cursorX + 1)
      else if s.cursorY < |s.rows| && s.cursorX == |s.rows[s.cursorY].raw| then t.(cursorY := s.cursorY + 1, cursorX := 0)
      else t
    else if key == KeyDown || key == KeyPlus then
      // rowscount - 1 is unsigned: with no rows it wraps around and the test passes
      if |s.rows| == 0 || s.cursorY < |s.rows| - 1 then s.(cursorY := s.cursorY + 1) else s
    else if key == KeyLeft then
      var t := s.(isEndMode := false);
      if s.cursorX != 0 then t.(cursorX := s.cursorX - 1)
      else if s.cursorY > 0 then t.(cursorY := s.cursorY - 1, cursorX := |s.rows[s.cursorY - 1].raw|)
      else t
    else if key == KeyUp || key == KeyMinus then
      if s.cursorY > 0 then s.(cursorY := s.cursorY - 1) else s
    else if key == KeyBottom then
      s.(cursorY := |s.rows| - 1)
    else if key == KeyTop then
      s.(cursorY := 0)
    else if key == KeyLineFirst then
      s.(isEndMode := false, cursorX := 0)
    else if key == KeyLineStart then
      // the index is taken in the render buffer, not in the raw text
      s.(isEndMode := false, cursorX := FirstNonSpace(s.rows[s.cursorY].render))
    else if key == KeyLineEnd then
      s.(cursorX := CurrentLength(s), isEndMode := true)
    else
      s
  }

  /**
   * The loop of main.c:501-502: the row offset is lowered one step at a time
   * while the cursor row plus the offset lies past the row count.
   */
  function LowerRowOffset(row: int, offset: int, rowCount: int): (r: int)
    ensures r == if 0 < offset && rowCount < row + offset then Max(0, rowCount - row) else offset
    decreases offset
  {
    if row + offset > rowCount && offset > 0 then LowerRowOffset(row, offset - 1, rowCount) else offset
  }

  /**
   * The end of editorMoveCursor (main.c:487-502). The row length is looked up
   * before the row is clamped, so a row out of range counts as length 0.
   */
  function Settle(t: Editor): (r: Editor)
    ensures r == t.(cursorX := r.cursorX, cursorY := r.cursorY, rowOffset := r.rowOffset)
    ensures r.cursorY == Max(0, Min(t.cursorY, |t.rows|))
    ensures 0 <= t.cursorX ==> 0 <= r.cursorX <= CurrentLength(r)
    ensures t.isEndMode && (0 <= t.cursorY || |t.rows| == 0) ==> r.cursorX == CurrentLength(r)
    ensures 0 <= t.rowOffset ==>
              && 0 <= r.rowOffset <= t.rowOffset
              && r.cursorY + r.rowOffset <= |r.rows|
              && (r.rowOffset == t.rowOffset || r.cursorY + r.rowOffset == |r.rows|)
  {
    var length := CurrentLength(t);
    var cx := if t.cursorX > length || t.isEndMode then length else t.cursorX;
    var cy := if t.cursorY < 0 then 0 else if t.cursorY > |t.rows| then |t.rows| else t.cursorY;
    t.(cursorX := cx, cursorY := cy, rowOffset := LowerRowOffset(cy, t.rowOffset, |t.rows|))
  }

  /** The column a vertical move lands on in its new row: the anchor, or the old column cut to the row. */
  function VerticalColumn(s: Editor, r: Editor): int
  {
    if s.isEndMode || s.cursorX > CurrentLength(r) then CurrentLength(r) else s.cursorX
  }

  /** editorMoveCursor (main.c:437-503). */
  function MoveCursor(s: Editor, key: int): (r: Editor)
    requires CanMove(s, key)
    // the final clamp
    ensures 0 <= r.cursorY <= |r.rows|
    ensures 0 <= r.cursorX <= CurrentLength(r)
    // only the cursor, the end-of-line anchor and the row offset change
    ensures r == s.(cursorX := r.cursorX, cursorY := r.cursorY, isEndMode := r.isEndMode, rowOffset := r.rowOffset)
    ensures 0 <= s.rowOffset ==>
              && 0 <= r.rowOffset <= s.rowOffset
              && r.cursorY + r.rowOffset <= |r.rows|
              && (r.rowOffset == s.rowOffset || r.cursorY + r.rowOffset == |r.rows|)
    // the end-of-line anchor
    ensures key == KeyLineEnd ==> r.isEndMode && r.cursorY == s.cursorY && r.cursorX == CurrentLength(r)
    ensures IsHorizontal(key) ==> !r.isEndMode
    ensures !IsHorizontal(key) && key != KeyLineEnd ==> r.isEndMode == s.isEndMode
    ensures r.isEndMode && (key != KeyAlign || 0 <= s.cursorY) ==> r.cursorX == CurrentLength(r)
  {
    Settle(ApplyKey(s, key))
  }

  /** h, l, 0 and ^ (main.c:442-450, 455-463, 474-481). */
  lemma MoveHorizontal(s: Editor, key: int)
    requires CanMove(s, key)
    ensures var r := MoveCursor(s, key);
      && (key == KeyRight && s.cursorY < |s.rows| && s.cursorX < CurrentLength(s) ==>
            r.cursorY == s.cursorY && r.cursorX == s.cursorX + 1)
      && (key == KeyRight && s.cursorY < |s.rows| && s.cursorX == CurrentLength(s) ==>
            r.cursorY == s.cursorY + 1 && r.cursorX == 0)
      && (key == KeyRight && s.cursorY == |s.rows| ==> r.cursorY == s.cursorY && r.cursorX == 0)
      && (key == KeyLeft && 0 < s.cursorX <= CurrentLength(s) ==>
            r.cursorY == s.cursorY && r.cursorX == s.cursorX - 1)
      && (key == KeyLeft && s.cursorX == 0 && 0 < s.cursorY ==>
            r.cursorY == s.cursorY - 1 && r.cursorX == |s.rows[s.cursorY - 1].raw|)
      && (key == KeyLeft && s.cursorX == 0 && s.cursorY == 0 ==> r.cursorY == 0 && r.cursorX == 0)
      && (key == KeyLineFirst ==> r.cursorY == s.cursorY && r.cursorX == 0)
      && (key == KeyLineStart ==>
            r.cursorY == s.cursorY
            && r.cursorX == Min(FirstNonSpace(s.rows[s.cursorY].render), |s.rows[s.cursorY].raw|))
  {
  }

  /** j, k, G and the top jump keep the column where the new row allows it (main.c:451-454, 464-473, 489-491). */
  lemma MoveVertical(s: Editor, key: int)
    requires CanMove(s, key)
    ensures var r := MoveCursor(s, key);
      && (key == KeyDown || key == KeyPlus ==>
            r.cursorY == if s.cursorY < |s.rows| - 1 then s.cursorY + 1 else s.cursorY)
      && (key == KeyUp || key == KeyMinus ==> r.cursorY == if s.cursorY > 0 then s.cursorY - 1 else 0)
      && (key == KeyBottom ==> r.cursorY == Max(|s.rows| - 1, 0))
      && (key == KeyTop ==> r.cursorY == 0)
      && (IsVertical(key) ==> r.cursorX == VerticalColumn(s, r))
  {
  }

  /**
   * The clamp-only call editorMoveCursor(0) (main.c:487-499): the row is
   * clamped into [0, rowscount]; a row that was out of range before the clamp
   * leaves the column at 0, whatever the anchor says.
   */
  lemma MoveAlign(s: Editor)
    requires 0 <= s.cursorX
    ensures var r := MoveCursor(s, KeyAlign);
      && r.cursorY == Max(0, Min(s.cursorY, |s.rows|))
      && (0 <= s.cursorY < |s.rows| ==> r.cursorX == VerticalColumn(s, r))
      && (!(0 <= s.cursorY < |s.rows|) ==> r.cursorX == 0)
  {
  }

  /**
   * editorMoveCursorToLine (main.c:415-428): jump to the 1-based line held in
   * the count, reset the row offset and the count, then clamp.
   */
  function MoveCursorToLine(s: Editor): (r: Editor)
    requires 0 <= s.cursorX
    ensures r.count == 0 && r.rowOffset == 0
    ensures 0 <= s.count ==> r.cursorY == Max(Min(s.count, |s.rows|) - 1, 0)
    ensures 0 <= r.cursorY <= |r.rows|
    ensures 0 <= r.cursorX <= CurrentLength(r)
    ensures r == s.(cursorX := r.cursorX, cursorY := r.cursorY, rowOffset := 0, count := 0)
    ensures 0 < s.count ==> r.cursorX == VerticalColumn(s, r)
  {
    // `*linenumber > rowscount` compares as unsigned, so a negative line number also becomes rowscount
    var line := if s.count > |s.rows| || s.count < 0 then |s.rows| else s.count;
    var line := if line < 0 then -line else line;
    MoveCursor(s.(cursorY := line - 1, rowOffset := 0, count := 0), KeyAlign)
  }

  /** A state the interpreter may repeat a motion from. */
  predicate InBounds(s: Editor)
  {
    0 <= s.cursorY <= |s.rows| && 0 <= s.cursorX <= CurrentLength(s)
  }

  /**
   * The repeat loop of editorHandleNormalMode (main.c:541-544): `n` motions in
   * a row. The loop counts the count field down to 0; its caller resets it.
   */
  function RepeatMotion(s: Editor, key: int, n: int): (r: Editor)
    requires InBounds(s)
    requires key == KeyLineStart ==> s.cursorY < |s.rows|
    ensures InBounds(r)
    ensures r == s.(cursorX := r.cursorX, cursorY := r.cursorY, isEndMode := r.isEndMode, rowOffset := r.rowOffset)
    ensures key == KeyLineStart ==> r.cursorY == s.cursorY
    ensures 0 <= s.rowOffset ==> 0 <= r.rowOffset
    decreases n
  {
    if n <= 0 then s else RepeatMotion(MoveCursor(s, key), key, n - 1)
  }

  /** A counted `j` moves down `count` rows, stopping at the last row. */
  lemma {:induction false} RepeatDown(s: Editor, n: int)
    requires InBounds(s) && s.cursorY < |s.rows|
    ensures RepeatMotion(s, KeyDown, n).cursorY == Min(s.cursorY + Max(n, 0), |s.rows| - 1)
    decreases n
  {
    if n > 0 {
      MoveVertical(s, KeyDown);
      RepeatDown(MoveCursor(s, KeyDown), n - 1);
    }
  }

  /** A counted `k` moves up `count` rows, stopping at the first row. */
  lemma {:induction false} RepeatUp(s: Editor, n: int)
    requires InBounds(s)
    ensures RepeatMotion(s, KeyUp, n).cursorY == Max(s.cursorY - Max(n, 0), 0)
    decreases n
  {
    if n > 0 {
      MoveVertical(s, KeyUp);
      RepeatUp(MoveCursor(s, KeyUp), n - 1);
    }
  }

  /** Motions to a fixed place: 0, ^, $, G and the top jump. */
  predicate IsAbsolute(key: int)
  {
    key == KeyLineFirst || key == KeyLineStart || key == KeyLineEnd || key == KeyBottom || key == KeyTop
  }

  /** A second motion to a fixed place changes nothing. */
  lemma MoveIdempotent(s: Editor, key: int)
    requires IsAbsolute(key) && InBounds(s)
    requires key == KeyLineStart ==> s.cursorY < |s.rows|
    ensures CanMove(MoveCursor(s, key), key)
    ensures MoveCursor(MoveCursor(s, key), key) == MoveCursor(s, key)
  {
  }

  /** Repeating a motion to a fixed place any positive number of times is the same as doing it once. */
  lemma {:induction false} RepeatAbsolute(s: Editor, key: int, n: int)
    requires IsAbsolute(key) && InBounds(s) && 0 < n
    requires key == KeyLineStart ==> s.cursorY < |s.rows|
    ensures RepeatMotion(s, key, n) == MoveCursor(s, key)
    decreases n
  {
    if n > 1 {
      RepeatAbsolute(MoveCursor(s, key), key, n - 1);
      MoveIdempotent(s, key);
    }
  }
}
