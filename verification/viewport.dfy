/** Viewport recomputation, editorScroll (main.c:271-294). */
module Viewport {
  import opened TabRender
  import opened Rows
  import opened EditorState

  /**
   * What editorScroll needs: it reads rows[cursory] unconditionally
   * (main.c:292), so the cursor must be on a real row, and it walks the raw
   * text up to cursorx (main.c:195-199), so the column must lie inside it.
   */
  predicate CanScroll(s: Editor)
  {
    0 <= s.cursorY < |s.rows| && 0 <= s.cursorX <= |s.rows[s.cursorY].raw|
  }

  /**
   * editorScroll: recompute the display column of the cursor, then move the
   * offsets just far enough that the cursor is on screen; a row whose raw text
   * fits the screen width is never scrolled sideways.
   */
  function Scroll(s: Editor): (r: Editor)
    requires CanScroll(s)
    // only the display column and the two offsets change
    ensures r == s.(renderX := r.renderX, rowOffset := r.rowOffset, colOffset := r.colOffset)
    // the cursor is drawn right after the rendered text before it
    ensures r.renderX == |Render(s.rows[s.cursorY].raw[..s.cursorX])|
    ensures s.cursorX <= r.renderX
    // the cursor row is visible, and the offset only moves when it was not
    ensures 0 < s.screenRows ==> r.rowOffset <= s.cursorY < r.rowOffset + s.screenRows
    ensures s.rowOffset <= s.cursorY < s.rowOffset + s.screenRows ==> r.rowOffset == s.rowOffset
    // scrolling moves just far enough: the cursor row lands on the first or the last screen line
    ensures 0 < s.screenRows && s.cursorY < s.rowOffset ==> r.rowOffset == s.cursorY
    ensures 0 < s.screenRows && s.rowOffset + s.screenRows <= s.cursorY ==>
              r.rowOffset == s.cursorY - s.screenRows + 1
    ensures 0 <= s.rowOffset ==> 0 <= r.rowOffset
    // the display column is visible, or the row is short and not scrolled at all
    ensures |s.rows[s.cursorY].raw| <= s.screenCols ==> r.colOffset == 0
    ensures 0 < s.screenCols < |s.rows[s.cursorY].raw| ==>
              r.colOffset <= r.renderX < r.colOffset + s.screenCols
  {
    var row := s.rows[s.cursorY];
    var rx := RenderX(row.raw, s.cursorX);
    RenderXIsPrefixLength(row.raw, s.cursorX);
    RenderLength(row.raw[..s.cursorX]);

    var ro := if s.cursorY < s.rowOffset then s.cursorY else s.rowOffset;
    var ro := if s.cursorY >= ro + s.screenRows then s.cursorY - s.screenRows + 1 else ro;

    var co := if s.cursorX < s.colOffset then s.cursorX else s.colOffset;
    var co := if s.cursorX >= co + s.screenCols then s.cursorX - s.screenCols + 1 else co;
    var co := if rx < co then rx else co;
    var co := if rx >= co + s.screenCols then rx - s.screenCols + 1 else co;
    var co := if |row.raw| <= s.screenCols then 0 else co;

    s.(renderX := rx, rowOffset := ro, colOffset := co)
  }

  /** The viewport is a function of the cursor: recomputing it a second time changes nothing. */
  lemma ScrollIdempotent(s: Editor)
    requires CanScroll(s)
    ensures CanScroll(Scroll(s))
    ensures Scroll(Scroll(s)) == Scroll(s)
  {
  }

  /**
   * The width test of main.c:292 looks at the raw size, not the rendered
   * width: a row of three tabs is three characters long but twelve columns
   * wide, so on a five-column screen the cursor at its end is drawn at
   * display column 12 while the view stays at column 0.
   */
  lemma ShortTabbedRowOffScreen(s: Editor)
    requires CanScroll(s) && s.rows[s.cursorY].raw == "\t\t\t"
    requires s.cursorX == 3 && s.screenCols == 5
    ensures Scroll(s).renderX == 12 && Scroll(s).colOffset == 0
    ensures Scroll(s).colOffset + s.screenCols <= Scroll(s).renderX
  {
    var raw := s.rows[s.cursorY].raw;
    assert raw[..3] == raw;
    assert raw[..2] == "\t\t" && raw[..2][..1] == "\t" && raw[..2][..1][..0] == [];
    assert Render("\t") == "    ";
    assert Render("\t\t") == "        ";
  }

  /** Scrolling keeps the session invariant. */
  lemma ScrollKeepsValid(s: Editor)
    requires Valid(s) && CanScroll(s)
    ensures Valid(Scroll(s))
  {
  }
}
