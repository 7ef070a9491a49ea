/** The line buffer (main.c:94-97, 227-243, 257-259): raw text of each row with its cached rendering. */
module Rows {
  import opened TabRender

  /** erow: `size` is |raw| and `rendersize` is |render|. */
  datatype Row = Row(raw: seq<char>, render: seq<char>)

  /** Every row's render buffer is the tab expansion of its raw text. */
  predicate RowsRendered(rows: seq<Row>)
  {
    forall i :: 0 <= i < |rows| ==> rows[i].render == Render(rows[i].raw)
  }

  /**
   * editorAppendRow (main.c:227-243): copies `text` into a new last row and
   * renders it with editorUpdateRow.
   */
  method AppendRow(rows: seq<Row>, text: seq<char>) returns (r: seq<Row>)
    ensures |r| == |rows| + 1
    ensures r[..|rows|] == rows
    ensures r[|rows|].raw == text && r[|rows|].render == Render(text)
    ensures RowsRendered(rows) ==> RowsRendered(r)
  {
    var render := UpdateRow(text);
    r := rows + [Row(text, render)];
  }

  predicate IsLineEnd(c: char)
  {
    c == '\n' || c == '\r'
  }

  /** The trimming editorOpen applies to each line read (main.c:257-259): trailing CR and LF are dropped. */
  function TrimLineEnd(line: seq<char>): (r: seq<char>)
    ensures r <= line
    ensures |r| == 0 || !IsLineEnd(r[|r| - 1])
    ensures forall k :: |r| <= k < |line| ==> IsLineEnd(line[k])
    decreases |line|
  {
    if |line| > 0 && IsLineEnd(line[|line| - 1]) then TrimLineEnd(line[..|line| - 1]) else line
  }
}
