/** The editor session (struct editorConfig, main.c:98-111) and the key codes it reacts to (main.c:34-56). */
module EditorState {
  import opened Options
  import opened Rows

  datatype Mode = Normal | Insert | Replace | Command

  /**
   * One editor session. `gSequence` is the buffer that collects `g` keys,
   * `digits` the buffer that collects the repeat-count prefix, and `count`
   * the integer the prefix was last converted to (numberSequenceInt).
   * Cursor and offsets are plain integers, as in the source: a row can be
   * negative or past the end for a moment before editorMoveCursor clamps it.
   */
  datatype Editor = Editor(
    rows: seq<Row>,
    cursorX: int,
    cursorY: int,
    renderX: int,
    isEndMode: bool,
    rowOffset: int,
    colOffset: int,
    screenRows: int,
    screenCols: int,
    gSequence: seq<char>,
    digits: seq<char>,
    count: int,
    mode: Mode)

  // Key codes handed to editorMoveCursor; it takes an int, and TOP is not a character.
  const KeyRight: int := 'l' as int
  const KeyLeft: int := 'h' as int
  const KeyUp: int := 'k' as int
  const KeyDown: int := 'j' as int
  const KeyPlus: int := '+' as int
  const KeyMinus: int := '-' as int
  const KeyLineStart: int := '^' as int
  const KeyLineFirst: int := '0' as int
  const KeyLineEnd: int := '$' as int
  const KeyBottom: int := 'G' as int
  const KeyTop: int := 1000
  /** The code the source passes when it only wants the final clamp (editorMoveCursor(0)). */
  const KeyAlign: int := 0

  // CTRL_KEY (main.c:34) keeps the low five bits of a letter: Ctrl-F is 6, Ctrl-B is 2, Ctrl-Q is 17.
  const CtrlF: char := '\U{06}'
  const CtrlB: char := '\U{02}'
  const CtrlQ: char := '\U{11}'
  const Esc: char := '\U{1B}'

  /**
   * getCurrentRow (main.c:430-436). The comparison with the unsigned row count
   * also turns a negative row into "no row".
   */
  function CurrentRow(s: Editor): (r: Option<Row>)
    ensures r.Some? <==> 0 <= s.cursorY < |s.rows|
    ensures s.cursorY < 0 ==> r.None?
    ensures r.Some? ==> r.value == s.rows[s.cursorY]
  {
    if 0 <= s.cursorY < |s.rows| then Some(s.rows[s.cursorY]) else None
  }

  /** Length of the current row, 0 past the last row (main.c:489). */
  function CurrentLength(s: Editor): int
  {
    match CurrentRow(s)
    case Some(row) => |row.raw|
    case None => 0
  }

  function Min(a: int, b: int): int
  {
    if a <= b then a else b
  }

  function Max(a: int, b: int): int
  {
    if a >= b then a else b
  }

  predicate IsDigit(c: char)
  {
    '0' <= c <= '9'
  }

  /** What the digit buffer can hold: digits, never starting with '0'. */
  predicate IsCountPrefix(ds: seq<char>)
  {
    && (forall k :: 0 <= k < |ds| ==> IsDigit(ds[k]))
    && (|ds| > 0 ==> ds[0] != '0')
  }

  /** The state every key leaves the editor in while it runs in normal mode. */
  predicate Valid(s: Editor)
  {
    && RowsRendered(s.rows)
    && 0 <= s.cursorY <= |s.rows|
    && 0 <= s.cursorX <= CurrentLength(s)
    && 0 <= s.rowOffset
    && 0 <= s.count
    && IsCountPrefix(s.digits)
    && (s.gSequence == [] || s.gSequence == ['g'])
  }

  /**
   * initEditor (main.c:575-594): empty buffer, cursor at the origin, normal
   * mode; the last terminal row is kept for the status line. The terminal size
   * is a parameter.
   */
  function InitEditor(windowRows: int, windowCols: int): (r: Editor)
    ensures Valid(r)
  {
    Editor([], 0, 0, 0, false, 0, 0, windowRows - 1, windowCols, [], [], 0, Normal)
  }
}
