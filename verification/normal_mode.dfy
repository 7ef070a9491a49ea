/**
 * The normal-mode key interpreter (editorHandleNormalMode, main.c:505-572) and
 * the main loop (main.c:602-613): each turn refreshes the screen, which
 * recomputes the viewport, then reads and processes one key.
 */
module NormalMode {
  import opened TabRender
  import opened Rows
  import opened EditorState
  import opened Motion
  import opened Viewport

  // ---------------------------------------------------------------------------
  // The repeat count

  function DigitValue(c: char): int
  {
    c as int - '0' as int
  }

  /**
   * The count read from the digit buffer at main.c:513: the decimal value of
   * the digits collected. The C buffer carries no terminating NUL, so atoi
   * may read past it; the model takes the value the digits alone denote.
   */
  function DecimalValue(ds: seq<char>): (r: int)
    ensures (forall k :: 0 <= k < |ds| ==> IsDigit(ds[k])) ==> 0 <= r
    decreases |ds|
  {
    if |ds| == 0 then 0 else 10 * DecimalValue(ds[..|ds| - 1]) + DigitValue(ds[|ds| - 1])
  }

  /** The keys a user types for the count `n`: its decimal digits, most significant first. */
  function DecimalDigits(n: nat): seq<char>
    decreases n
  {
    if n < 10 then [('0' as int + n) as char]
    else DecimalDigits(n / 10) + [('0' as int + n % 10) as char]
  }

  /** Reading back the digits typed for `n` gives `n`, and they form a valid prefix. */
  lemma {:induction false} DecimalRoundTrip(n: nat)
    ensures DecimalValue(DecimalDigits(n)) == n
    ensures 0 < n ==> |DecimalDigits(n)| > 0 && IsCountPrefix(DecimalDigits(n))
    decreases n
  {
    var ds := DecimalDigits(n);
    if n >= 10 {
      DecimalRoundTrip(n / 10);
      assert ds[..|ds| - 1] == DecimalDigits(n / 10);
    }
  }

  /** A non-empty prefix never starting with '0' has a positive value. */
  lemma {:induction false} DecimalPositive(ds: seq<char>)
    requires |ds| > 0 && IsCountPrefix(ds)
    ensures 0 < DecimalValue(ds)
    decreases |ds|
  {
    if |ds| > 1 {
      DecimalPositive(ds[..|ds| - 1]);
    }
  }

  /** Every prefix the buffer can hold is the decimal writing of its value. */
  lemma {:induction false} DecimalDigitsOfValue(ds: seq<char>)
    requires |ds| > 0 && IsCountPrefix(ds)
    ensures 0 < DecimalValue(ds)
    ensures DecimalDigits(DecimalValue(ds)) == ds
    decreases |ds|
  {
    DecimalPositive(ds);
    var n := |ds| - 1;
    if n > 0 {
      var p := ds[..n];
      DecimalPositive(p);
      DecimalDigitsOfValue(p);
      var v := DecimalValue(ds);
      assert v / 10 == DecimalValue(p) && v % 10 == DigitValue(ds[n]);
      assert ds == p + [ds[n]];
    }
  }

  /** The count the next non-digit key is dispatched with. */
  function PendingCount(s: Editor): int
  {
    if |s.digits| > 0 then DecimalValue(s.digits) else s.count
  }

  // ---------------------------------------------------------------------------
  // Dispatch

  /** The motion keys of the switch (main.c:531-537); '+' and '-' are j and k. */
  predicate IsMotionKey(key: char)
  {
    || key == 'h' || key == 'l' || key == '^' || key == '0' || key == '$'
    || key == 'j' || key == '+' || key == 'k' || key == '-'
  }

  /** Where `gg` lands with count `n`: line n (1-based), or the first row without a count. */
  function LineTarget(n: int, rowCount: int): int
  {
    if n == 0 then 0 else Max(Min(n, rowCount) - 1, 0)
  }

  /** What editorHandleNormalMode demands: `^` on the row past the last one dereferences NULL (main.c:480). */
  predicate CanHandle(s: Editor, key: char)
  {
    && Valid(s)
    && key != CtrlQ
    && (key == '^' ==> s.cursorY < |s.rows|)
  }

  /** The screen size and what only editorScroll sets: no key of normal mode touches them. */
  predicate ScreenFrame(s: Editor, r: Editor)
  {
    && r.screenRows == s.screenRows && r.screenCols == s.screenCols
    && r.colOffset == s.colOffset && r.renderX == s.renderX
  }

  /** The switch of editorHandleNormalMode (main.c:518-561), without the Ctrl-Q exit. */
  function Dispatch(s: Editor, key: char): (r: Editor)
    requires CanHandle(s, key)
    ensures InBounds(r) && 0 <= r.rowOffset && 0 <= r.count
    ensures r.rows == s.rows && r.digits == s.digits
    ensures r.gSequence == if key == 'g' then s.gSequence + ['g'] else s.gSequence
    ensures r.mode == if key == ':' then Command else s.mode
    ensures ScreenFrame(s, r)
  {
    if key == ':' then
      s.(mode := Command)
    else if key == 'g' then
      s.(gSequence := s.gSequence + ['g'])
    else if IsMotionKey(key) then
      if s.count <= 0 then MoveCursor(s, key as int)
      else RepeatMotion(s, key as int, s.count).(count := 0)
    else if key == 'G' then
      if s.count != 0 then MoveCursorToLine(s) else MoveCursor(s, KeyBottom)
    else if key == CtrlF then
      MoveCursor(s.(cursorY := s.cursorY + s.screenRows), KeyAlign)
    else if key == CtrlB then
      MoveCursor(s.(cursorY := s.cursorY - s.screenRows), KeyAlign)
    else
      s
  }

  /**
   * The tail of editorHandleNormalMode (main.c:562-571): once the sequence
   * buffer holds two keys it fires `gg` if it contains "gg" and is emptied.
   */
  function FinishSequence(s: Editor): (r: Editor)
    requires InBounds(s) && 0 <= s.rowOffset && 0 <= s.count
    requires forall k :: 0 <= k < |s.gSequence| ==> s.gSequence[k] == 'g'
    ensures InBounds(r) && 0 <= r.rowOffset && 0 <= r.count
    ensures r.rows == s.rows && r.digits == s.digits && r.mode == s.mode
    ensures ScreenFrame(s, r)
    ensures |s.gSequence| <= 1 ==> r == s
    ensures |s.gSequence| > 1 ==> r.gSequence == [] && r.count == 0 && r.cursorY == LineTarget(s.count, |s.rows|)
  {
    if |s.gSequence| > 1 then
      var t := if s.count != 0 then MoveCursorToLine(s) else MoveCursor(s, KeyTop);
      t.(gSequence := [])
    else
      s
  }

  /**
   * editorHandleNormalMode: a digit extends the count prefix ('0' only once
   * the prefix has started); any other key first turns the prefix into the
   * count, then is dispatched.
   */
  function HandleNormal(s: Editor, key: char): (r: Editor)
    requires CanHandle(s, key)
    ensures Valid(r)
    ensures r.rows == s.rows
    ensures ScreenFrame(s, r)
  {
    if IsDigit(key) && (key != '0' || |s.digits| > 0) then
      s.(digits := s.digits + [key])
    else
      if !IsDigit(key) && |s.digits| > 0 then
        DecimalPositive(s.digits);
        FinishSequence(Dispatch(s.(count := DecimalValue(s.digits), digits := []), key))
      else
        FinishSequence(Dispatch(s, key))
  }

  // ---------------------------------------------------------------------------
  // The main loop

  datatype Outcome = Continue(editor: Editor) | Exit

  predicate CanProcess(s: Editor, key: char)
  {
    Valid(s) && (s.mode == Normal && key == '^' ==> s.cursorY < |s.rows|)
  }

  /**
   * One key of the main loop (main.c:604-612, with the Ctrl-Q branch of
   * main.c:519-523): ESC cancels a pending `g` and returns to normal mode;
   * in every other mode the key is ignored.
   */
  function ProcessKey(s: Editor, key: char): (r: Outcome)
    requires CanProcess(s, key)
    ensures r.Exit? <==> s.mode == Normal && key == CtrlQ
    ensures r.Continue? ==> Valid(r.editor) && r.editor.rows == s.rows
    ensures key == Esc ==> r.Continue? && r.editor.mode == Normal && r.editor.gSequence == []
    ensures key == Esc ==> r.editor == s.(mode := Normal, gSequence := [])
    ensures key != Esc && s.mode != Normal ==> r == Continue(s)
  {
    if key == Esc then Continue(s.(gSequence := [], mode := Normal))
    else if s.mode != Normal then Continue(s)
    else if key == CtrlQ then Exit
    else Continue(HandleNormal(s, key))
  }

  /**
   * What a turn of the loop needs: editorRefreshScreen calls editorScroll
   * (main.c:380) before the key is read, and editorScroll reads the current
   * row unconditionally.
   */
  predicate CanTurn(s: Editor, key: char)
  {
    Valid(s) && CanScroll(s) && CanProcess(Scroll(s), key)
  }

  /** One turn of the main loop (main.c:602-612): refresh the viewport, then process the key. */
  function Turn(s: Editor, key: char): (r: Outcome)
    requires CanTurn(s, key)
    ensures r.Exit? <==> s.mode == Normal && key == CtrlQ
    ensures r.Continue? ==> Valid(r.editor) && r.editor.rows == s.rows
    ensures key == Esc ==> r.Continue? && r.editor == Scroll(s).(mode := Normal, gSequence := [])
    ensures key != Esc && s.mode != Normal ==> r == Continue(Scroll(s))
  {
    ProcessKey(Scroll(s), key)
  }

  /** A key sequence every turn of which the source can execute. */
  predicate Runnable(s: Editor, keys: seq<char>)
    requires Valid(s)
    decreases |keys|
  {
    |keys| == 0 ||
    (CanTurn(s, keys[0]) &&
     match Turn(s, keys[0])
     case Exit => true
     case Continue(t) => Runnable(t, keys[1..]))
  }

  /** The main loop fed a sequence of keys, stopping at Ctrl-Q. */
  function Run(s: Editor, keys: seq<char>): (r: Outcome)
    requires Valid(s) && Runnable(s, keys)
    ensures r.Continue? ==> Valid(r.editor) && r.editor.rows == s.rows
    decreases |keys|
  {
    if |keys| == 0 then Continue(s)
    else
      match Turn(s, keys[0])
      case Exit => Exit
      case Continue(t) => Run(t, keys[1..])
  }

  // ---------------------------------------------------------------------------
  // One key at a time

  /**
   * Digits 1-9 always extend the prefix; '0' extends it only once it has
   * started, and otherwise goes to column 0 (main.c:506-510, 474-477).
   */
  lemma DigitKeys(s: Editor, key: char)
    requires CanHandle(s, key) && IsDigit(key)
    ensures key != '0' || |s.digits| > 0 ==> HandleNormal(s, key) == s.(digits := s.digits + [key])
    ensures key == '0' && |s.digits| == 0 ==>
              var r := HandleNormal(s, key);
              && r.cursorY == s.cursorY && r.cursorX == 0 && !r.isEndMode
              && r.count == 0 && r.digits == [] && r.gSequence == s.gSequence
  {
    if key == '0' && |s.digits| == 0 && s.count > 0 {
      RepeatAbsolute(s, KeyLineFirst, s.count);
    }
  }

  /** The motion arm of the switch: the repeat loop, or one motion without a count. */
  lemma DispatchMotion(t: Editor, key: char)
    requires CanHandle(t, key) && IsMotionKey(key)
    ensures Dispatch(t, key) == RepeatMotion(t, key as int, Max(t.count, 1)).(count := 0)
  {
    if t.count <= 0 {
      assert RepeatMotion(t, key as int, 1) == MoveCursor(t, key as int);
    }
  }

  /**
   * A motion key runs the motion `n` times when the pending count `n` is
   * positive and once otherwise, and leaves the count at 0 (main.c:538-545).
   */
  lemma CountedMotion(s: Editor, key: char)
    requires CanHandle(s, key) && IsMotionKey(key) && !(key == '0' && |s.digits| > 0)
    ensures var n := PendingCount(s);
      HandleNormal(s, key) == RepeatMotion(s.(digits := [], count := n), key as int, Max(n, 1)).(count := 0)
  {
    var t := s.(digits := [], count := PendingCount(s));
    if key == '0' {
      assert t == s;
      assert HandleNormal(s, key) == FinishSequence(Dispatch(t, key));
    } else {
      NonDigitFlushes(s, key);
    }
    DispatchMotion(t, key);
  }

  /** The `G` arm of the switch. */
  lemma DispatchBottom(t: Editor)
    requires CanHandle(t, 'G')
    ensures var r := Dispatch(t, 'G');
      && r.cursorY == (if t.count == 0 then Max(|t.rows| - 1, 0) else LineTarget(t.count, |t.rows|))
      && r.count == 0 && r.digits == t.digits && r.gSequence == t.gSequence && r.mode == t.mode
      && (t.count != 0 ==> r.rowOffset == 0)
      && r.cursorY + r.rowOffset <= |t.rows|
  {
    assert !IsMotionKey('G');
    MoveVertical(t, KeyBottom);
  }

  /** `G` goes to line `n` of a pending count, or to the last row without one (main.c:547-552). */
  lemma BottomKey(s: Editor)
    requires CanHandle(s, 'G')
    ensures var n := PendingCount(s); var r := HandleNormal(s, 'G');
      && r.cursorY == (if n == 0 then Max(|s.rows| - 1, 0) else LineTarget(n, |s.rows|))
      && r.count == 0 && r.digits == [] && r.gSequence == s.gSequence && r.mode == s.mode
      && (n != 0 ==> r.rowOffset == 0)
      && r.cursorY + r.rowOffset <= |s.rows|
  {
    NonDigitFlushes(s, 'G');
    DispatchBottom(s.(digits := [], count := PendingCount(s)));
  }

  /**
   * The first `g` only fills the sequence buffer; the second fires `gg`, which
   * goes to line `n` of a pending count or to the first row, and empties the
   * buffer (main.c:528-530, 562-571).
   */
  lemma GKey(s: Editor)
    requires CanHandle(s, 'g')
    ensures var r := HandleNormal(s, 'g');
      && r.digits == [] && r.mode == s.mode
      && (s.gSequence == [] ==>
            && r.gSequence == ['g'] && r.count == PendingCount(s)
            && r.cursorX == s.cursorX && r.cursorY == s.cursorY)
      && (s.gSequence == ['g'] ==>
            && r.gSequence == [] && r.count == 0
            && r.cursorY == LineTarget(PendingCount(s), |s.rows|))
  {
    NonDigitFlushes(s, 'g');
    var t := s.(digits := [], count := PendingCount(s));
    assert Dispatch(t, 'g') == t.(gSequence := t.gSequence + ['g']);
  }

  /** Only `g` touches the sequence buffer, so a pending `g` survives every other key. */
  lemma PendingGKept(s: Editor, key: char)
    requires CanHandle(s, key) && key != 'g'
    ensures HandleNormal(s, key).gSequence == s.gSequence
  {
  }

  /** A key that is not a digit is dispatched with the prefix flushed into the count. */
  lemma NonDigitFlushes(s: Editor, key: char)
    requires CanHandle(s, key) && !IsDigit(key)
    ensures 0 <= PendingCount(s)
    ensures CanHandle(s.(count := PendingCount(s), digits := []), key)
    ensures HandleNormal(s, key) == FinishSequence(Dispatch(s.(count := PendingCount(s), digits := []), key))
  {
    if |s.digits| > 0 {
      DecimalPositive(s.digits);
    } else {
      assert s.(count := PendingCount(s), digits := []) == s;
    }
  }

  /** The row a paging key aims at before the clamp. */
  function PageTarget(s: Editor, key: char): int
  {
    if key == CtrlF then s.cursorY + s.screenRows else s.cursorY - s.screenRows
  }

  lemma DispatchPage(t: Editor, key: char)
    requires CanHandle(t, key) && (key == CtrlF || key == CtrlB)
    ensures Dispatch(t, key) == MoveCursor(t.(cursorY := PageTarget(t, key)), KeyAlign)
  {
    assert !IsMotionKey(key);
  }

  /** Ctrl-F and Ctrl-B are the clamp-only motion from a row one screen height away (main.c:553-560). */
  lemma PageKeysMove(s: Editor, key: char)
    requires CanHandle(s, key) && (key == CtrlF || key == CtrlB)
    ensures var t := s.(count := PendingCount(s), digits := []);
      HandleNormal(s, key) == MoveCursor(t.(cursorY := PageTarget(s, key)), KeyAlign)
  {
    NonDigitFlushes(s, key);
    var t := s.(count := PendingCount(s), digits := []);
    DispatchPage(t, key);
  }

  /**
   * Paging clamps the row into the buffer, keeps the end-of-line anchor, and
   * a row pushed outside the buffer leaves the column at 0.
   */
  lemma PageKeys(s: Editor, key: char)
    requires CanHandle(s, key) && (key == CtrlF || key == CtrlB)
    ensures var target := PageTarget(s, key);
      var r := HandleNormal(s, key);
      && r.cursorY == Max(0, Min(target, |s.rows|))
      && (!(0 <= target < |s.rows|) ==> r.cursorX == 0)
      && r.isEndMode == s.isEndMode && r.digits == [] && r.count == PendingCount(s)
  {
    var t := s.(count := PendingCount(s), digits := []);
    PageKeysMove(s, key);
    MoveAlign(t.(cursorY := PageTarget(s, key)));
  }

  /** `:` switches to command mode and changes nothing else but the flushed prefix (main.c:524-527). */
  lemma ColonKey(s: Editor)
    requires CanHandle(s, ':')
    ensures HandleNormal(s, ':') == s.(mode := Command, digits := [], count := PendingCount(s))
  {
  }

  /**
   * A key the switch does not handle only turns the prefix into the count,
   * which then waits for the next motion.
   */
  lemma UnknownKey(s: Editor, key: char)
    requires CanHandle(s, key) && !IsDigit(key) && !IsMotionKey(key)
    requires key !in ":gG" && key != CtrlF && key != CtrlB
    ensures HandleNormal(s, key) == s.(digits := [], count := PendingCount(s))
  {
  }

  /** A second ESC changes nothing further (main.c:605-608). */
  lemma EscIdempotent(s: Editor)
    requires CanProcess(s, Esc)
    ensures CanProcess(ProcessKey(s, Esc).editor, Esc)
    ensures ProcessKey(ProcessKey(s, Esc).editor, Esc) == ProcessKey(s, Esc)
  {
  }

  /** `^` stores an index of the render buffer as the raw column: on "\tx" it lands past the `x`. */
  lemma LineStartTakesRenderedIndex(s: Editor)
    requires 0 <= s.cursorX && 0 <= s.cursorY < |s.rows|
    requires s.rows[s.cursorY] == Row("\tx", Render("\tx"))
    ensures FirstNonSpace("\tx") == 1
    ensures MoveCursor(s, KeyLineStart).cursorX == 2
  {
    assert Render("\tx") == "    x" by {
      assert "\tx"[..1] == "\t";
    }
    assert FirstNonSpace("   x") == 3;
    MoveHorizontal(s, KeyLineStart);
  }

  /**
   * Ctrl-B past the first row with the end-of-line anchor set: the column
   * becomes 0 although the anchor stays set and the row is not empty.
   */
  lemma PageUpLeavesAnchorBehind(s: Editor)
    requires CanHandle(s, CtrlB) && s.isEndMode && |s.digits| == 0
    requires s.cursorY < s.screenRows && |s.rows| > 0 && |s.rows[0].raw| > 0
    ensures var r := HandleNormal(s, CtrlB);
      r.isEndMode && r.cursorY == 0 && r.cursorX == 0 < CurrentLength(r)
  {
    PageKeys(s, CtrlB);
  }

  // ---------------------------------------------------------------------------
  // Key sequences

  /** The first key of `a + b` is the first key of `a`, and the rest is `a[1..] + b`. */
  lemma ConcatTail(a: seq<char>, b: seq<char>)
    requires |a| > 0
    ensures (a + b)[0] == a[0] && (a + b)[1..] == a[1..] + b
  {
  }

  lemma KeyPair(x: char, y: char)
    ensures [x] + [y] == [x, y]
  {
  }

  /** A turn that does not exit hands the rest of the keys to the next state. */
  lemma RunStep(s: Editor, keys: seq<char>)
    requires Valid(s) && |keys| > 0 && CanTurn(s, keys[0]) && Turn(s, keys[0]).Continue?
    ensures Runnable(s, keys) <==> Runnable(Turn(s, keys[0]).editor, keys[1..])
    ensures Runnable(s, keys) ==> Run(s, keys) == Run(Turn(s, keys[0]).editor, keys[1..])
  {
  }

  /** Running `a` and then `b` is running `a + b`. */
  lemma {:induction false} RunConcat(s: Editor, a: seq<char>, b: seq<char>)
    requires Valid(s) && Runnable(s, a) && Run(s, a).Continue?
    requires Runnable(Run(s, a).editor, b)
    ensures Runnable(s, a + b)
    ensures Run(s, a + b) == Run(Run(s, a).editor, b)
    decreases |a|
  {
    if |a| == 0 {
      assert a + b == b;
    } else {
      ConcatTail(a, b);
      RunStep(s, a);
      var t := Turn(s, a[0]).editor;
      RunConcat(t, a[1..], b);
      RunStep(s, a + b);
    }
  }

  /** The prefix buffers do not feed editorScroll, and a second scroll changes nothing. */
  lemma ScrollKeepsDigits(s: Editor, ds: seq<char>)
    requires CanScroll(s)
    ensures CanScroll(Scroll(s).(digits := ds))
    ensures Scroll(Scroll(s).(digits := ds)) == Scroll(s).(digits := ds)
  {
    ScrollIdempotent(s);
  }

  /**
   * Typing digits that keep the prefix well formed only extends the prefix;
   * the first turn's refresh settles the viewport.
   */
  lemma {:induction false} TypeCount(s: Editor, ds: seq<char>)
    requires Valid(s) && s.mode == Normal && CanScroll(s)
    requires IsCountPrefix(s.digits + ds)
    ensures Runnable(s, ds)
    ensures Run(s, ds) == Continue(if |ds| == 0 then s else Scroll(s).(digits := s.digits + ds))
    decreases |ds|
  {
    if |ds| > 0 {
      var key := ds[0];
      assert (s.digits + ds)[|s.digits|] == key;
      assert |s.digits| == 0 ==> (s.digits + ds)[0] == key;
      ScrollKeepsValid(s);
      var s0 := Scroll(s);
      var t := s0.(digits := s.digits + [key]);
      assert HandleNormal(s0, key) == t;
      assert Turn(s, key) == Continue(t);
      assert t.digits + ds[1..] == s.digits + ds;
      ScrollKeepsDigits(s, t.digits);
      ScrollKeepsDigits(s, s.digits + ds);
      TypeCount(t, ds[1..]);
    }
  }

  /** The keys that type the count `n`; no keys for 0. */
  function CountKeys(n: nat): seq<char>
  {
    if n == 0 then [] else DecimalDigits(n)
  }

  /** A key the loop hands to editorHandleNormalMode makes a one-key run of its own. */
  lemma RunOne(s: Editor, key: char)
    requires CanHandle(s, key) && CanScroll(s) && s.mode == Normal && key != Esc
    ensures CanHandle(Scroll(s), key)
    ensures Runnable(s, [key])
    ensures Run(s, [key]) == Continue(HandleNormal(Scroll(s), key))
  {
    ScrollKeepsValid(s);
    assert Turn(s, key) == Continue(HandleNormal(Scroll(s), key));
    assert [key][1..] == [];
  }

  /**
   * Typing the count and then a key: the key is handled, on the refreshed
   * viewport, with the count flushed to `n`.
   */
  lemma TypeCountThen(s: Editor, n: nat, key: char)
    requires Valid(s) && s.mode == Normal && s.digits == [] && s.count == 0 && CanScroll(s)
    requires !IsDigit(key) && key != Esc && CanHandle(s, key)
    ensures IsCountPrefix(CountKeys(n))
    ensures CanHandle(Scroll(s).(digits := CountKeys(n)), key)
    ensures Runnable(s, CountKeys(n) + [key])
    ensures Run(s, CountKeys(n) + [key]) == Continue(HandleNormal(Scroll(s).(digits := CountKeys(n)), key))
    ensures PendingCount(Scroll(s).(digits := CountKeys(n))) == n
  {
    var ds := CountKeys(n);
    DecimalRoundTrip(n);
    assert s.digits + ds == ds;
    TypeCount(s, ds);
    ScrollKeepsValid(s);
    ScrollKeepsDigits(s, ds);
    var t := Run(s, ds).editor;
    if n == 0 {
      assert Scroll(s).(digits := ds) == Scroll(s);
    }
    RunOne(t, key);
    RunConcat(s, ds, [key]);
  }

  /** Typing a count `n` and `j` moves down `n` rows, stopping at the last row. */
  lemma TypedCountDown(s: Editor, n: nat)
    requires Valid(s) && s.mode == Normal && s.digits == [] && s.count == 0
    requires 0 < n && s.cursorY < |s.rows|
    ensures Runnable(s, CountKeys(n) + ['j'])
    ensures var r := Run(s, CountKeys(n) + ['j']);
      r.Continue? && r.editor.cursorY == Min(s.cursorY + n, |s.rows| - 1) && r.editor.count == 0
  {
    var t := Scroll(s).(digits := CountKeys(n));
    TypeCountThen(s, n, 'j');
    CountedDown(t, n, s.cursorY, |s.rows|);
    var e := HandleNormal(t, 'j');
    assert Run(s, CountKeys(n) + ['j']) == Continue(e);
  }

  /** `j` with a pending count moves down that many rows, stopping at the last row. */
  lemma CountedDown(t: Editor, n: int, y: int, rowCount: nat)
    requires CanHandle(t, 'j') && 0 < n == PendingCount(t)
    requires y == t.cursorY < rowCount == |t.rows|
    ensures var r := HandleNormal(t, 'j');
      r.cursorY == Min(y + n, rowCount - 1) && r.count == 0
  {
    CountedMotion(t, 'j');
    RepeatDown(t.(digits := [], count := n), n);
  }

  /** Typing a count `n` and `G` goes to line `n`; without a count it goes to the last row. */
  lemma TypedGotoBottom(s: Editor, n: nat)
    requires Valid(s) && s.mode == Normal && s.digits == [] && s.count == 0 && s.cursorY < |s.rows|
    ensures Runnable(s, CountKeys(n) + ['G'])
    ensures var r := Run(s, CountKeys(n) + ['G']);
      && r.Continue? && r.editor.count == 0
      && r.editor.cursorY == (if n == 0 then Max(|s.rows| - 1, 0) else LineTarget(n, |s.rows|))
  {
    TypeCountThen(s, n, 'G');
    BottomKey(Scroll(s).(digits := CountKeys(n)));
  }

  /** Two `g` keys in a row with an empty sequence buffer make one `gg`. */
  lemma GKeyTwice(t: Editor)
    requires CanHandle(t, 'g') && CanScroll(t) && t.gSequence == [] && t.mode == Normal
    ensures Runnable(t, ['g', 'g'])
    ensures var r := Run(t, ['g', 'g']);
      && r.Continue? && r.editor.count == 0 && r.editor.gSequence == []
      && r.editor.cursorY == LineTarget(PendingCount(t), |t.rows|)
  {
    RunOne(t, 'g');
    var u := HandleNormal(Scroll(t), 'g');
    GKey(Scroll(t));
    assert CanHandle(u, 'g') && CanScroll(u);
    RunOne(u, 'g');
    GKey(Scroll(u));
    RunConcat(t, ['g'], ['g']);
    KeyPair('g', 'g');
  }

  /** Typing a count `n` and `gg` goes to line `n`; without a count it goes to the first row. */
  lemma TypedGotoTop(s: Editor, n: nat)
    requires Valid(s) && s.mode == Normal && s.digits == [] && s.count == 0 && s.gSequence == []
    requires s.cursorY < |s.rows|
    ensures Runnable(s, CountKeys(n) + ['g', 'g'])
    ensures var r := Run(s, CountKeys(n) + ['g', 'g']);
      && r.Continue? && r.editor.count == 0 && r.editor.gSequence == []
      && r.editor.cursorY == LineTarget(n, |s.rows|)
  {
    var ds := CountKeys(n);
    DecimalRoundTrip(n);
    assert s.digits + ds == ds;
    TypeCount(s, ds);
    ScrollKeepsValid(s);
    ScrollKeepsDigits(s, ds);
    var t := Run(s, ds).editor;
    assert PendingCount(t) == n;
    GKeyTwice(t);
    RunConcat(s, ds, ['g', 'g']);
  }

  /**
   * The refresh before each key moves the row offset, and the clamp of the
   * next motion then lowers it (main.c:380, 279-280, 501-502): with more than
   * screenRows + 2 rows, `G` scrolls the last row to the bottom line and `k`
   * pulls the offset down to 2.
   */
  lemma BottomThenUp(s: Editor)
    requires Valid(s) && s.mode == Normal && s.digits == [] && s.count == 0 && s.gSequence == []
    requires s.cursorY < |s.rows| && 0 < s.screenRows && s.screenRows + 2 < |s.rows|
    ensures Runnable(s, ['G', 'k'])
    ensures var r := Run(s, ['G', 'k']);
      r.Continue? && r.editor.cursorY == |s.rows| - 2 && r.editor.rowOffset == 2
  {
    RunOne(s, 'G');
    var u := HandleNormal(Scroll(s), 'G');
    BottomScrolls(s);
    RunOne(u, 'k');
    UpLowersOffset(Scroll(u));
    RunConcat(s, ['G'], ['k']);
    KeyPair('G', 'k');
  }

  /** After `G` the next refresh puts the last row on the bottom screen line. */
  lemma BottomScrolls(s: Editor)
    requires Valid(s) && s.mode == Normal && s.digits == [] && s.count == 0
    requires s.cursorY < |s.rows| && 0 < s.screenRows && s.screenRows + 2 < |s.rows|
    ensures CanHandle(Scroll(s), 'G')
    ensures var u := HandleNormal(Scroll(s), 'G');
      && CanHandle(u, 'k') && CanScroll(u) && u.mode == Normal && u.digits == [] && u.count == 0
      && Scroll(u).cursorY == |s.rows| - 1 && Scroll(u).rowOffset == |s.rows| - s.screenRows
  {
    ScrollKeepsValid(s);
    var s0 := Scroll(s);
    BottomKey(s0);
    var u := HandleNormal(s0, 'G');
    assert u.cursorY == |s.rows| - 1 && u.rowOffset <= 1 && u.screenRows == s.screenRows;
  }

  /** One `k` from the last row with an offset above 2 lowers the offset to 2. */
  lemma UpLowersOffset(t: Editor)
    requires CanHandle(t, 'k') && |t.digits| == 0 && t.count == 0
    requires 2 <= |t.rows| && t.cursorY == |t.rows| - 1 && 2 < t.rowOffset
    ensures HandleNormal(t, 'k').cursorY == |t.rows| - 2
    ensures HandleNormal(t, 'k').rowOffset == 2
  {
    CountedMotion(t, 'k');
    assert t.(digits := [], count := PendingCount(t)) == t;
    assert RepeatMotion(t, KeyUp, 1) == MoveCursor(t, KeyUp);
    MoveVertical(t, KeyUp);
  }

  /** No key sequence without `g` or ESC touches a pending `g`; without `:` the mode stays too. */
  lemma {:induction false} PendingGAcrossKeys(s: Editor, keys: seq<char>)
    requires Valid(s) && Runnable(s, keys)
    requires forall k :: 0 <= k < |keys| ==> keys[k] != 'g' && keys[k] != Esc
    ensures Run(s, keys).Continue? ==> Run(s, keys).editor.gSequence == s.gSequence
    ensures Run(s, keys).Continue? && ':' !in keys ==> Run(s, keys).editor.mode == s.mode
    decreases |keys|
  {
    if |keys| > 0 {
      match Turn(s, keys[0])
      case Exit =>
      case Continue(t) =>
        if s.mode == Normal {
          ScrollKeepsValid(s);
          PendingGKept(Scroll(s), keys[0]);
        }
        assert ':' !in keys ==> ':' !in keys[1..];
        PendingGAcrossKeys(t, keys[1..]);
    }
  }

  /**
   * The sequence buffer does not require the two `g`s to be adjacent: `g`,
   * then any keys without `g`, ESC, Ctrl-Q or `:`, then `g` still fires `gg`.
   */
  lemma LateSecondG(s: Editor, keys: seq<char>)
    requires Valid(s) && s.mode == Normal && s.gSequence == ['g']
    requires forall k :: 0 <= k < |keys| ==> keys[k] !in ['g', Esc, CtrlQ, ':']
    requires Runnable(s, keys + ['g'])
    ensures Runnable(s, keys)
    ensures var t := Run(s, keys); var r := Run(s, keys + ['g']);
      && t.Continue? && r.Continue?
      && t.editor.gSequence == ['g'] && r.editor.gSequence == []
      && r.editor.cursorY == LineTarget(PendingCount(t.editor), |s.rows|)
  {
    RunPrefix(s, keys, ['g']);
    NoExitWithoutCtrlQ(s, keys);
    PendingGAcrossKeys(s, keys);
    var t := Run(s, keys).editor;
    ScrollKeepsValid(t);
    GKey(Scroll(t));
    RunConcat(s, keys, ['g']);
  }

  /** A runnable sequence has runnable prefixes. */
  lemma {:induction false} RunPrefix(s: Editor, a: seq<char>, b: seq<char>)
    requires Valid(s) && Runnable(s, a + b)
    ensures Runnable(s, a)
    ensures Run(s, a).Continue? ==> Runnable(Run(s, a).editor, b)
    decreases |a|
  {
    if |a| == 0 {
      assert a + b == b;
    } else {
      ConcatTail(a, b);
      match Turn(s, a[0])
      case Exit =>
      case Continue(t) =>
        RunPrefix(t, a[1..], b);
    }
  }

  /** Only Ctrl-Q ends the loop. */
  lemma {:induction false} NoExitWithoutCtrlQ(s: Editor, keys: seq<char>)
    requires Valid(s) && Runnable(s, keys)
    requires forall k :: 0 <= k < |keys| ==> keys[k] != CtrlQ
    ensures Run(s, keys).Continue?
    decreases |keys|
  {
    if |keys| > 0 {
      NoExitWithoutCtrlQ(Turn(s, keys[0]).editor, keys[1..]);
    }
  }
}
