/**
 * Render projection of one line (main.c:18-31, 192-226): tabs are expanded to
 * the next multiple of TabWidth, and a logical column is mapped to the display
 * column it is drawn at.
 */
module TabRender {

  /** TAB_WIDTH (main.c:36). */
  const TabWidth: nat := 4

  function Spaces(n: nat): (r: seq<char>)
    ensures |r| == n
    ensures forall k :: 0 <= k < n ==> r[k] == ' '
  {
    seq(n, _ => ' ')
  }

  /** The display column reached after drawing `c` starting at display column `col`. */
  function Advance(col: nat, c: char): nat
  {
    if c == '\t' then col + TabWidth - col % TabWidth else col + 1
  }

  /** What one raw character occupies on screen when it is drawn at display column `col`. */
  function Cell(col: nat, c: char): seq<char>
  {
    if c == '\t' then Spaces(TabWidth - col % TabWidth) else [c]
  }

  /**
   * The render buffer of a line: every character copied, every tab padded to
   * the next tab stop. No tab survives, and no character is lost.
   */
  function Render(raw: seq<char>): (r: seq<char>)
    ensures forall k :: 0 <= k < |r| ==> r[k] != '\t'
    ensures |raw| <= |r|
    decreases |raw|
  {
    if |raw| == 0 then []
    else
      var prefix := Render(raw[..|raw| - 1]);
      prefix + Cell(|prefix|, raw[|raw| - 1])
  }

  /**
   * Display column of logical column `cx`, one character at a time as
   * editorRowCursorxToRenderx walks: every character takes at least one and at
   * most TabWidth display columns.
   */
  function RenderX(raw: seq<char>, cx: nat): (r: nat)
    requires cx <= |raw|
    ensures cx <= r <= TabWidth * cx
  {
    if cx == 0 then 0 else Advance(RenderX(raw, cx - 1), raw[cx - 1])
  }

  /** Number of tab characters in a line. */
  function TabCount(raw: seq<char>): nat
    decreases |raw|
  {
    if |raw| == 0 then 0
    else TabCount(raw[..|raw| - 1]) + (if raw[|raw| - 1] == '\t' then 1 else 0)
  }

  /** The characters isspace accepts in the C locale: space, \t, \n, \v, \f, \r. */
  predicate IsSpace(c: char)
  {
    c == ' ' || c == '\t' || c == '\n' || c == '\r' || c == '\U{0B}' || c == '\U{0C}'
  }

  /**
   * Index of the first non-blank character (firstNonSpace, main.c:23-31). The C
   * scan stops at the terminating NUL, which is not blank, so on a sequence it
   * stops at the end.
   */
  function FirstNonSpace(s: seq<char>): (r: nat)
    ensures r <= |s|
    ensures forall k :: 0 <= k < r ==> IsSpace(s[k])
    ensures r == |s| || !IsSpace(s[r])
  {
    if |s| == 0 || !IsSpace(s[0]) then 0 else 1 + FirstNonSpace(s[1..])
  }

  // ---------------------------------------------------------------------------
  // Facts about the projection

  lemma {:induction false} RenderStep(raw: seq<char>, i: nat)
    requires i < |raw|
    ensures Render(raw[..i + 1]) == Render(raw[..i]) + Cell(|Render(raw[..i])|, raw[i])
    ensures TabCount(raw[..i + 1]) == TabCount(raw[..i]) + (if raw[i] == '\t' then 1 else 0)
  {
    assert raw[..i + 1][..i] == raw[..i];
  }

  /** The display column of `cx` is the length of the rendered prefix raw[..cx]. */
  lemma {:induction false} RenderXIsPrefixLength(raw: seq<char>, cx: nat)
    requires cx <= |raw|
    ensures RenderX(raw, cx) == |Render(raw[..cx])|
    decreases cx
  {
    if cx > 0 {
      RenderXIsPrefixLength(raw, cx - 1);
      RenderStep(raw, cx - 1);
    }
  }

  /** Rendering a prefix of a line gives a prefix of the line's rendering. */
  lemma {:induction false} RenderPrefix(raw: seq<char>, i: nat)
    requires i <= |raw|
    ensures Render(raw[..i]) <= Render(raw)
    decreases |raw|
  {
    if i < |raw| {
      var n := |raw| - 1;
      assert raw[..n][..i] == raw[..i];
      RenderPrefix(raw[..n], i);
      assert raw == raw[..n] + [raw[n]];
    } else {
      assert raw[..i] == raw;
    }
  }

  /** size <= rendersize <= size + tabs*(TAB_WIDTH-1): the allocation bound of main.c:211. */
  lemma {:induction false} RenderLength(raw: seq<char>)
    ensures |raw| <= |Render(raw)| <= |raw| + TabCount(raw) * (TabWidth - 1)
    decreases |raw|
  {
    if |raw| > 0 {
      RenderLength(raw[..|raw| - 1]);
    }
  }

  /** Display columns grow strictly with the logical column, and the whole line maps to rendersize. */
  lemma {:induction false} RenderXStrictlyIncreasing(raw: seq<char>, i: nat, j: nat)
    requires i < j <= |raw|
    ensures RenderX(raw, i) < RenderX(raw, j)
    ensures RenderX(raw, |raw|) == |Render(raw)|
    decreases j
  {
    if j > i + 1 {
      RenderXStrictlyIncreasing(raw, i, j - 1);
    }
    RenderXIsPrefixLength(raw, |raw|);
    assert raw[..|raw|] == raw;
  }

  /** A tab advances to the next tab stop: a multiple of TabWidth, at most TabWidth columns on. */
  lemma AdvanceTab(col: nat)
    ensures Advance(col, '\t') % TabWidth == 0
    ensures col < Advance(col, '\t') <= col + TabWidth
  {
    assert Advance(col, '\t') == (col / TabWidth + 1) * TabWidth;
  }

  /**
   * The two projections agree: a non-tab raw character is drawn exactly at its
   * display column, and a tab fills its display columns up to the next tab stop
   * with spaces.
   */
  lemma RenderAgreesWithRenderX(raw: seq<char>, i: nat)
    requires i < |raw|
    ensures RenderX(raw, i + 1) <= |Render(raw)|
    ensures raw[i] != '\t' ==>
              && RenderX(raw, i + 1) == RenderX(raw, i) + 1
              && Render(raw)[RenderX(raw, i)] == raw[i]
    ensures raw[i] == '\t' ==>
              && RenderX(raw, i + 1) % TabWidth == 0
              && RenderX(raw, i) < RenderX(raw, i + 1) <= RenderX(raw, i) + TabWidth
              && forall k :: RenderX(raw, i) <= k < RenderX(raw, i + 1) ==> Render(raw)[k] == ' '
  {
    RenderXIsPrefixLength(raw, i);
    RenderXIsPrefixLength(raw, i + 1);
    RenderStep(raw, i);
    RenderPrefix(raw, i + 1);
    var before, upto := Render(raw[..i]), Render(raw[..i + 1]);
    assert upto == before + Cell(|before|, raw[i]);
    if raw[i] == '\t' {
      AdvanceTab(RenderX(raw, i));
      forall k | |before| <= k < |upto|
        ensures Render(raw)[k] == ' '
      {
        assert Render(raw)[k] == upto[k] == Cell(|before|, raw[i])[k - |before|];
      }
    } else {
      assert Render(raw)[|before|] == upto[|before|];
    }
  }

  /** The worked example: "a\tb" renders as "a   b", and column 2 is drawn at display column 4. */
  lemma RenderExample()
    ensures Render("a\tb") == "a   b"
    ensures RenderX("a\tb", 2) == 4
  {
    var s := "a\tb";
    assert s[..2][..1] == "a";
    assert s[..1] == "a";
    assert s[..2] == "a\t";
    assert Render("a") == "a";
    assert Render("a\t") == "a   ";
  }

  // ---------------------------------------------------------------------------
  // The two loops of the source, as methods

  /**
   * editorUpdateRow (main.c:203-226): counts the tabs to size the buffer, then
   * copies characters and pads tabs. Every write lands inside the
   * size + 1 + tabs*(TAB_WIDTH-1) bytes allocated (the last one for the NUL).
   */
  method UpdateRow(raw: seq<char>) returns (render: seq<char>)
    ensures render == Render(raw)
  {
    var tabs := CountTabs(raw);
    var capacity := |raw| + 1 + tabs * (TabWidth - 1);

    render := [];
    var i := 0;
    while i < |raw|
      invariant 0 <= i <= |raw|
      invariant render == Render(raw[..i])
      invariant |render| + 1 <= capacity
    {
      RenderStep(raw, i);
      RenderLength(raw[..i + 1]);
      TabCountPrefix(raw, i + 1);
      if raw[i] == '\t' {
        render := PadTab(render);
      } else {
        render := render + [raw[i]];
      }
      i := i + 1;
    }
    assert raw[..i] == raw;
  }

  /** The counting loop of editorUpdateRow (main.c:205-208). */
  method CountTabs(raw: seq<char>) returns (tabs: nat)
    ensures tabs == TabCount(raw)
  {
    tabs := 0;
    var i := 0;
    while i < |raw|
      invariant 0 <= i <= |raw|
      invariant tabs == TabCount(raw[..i])
    {
      RenderStep(raw, i);
      if raw[i] == '\t' {
        tabs := tabs + 1;
      }
      i := i + 1;
    }
    assert raw[..i] == raw;
  }

  /** The tab branch of editorUpdateRow (main.c:216-219): one space, then spaces up to the next tab stop. */
  method PadTab(render: seq<char>) returns (padded: seq<char>)
    ensures padded == render + Cell(|render|, '\t')
  {
    padded := render + [' '];
    var base := |render|;
    while |padded| % TabWidth != 0
      invariant base < |padded| <= base + TabWidth - base % TabWidth
      invariant padded == render + Spaces(|padded| - base)
      decreases base + TabWidth - base % TabWidth - |padded|
    {
      padded := padded + [' '];
    }
  }

  /** The allocation made for the whole line also bounds every prefix of it. */
  lemma {:induction false} TabCountPrefix(raw: seq<char>, i: nat)
    requires i <= |raw|
    ensures TabCount(raw[..i]) <= TabCount(raw)
    ensures i + TabCount(raw[..i]) * (TabWidth - 1) <= |raw| + TabCount(raw) * (TabWidth - 1)
    decreases |raw|
  {
    if i < |raw| {
      var n := |raw| - 1;
      assert raw[..n][..i] == raw[..i];
      TabCountPrefix(raw[..n], i);
    } else {
      assert raw[..i] == raw;
    }
  }

  /** editorRowCursorxToRenderx (main.c:192-202): the cursor sits right after the rendered prefix. */
  method CursorxToRenderx(raw: seq<char>, cx: nat) returns (renderx: nat)
    requires cx <= |raw|
    ensures renderx == |Render(raw[..cx])|
    ensures cx <= renderx
  {
    renderx := 0;
    var i := 0;
    while i < cx
      invariant 0 <= i <= cx
      invariant renderx == |Render(raw[..i])|
      invariant i <= renderx
    {
      RenderStep(raw, i);
      if raw[i] == '\t' {
        renderx := renderx + (TabWidth - 1) - renderx % TabWidth;
      }
      renderx := renderx + 1;
      i := i + 1;
    }
  }
}
