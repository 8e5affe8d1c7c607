/** The viewport arithmetic of the terminal browser: `DataList`, the scrolling list of stored
    errors with a selected entry and a cursor row, and `DetailPane`, the pad that shows one
    error's full text and pans over it.

    The list's scroll state is a `Cursor` value; one pure step function per `DataList` method
    gives its meaning, and the class `DataList` runs the same steps on its own fields. */
module Viewport {
  import opened Text

  datatype Option<A> = None | Some(value: A)

  /** Python's `s[i]`: an index in `[0, |s|)` counts from the front, one in `[-|s|, 0)` from
      the back, and any other raises `IndexError` (here `None`). */
  function PyIndex<A>(s: seq<A>, i: int): (r: Option<A>)
    ensures r.Some? <==> -|s| <= i < |s|
    ensures 0 <= i < |s| ==> r == Some(s[i])
    ensures -|s| <= i < 0 ==> r == Some(s[|s| + i])
  {
    if 0 <= i < |s| then Some(s[i]) else if -|s| <= i < 0 then Some(s[|s| + i]) else None
  }

  /** The fields of a `DataList` that scrolling reads and writes: the selected entry `index`,
      its row `pos` in the window (`screenPos`), the window height `lines` (`screenLines`) and
      the number of entries `count` (`numItems`). */
  datatype Cursor = Cursor(index: int, pos: int, lines: int, count: int)

  /** The selected entry exists and its row lies inside the window. */
  predicate InBounds(c: Cursor)
  {
    0 <= c.index < c.count && 0 <= c.pos < c.lines
  }

  /** No blank rows: when there are enough entries to fill the window, the window shows
      entries only, from `index - pos` to `index - pos + lines - 1`. */
  predicate Filled(c: Cursor)
  {
    c.count >= c.lines ==> c.pos <= c.index && c.index - c.pos + c.lines <= c.count
  }

  /** A list at least as long as its full window, shown without blank rows, with the selection
      in range and a window between three rows and `maxLines`: what every operation keeps. */
  predicate Steady(c: Cursor, maxLines: int)
  {
    InBounds(c) && Filled(c) && 3 <= c.lines <= maxLines <= c.count
  }

  /** `addItem`: one more entry at the end; the cursor stays. */
  function AddStep(c: Cursor): Cursor
  {
    c.(count := c.count + 1)
  }

  /** `scrollUp`: move the selection and the cursor row up one, neither below 0. */
  function ScrollUpStep(c: Cursor): Cursor
  {
    var i := c.index - 1;
    var p := c.pos - 1;
    c.(index := if i < 0 then 0 else i, pos := if p < 0 then 0 else p)
  }

  /** `scrollDown`: move both down one, the selection no further than the last entry and the
      row no further than the last row. */
  function ScrollDownStep(c: Cursor): Cursor
  {
    var i := c.index + 1;
    var p := c.pos + 1;
    c.(index := if i >= c.count then c.count - 1 else i,
       pos := if p >= c.lines then c.lines - 1 else p)
  }

  /** `scrollTop`: the first entry on the first row. */
  function ScrollTopStep(c: Cursor): Cursor
  {
    c.(index := 0, pos := 0)
  }

  /** `scrollBottom`: the last entry on the last row, whatever the number of entries. */
  function ScrollBottomStep(c: Cursor): Cursor
  {
    c.(index := c.count - 1, pos := c.lines - 1)
  }

  /** `scrollPageUp` as written: move the selection up a window's height, keeping its row;
      to the top when that passes the first entry; and, when the first row would come before
      the first entry, select the entry that row `linesBeforeCurPos + 1` shows, where
      `linesBeforeCurPos` is `pos - 1`. The test `index - (pos - 1) < 0` lets `index == pos - 1`
      through, which leaves the cursor row below the selection (see `PageUpLeavesBlankRow`). */
  function PageUpAsWritten(c: Cursor): (r: Cursor)
    ensures r.lines == c.lines && r.count == c.count
    ensures InBounds(c) ==> InBounds(r) && r.index <= c.index
  {
    if c.index == 0 then c
    else
      var i := c.index - c.lines;
      var before := c.pos - 1;
      if i < 0 then c.(index := 0, pos := 0)
      else if i - before < 0 then c.(index := before + 1)
      else c.(index := i)
  }

  /** `scrollPageUp` with the comparison that keeps the first row on an entry: the selection
      is raised to the cursor row whenever `index - (pos - 1) <= 0`. */
  function PageUpStep(c: Cursor): Cursor
  {
    if c.index == 0 then c
    else
      var i := c.index - c.lines;
      var before := c.pos - 1;
      if i < 0 then c.(index := 0, pos := 0)
      else if i - before <= 0 then c.(index := before + 1)
      else c.(index := i)
  }

  /** `scrollPageDown`: move the selection down a window's height, keeping its row; to the
      last entry on the last row when that passes the last entry; and, when the last row would
      come after the last entry, select the entry that puts the last entry on the last row. */
  function PageDownStep(c: Cursor): Cursor
  {
    if c.index == c.count - 1 then c
    else
      var i := c.index + c.lines;
      var after := c.lines - c.pos - 1;
      if i >= c.count then c.(index := c.count - 1, pos := c.lines - 1)
      else if i + after >= c.count then c.(index := c.count - after - 1)
      else c.(index := i)
  }

  /** `_fixScroll`: when the window reaches past the last entry, move the cursor row down so
      that the last entry sits on the last row. */
  function FixScrollStep(c: Cursor): Cursor
  {
    if c.index + (c.lines - c.pos) >= c.count then c.(pos := c.lines - (c.count - c.index))
    else c
  }

  /** `_resize(lines)`: the new height, with the cursor row pulled back inside it. */
  function ResizeStep(c: Cursor, lines: int): Cursor
  {
    c.(lines := lines, pos := if c.pos >= lines then lines - 1 else c.pos)
  }

  /** `shrink`: three rows, to make room for the detail pane. */
  function ShrinkStep(c: Cursor): Cursor
  {
    ResizeStep(c, 3)
  }

  /** `grow`: back to the full height `MAX_LINES`, then no blank rows at the bottom. */
  function GrowStep(c: Cursor, maxLines: int): Cursor
  {
    FixScrollStep(ResizeStep(c, maxLines))
  }

  /** The first entry `redraw` draws: `index - screenPos`, not below 0. */
  function DrawStart(c: Cursor): int
  {
    if c.index - c.pos < 0 then 0 else c.index - c.pos
  }

  /** One past the last entry `redraw` draws: `index + (screenLines - screenPos)`, not past
      the number of entries. */
  function DrawEnd(c: Cursor): int
  {
    if c.index + (c.lines - c.pos) > c.count then c.count else c.index + (c.lines - c.pos)
  }

  /** The number of rows `redraw` fills (`range` of an empty interval is empty). */
  function Drawn(c: Cursor): int
  {
    Max(0, DrawEnd(c) - DrawStart(c))
  }

  /** The drawn range holds the selection, and it fits in the window. */
  lemma DrawRangeHoldsSelection(c: Cursor)
    requires InBounds(c)
    ensures 0 <= DrawStart(c) <= c.index < DrawEnd(c) <= c.count
    ensures Drawn(c) == DrawEnd(c) - DrawStart(c) <= c.lines
  {
  }

  /** Without blank rows and with enough entries, every row of the window is drawn. */
  lemma FilledDrawsWholeWindow(c: Cursor)
    requires InBounds(c) && Filled(c) && c.count >= c.lines
    ensures DrawStart(c) == c.index - c.pos && Drawn(c) == c.lines
  {
  }

  /** The keys of the browser that act on the list: up, down, home, end, page up, page down,
      opening the detail pane (which shrinks the list) and closing it (which grows it back). */
  datatype Key = Up | Down | Top | Bottom | PageUp | PageDown | Shrink | Grow

  /** The `DataList` operation a key runs: the program's own, or, when `corrected` holds,
      the same with the corrected page up. */
  function Press(c: Cursor, k: Key, maxLines: int, corrected: bool): Cursor
  {
    match k
    case Up => ScrollUpStep(c)
    case Down => ScrollDownStep(c)
    case Top => ScrollTopStep(c)
    case Bottom => ScrollBottomStep(c)
    case PageUp => if corrected then PageUpStep(c) else PageUpAsWritten(c)
    case PageDown => PageDownStep(c)
    case Shrink => ShrinkStep(c)
    case Grow => GrowStep(c, maxLines)
  }

  /** The cursor after the keys, pressed in order. */
  function Session(c: Cursor, keys: seq<Key>, maxLines: int, corrected: bool): Cursor
    decreases |keys|
  {
    if keys == [] then c
    else Session(Press(c, keys[0], maxLines, corrected), keys[1..], maxLines, corrected)
  }

  /** Adding an entry never takes the selection out of range. */
  lemma AddKeepsBounds(c: Cursor)
    requires InBounds(c)
    ensures InBounds(AddStep(c)) && AddStep(c).count == c.count + 1
  {
  }

  /** For a non-empty list and a window of at least one row, every operation, with the
      program's page up or the corrected one, keeps the selection on an entry and the cursor
      row inside the window. */
  lemma PressKeepsBounds(c: Cursor, k: Key, maxLines: int, corrected: bool)
    requires InBounds(c) && maxLines >= 1
    ensures InBounds(Press(c, k, maxLines, corrected))
    ensures Press(c, k, maxLines, corrected).count == c.count
  {
    match k
    case PageUp =>
      assert InBounds(PageUpStep(c));
    case PageDown =>
      assert InBounds(PageDownStep(c));
    case Grow =>
      assert InBounds(ResizeStep(c, maxLines));
    case _ =>
  }

  /** ... and so does any run of them, so `getSelection` always finds the selected entry. */
  lemma {:induction false} SessionKeepsBounds(c: Cursor, keys: seq<Key>, maxLines: int,
                                              corrected: bool)
    requires InBounds(c) && maxLines >= 1
    ensures InBounds(Session(c, keys, maxLines, corrected))
    ensures Session(c, keys, maxLines, corrected).count == c.count
    decreases |keys|
  {
    if keys != [] {
      PressKeepsBounds(c, keys[0], maxLines, corrected);
      SessionKeepsBounds(Press(c, keys[0], maxLines, corrected), keys[1..], maxLines, corrected);
    }
  }

  /** With at least `maxLines >= 3` entries and a window between three rows and `maxLines`,
      every operation, with the corrected page up, keeps the window free of blank rows and its
      height in that range. The program's page up does not (`PageUpLeavesBlankRow`). */
  lemma PressKeepsFilled(c: Cursor, k: Key, maxLines: int)
    requires Steady(c, maxLines)
    ensures Steady(Press(c, k, maxLines, true), maxLines)
  {
    PressKeepsBounds(c, k, maxLines, true);
    match k
    case PageUp =>
      assert Filled(PageUpStep(c));
    case PageDown =>
      assert Filled(PageDownStep(c));
    case Grow =>
      var r := ResizeStep(c, maxLines);
      assert r.pos == c.pos && r.pos <= r.index;
    case _ =>
  }

  /** ... and so does any run of them: every row of the window shows an entry, whatever keys
      are pressed. */
  lemma {:induction false} SessionFillsWindow(c: Cursor, keys: seq<Key>, maxLines: int)
    requires Steady(c, maxLines)
    ensures var r := Session(c, keys, maxLines, true); Steady(r, maxLines) && Drawn(r) == r.lines
    decreases |keys|
  {
    if keys == [] {
      FilledDrawsWholeWindow(c);
    } else {
      PressKeepsFilled(c, keys[0], maxLines);
      SessionFillsWindow(Press(c, keys[0], maxLines, true), keys[1..], maxLines);
    }
  }

  /** Page up and page down do nothing on the first and the last entry respectively; a page
      down that would pass the last entry selects it on the last row. */
  lemma PagingAtTheEnds(c: Cursor)
    ensures c.index == 0 ==> PageUpStep(c) == c && PageUpAsWritten(c) == c
    ensures c.index == c.count - 1 ==> PageDownStep(c) == c
    ensures c.index != c.count - 1 && c.index + c.lines >= c.count ==>
      PageDownStep(c) == c.(index := c.count - 1, pos := c.lines - 1)
  {
  }

  /** A page moves the selection by at least one entry and at most a window's height, in its
      own direction, and a page that stays clear of both ends moves it by exactly that height
      and keeps the cursor row. The program's page up moves a whole page one step nearer the
      top than the corrected one does. This holds for lists shorter than their window too. */
  lemma PagingMovesAtMostAPage(c: Cursor)
    requires InBounds(c)
    ensures c.index > 0 ==>
      c.index - c.lines <= PageUpStep(c).index < c.index
    ensures c.index > 0 ==>
      c.index - c.lines <= PageUpAsWritten(c).index < c.index
    ensures c.index - c.lines >= 0 && c.index - c.lines - c.pos >= -1 ==>
      PageUpAsWritten(c) == c.(index := c.index - c.lines)
    ensures c.index < c.count - 1 ==>
      c.index < PageDownStep(c).index <= c.index + c.lines
    ensures c.index - c.lines - c.pos >= 0 ==>
      PageUpStep(c) == c.(index := c.index - c.lines)
    ensures c.index + c.lines + (c.lines - c.pos - 1) < c.count ==>
      PageDownStep(c) == c.(index := c.index + c.lines)
  {
  }

  /** `_fixScroll` leaves the selection and the entries alone and never moves the cursor row
      up; when it acts, the last entry ends on the last row. */
  lemma FixScrollPutsLastEntryLast(c: Cursor)
    ensures var r := FixScrollStep(c);
      r.index == c.index && r.count == c.count && r.lines == c.lines && r.pos >= c.pos &&
      (r != c ==> r.index - r.pos + r.lines == r.count)
  {
  }

  /** `shrink` leaves three rows with the cursor row among them; a following `grow` restores
      the full height and keeps the selection. */
  lemma ShrinkThenGrow(c: Cursor, maxLines: int)
    ensures var s := ShrinkStep(c);
      s.lines == 3 && s.pos <= 2 && s.index == c.index && (c.pos <= 2 ==> s.pos == c.pos)
    ensures var g := GrowStep(ShrinkStep(c), maxLines);
      g.lines == maxLines && g.index == c.index && g.count == c.count
  {
  }

  /** The state of `PageUpLeavesBlankRow`: twenty entries in a five-row window, reached from
      the top by eight downs and one up. */
  lemma SelectionSevenOnRowThree()
    ensures Session(Cursor(0, 0, 5, 20), [Down, Down, Down, Down, Down, Down, Down, Down, Up], 5,
                    false) == Cursor(7, 3, 5, 20)
  {
    var c := Cursor(0, 0, 5, 20);
    var keys := [Down, Down, Down, Down, Down, Down, Down, Down, Up];
    assert keys[1..] == [Down, Down, Down, Down, Down, Down, Down, Up];
    assert keys[2..] == [Down, Down, Down, Down, Down, Down, Up];
    assert keys[3..] == [Down, Down, Down, Down, Down, Up];
    assert keys[4..] == [Down, Down, Down, Down, Up];
    assert keys[5..] == [Down, Down, Down, Up];
    assert keys[6..] == [Down, Down, Up];
    assert keys[7..] == [Down, Up];
    assert keys[8..] == [Up];
    assert Session(c, keys, 5, false) == Session(Cursor(1, 1, 5, 20), keys[1..], 5, false);
    assert keys[1..][1..] == keys[2..] && keys[2..][1..] == keys[3..];
    assert keys[3..][1..] == keys[4..] && keys[4..][1..] == keys[5..];
    assert keys[5..][1..] == keys[6..] && keys[6..][1..] == keys[7..];
    assert keys[7..][1..] == keys[8..] && keys[8..][1..] == [];
  }

  /** The page up as written, from a window without blank rows: the selection lands on entry
      2 while the cursor row stays 3, so `redraw` fills only four of the five rows; the
      corrected comparison selects entry 3 and fills all five. */
  lemma PageUpLeavesBlankRow()
    ensures var c := Cursor(7, 3, 5, 20);
      InBounds(c) && Filled(c) &&
      PageUpAsWritten(c) == Cursor(2, 3, 5, 20) && !Filled(PageUpAsWritten(c)) &&
      Drawn(PageUpAsWritten(c)) == 4 &&
      PageUpStep(c) == Cursor(3, 3, 5, 20) && Drawn(PageUpStep(c)) == 5
  {
  }

  /** The as-written page up goes wrong on every window of this kind: whenever a page up would
      put the selection one entry above the cursor row, the cursor row ends below it. */
  lemma PageUpAsWrittenMisplaces(c: Cursor)
    requires InBounds(c) && c.pos >= 1 && c.index - c.lines == c.pos - 1
    ensures PageUpAsWritten(c).pos == PageUpAsWritten(c).index + 1
    ensures c.count >= c.lines ==> !Filled(PageUpAsWritten(c))
  {
  }

  /** One drawn row: the entry's text after one space, padded to the window width, and
      whether it is shown in reverse video (the selection). */
  datatype Row = Row(text: string, selected: bool)

  /** The list as the source writes it: fields updated in place by its methods. */
  class DataList<T> {
    var screenLines: int
    const maxLines: int
    const screenCols: int
    var index: int
    var screenPos: int
    var items: seq<string>
    var itemData: seq<T>
    var numItems: int

    /** `numItems` counts the entries, and every entry has its data. */
    ghost predicate Valid()
      reads this
    {
      numItems == |items| == |itemData|
    }

    ghost function State(): Cursor
      reads this
    {
      Cursor(index, screenPos, screenLines, numItems)
    }

    /** `__init__`: a window four rows shorter than the terminal, and no entries. */
    constructor (rows: int, cols: int)
      ensures Valid() && items == [] && itemData == []
      ensures State() == Cursor(0, 0, rows - 4, 0)
      ensures maxLines == rows - 4 && screenCols == cols
    {
      screenLines := rows - 4;
      maxLines := screenLines;
      screenCols := cols;
      index, screenPos := 0, 0;
      items, itemData := [], [];
      numItems := 0;
    }

    /** `redraw`, without the terminal: the rows it writes, top to bottom. */
    method Redraw() returns (rows: seq<Row>)
      requires Valid()
      ensures |rows| == Drawn(State())
      ensures forall k :: 0 <= k < |rows| ==>
        rows[k] == Row(" " + Ljust(items[DrawStart(State()) + k], screenCols - 1),
                       DrawStart(State()) + k == index)
      ensures InBounds(State()) ==>
        0 < |rows| <= screenLines && rows[index - DrawStart(State())].selected
    {
      var startIndex := index - screenPos;
      if startIndex < 0 { startIndex := 0; }
      var endIndex := index + (screenLines - screenPos);
      if endIndex > numItems { endIndex := numItems; }
      rows := [];
      var i := startIndex;
      while i < endIndex
        invariant startIndex <= i && (i <= endIndex || i == startIndex)
        invariant |rows| == i - startIndex
        invariant forall k :: 0 <= k < |rows| ==>
          rows[k] == Row(" " + Ljust(items[startIndex + k], screenCols - 1), startIndex + k == index)
      {
        rows := rows + [Row(" " + Ljust(items[i], screenCols - 1), i == index)];
        i := i + 1;
      }
      if InBounds(State()) {
        DrawRangeHoldsSelection(State());
      }
    }

    /** `addItem`: append the entry and its data. */
    method AddItem(itemText: string, data: T)
      requires Valid()
      modifies this`items, this`itemData, this`numItems
      ensures Valid()
      ensures items == old(items) + [itemText] && itemData == old(itemData) + [data]
      ensures State() == AddStep(old(State()))
    {
      items := items + [itemText];
      itemData := itemData + [data];
      numItems := numItems + 1;
    }

    /** `getSelection`: the selected entry and its data, with Python's indexing, so that an
        index of -1 (left by `scrollDown` on an empty list) reads the last entry and an index
        out of range raises `IndexError` (`None`). */
    method GetSelection() returns (r: Option<(string, T)>)
      requires Valid()
      ensures r.Some? <==> -numItems <= index < numItems
      ensures 0 <= index < numItems ==> r == Some((items[index], itemData[index]))
      ensures -numItems <= index < 0 ==>
        r == Some((items[numItems + index], itemData[numItems + index]))
    {
      var text := PyIndex(items, index);
      var data := PyIndex(itemData, index);
      if text.Some? && data.Some? {
        r := Some((text.value, data.value));
      } else {
        r := None;
      }
    }

    /** `_fixScroll` */
    method FixScroll()
      modifies this`screenPos
      ensures State() == FixScrollStep(old(State()))
      ensures old(InBounds(State())) ==> InBounds(State())
      ensures screenPos >= old(screenPos)
      ensures screenPos != old(screenPos) ==> index - screenPos + screenLines == numItems
    {
      if index + (screenLines - screenPos) >= numItems {
        screenPos := screenLines - (numItems - index);
      }
    }

    /** `scrollUp` */
    method ScrollUp()
      modifies this`index, this`screenPos
      ensures State() == ScrollUpStep(old(State()))
      ensures old(InBounds(State())) ==> InBounds(State())
      ensures old(Steady(State(), maxLines)) ==> Steady(State(), maxLines)
    {
      index := index - 1;
      screenPos := screenPos - 1;
      if index < 0 { index := 0; }
      if screenPos < 0 { screenPos := 0; }
    }

    /** `scrollDown` */
    method ScrollDown()
      modifies this`index, this`screenPos
      ensures State() == ScrollDownStep(old(State()))
      ensures old(InBounds(State())) ==> InBounds(State())
      ensures old(Steady(State(), maxLines)) ==> Steady(State(), maxLines)
    {
      index := index + 1;
      screenPos := screenPos + 1;
      if index >= numItems { index := numItems - 1; }
      if screenPos >= screenLines { screenPos := screenLines - 1; }
    }

    /** `scrollTop` */
    method ScrollTop()
      modifies this`index, this`screenPos
      ensures index == 0 && screenPos == 0
      ensures State() == ScrollTopStep(old(State()))
      ensures old(InBounds(State())) ==> InBounds(State())
      ensures old(Steady(State(), maxLines)) ==> Steady(State(), maxLines)
    {
      index := 0;
      screenPos := 0;
    }

    /** `scrollBottom`: the last row even when there are fewer entries than rows. */
    method ScrollBottom()
      modifies this`index, this`screenPos
      ensures index == numItems - 1 && screenPos == screenLines - 1
      ensures State() == ScrollBottomStep(old(State()))
      ensures old(InBounds(State())) ==> InBounds(State())
      ensures old(Steady(State(), maxLines)) ==> Steady(State(), maxLines)
    {
      index := numItems - 1;
      screenPos := screenLines - 1;
    }

    /** `scrollPageUp`, as written: it keeps the selection in range, and it keeps the window
        free of blank rows except when the selection would land one entry above the cursor
        row (`PageUpAsWrittenMisplaces`). */
    method ScrollPageUp()
      modifies this`index, this`screenPos
      ensures State() == PageUpAsWritten(old(State()))
      ensures old(InBounds(State())) ==> InBounds(State())
      ensures old(Steady(State(), maxLines)) && old(index - screenLines) != old(screenPos) - 1 ==>
        Steady(State(), maxLines)
    {
      if index == 0 { return; }
      index := index - screenLines;
      var linesBeforeCurPos := screenPos - 1;
      if index < 0 {
        index := 0;
        screenPos := 0;
      } else if index - linesBeforeCurPos < 0 {
        index := linesBeforeCurPos + 1;
      }
    }

    /** `scrollPageDown` */
    method ScrollPageDown()
      modifies this`index, this`screenPos
      ensures State() == PageDownStep(old(State()))
      ensures old(InBounds(State())) ==> InBounds(State())
      ensures old(Steady(State(), maxLines)) ==> Steady(State(), maxLines)
    {
      if index == numItems - 1 { return; }
      index := index + screenLines;
      var linesAfterCurPos := screenLines - screenPos - 1;
      if index >= numItems {
        index := numItems - 1;
        screenPos := screenLines - 1;
      } else if index + linesAfterCurPos >= numItems {
        index := numItems - linesAfterCurPos - 1;
      }
    }

    /** `_resize` */
    method Resize(lines: int)
      modifies this`screenLines, this`screenPos
      ensures State() == ResizeStep(old(State()), lines)
      ensures old(InBounds(State())) && lines >= 1 ==> InBounds(State())
    {
      screenLines := lines;
      if screenPos >= lines { screenPos := lines - 1; }
    }

    /** `shrink` */
    method Shrink()
      modifies this`screenLines, this`screenPos
      ensures screenLines == 3
      ensures State() == ShrinkStep(old(State()))
      ensures old(InBounds(State())) ==> InBounds(State())
      ensures old(Steady(State(), maxLines)) ==> Steady(State(), maxLines)
    {
      Resize(3);
    }

    /** `grow` */
    method Grow()
      modifies this`screenLines, this`screenPos
      ensures screenLines == maxLines
      ensures State() == GrowStep(old(State()), maxLines)
      ensures old(InBounds(State())) && maxLines >= 1 ==> InBounds(State())
      ensures old(Steady(State(), maxLines)) ==> Steady(State(), maxLines)
    {
      Resize(maxLines);
      FixScroll();
    }
  }

  /** The loop of `setData` (and of the older constructor): the widest of `lines`, starting
      from `floor`. */
  method WidestLine(lines: seq<string>, floor: nat) returns (width: nat)
    ensures width >= floor && forall k :: 0 <= k < |lines| ==> |lines[k]| <= width
    ensures width == floor || exists k :: 0 <= k < |lines| && |lines[k]| == width
    ensures width == Max(floor, MaxLen(lines))
  {
    width := floor;
    for i := 0 to |lines|
      invariant width == Max(floor, MaxLen(lines[..i]))
    {
      assert lines[..i + 1][..i] == lines[..i];
      if |lines[i]| > width {
        width := |lines[i]|;
      }
    }
    assert lines[..|lines|] == lines;
  }

  /** The pad that shows one error's full text, panned one line or five columns at a time.
      `loaded` records whether `numLines` has been set: `__init__` does not set it, so
      `scrollDown` and `scrollBottom` before `setData` raise `AttributeError`. */
  class DetailPane {
    const screenLines: int
    const screenCols: int
    var linePos: int
    var colPos: int
    var numCols: nat
    var numLines: int
    ghost var loaded: bool

    /** `__init__`: a window eight rows shorter than the terminal, at the top left of an empty
        pad. */
    constructor (rows: int, cols: int)
      ensures screenLines == rows - 8 && screenCols == cols
      ensures linePos == 0 && colPos == 0 && numCols == 0 && !loaded
    {
      screenLines := rows - 8;
      screenCols := cols;
      linePos, colPos, numCols := 0, 0, 0;
      loaded := false;
    }

    /** The older `DetailPane(stdscr, data)`, built afresh for each error: at the top left, as
        many lines as `data` has newlines plus one, as wide as its widest line. */
    constructor FromData(rows: int, cols: int, data: string)
      ensures screenLines == rows - 8 && screenCols == cols
      ensures linePos == 0 && colPos == 0 && loaded
      ensures numLines == Count(data, '\n') + 1
      ensures numCols == MaxLen(Split(data, '\n'))
    {
      screenLines := rows - 8;
      screenCols := cols;
      linePos, colPos := 0, 0;
      var lines := Split(data, '\n');
      numLines := |lines|;
      var width := WidestLine(lines, 0);
      numCols := width;
      loaded := true;
    }

    /** `setData`: the new text's line count; the width only ever grows; the offsets stay. */
    method SetData(data: string)
      modifies this`numLines, this`numCols, this`loaded
      ensures loaded && numLines == Count(data, '\n') + 1
      ensures numCols == Max(old(numCols), MaxLen(Split(data, '\n')))
      ensures linePos == old(linePos) && colPos == old(colPos)
    {
      var lines := Split(data, '\n');
      numLines := |lines|;
      numCols := WidestLine(lines, numCols);
      loaded := true;
    }

    /** `scrollBottom`: the last line on the last row, which is a negative offset when the
        text is shorter than the window. */
    method ScrollBottom()
      requires loaded
      modifies this`linePos
      ensures linePos == numLines - screenLines
    {
      linePos := numLines - screenLines;
    }

    /** `scrollTop` */
    method ScrollTop()
      modifies this`linePos
      ensures linePos == 0
    {
      linePos := 0;
    }

    /** `scrollDown`: one line further, but never so far that the window passes the last
        line. */
    method ScrollDown()
      requires loaded
      modifies this`linePos
      ensures linePos == Min(old(linePos) + 1, numLines - screenLines)
      ensures linePos + screenLines <= numLines
    {
      linePos := linePos + 1;
      if linePos + screenLines >= numLines {
        linePos := numLines - screenLines;
      }
    }

    /** `scrollUp`: one line back, not before the first. */
    method ScrollUp()
      modifies this`linePos
      ensures linePos == Max(old(linePos) - 1, 0) && linePos >= 0
    {
      linePos := linePos - 1;
      if linePos < 0 {
        linePos := 0;
      }
    }

    /** `scrollRight`: five columns further, but never so far that the window passes the
        widest line. */
    method ScrollRight()
      modifies this`colPos
      ensures colPos == Min(old(colPos) + 5, numCols - screenCols)
      ensures colPos + screenCols <= numCols
    {
      colPos := colPos + 5;
      if colPos + screenCols >= numCols {
        colPos := numCols - screenCols;
      }
    }

    /** `scrollLeft`: five columns back, not before the first. */
    method ScrollLeft()
      modifies this`colPos
      ensures colPos == Max(old(colPos) - 5, 0) && colPos >= 0
    {
      colPos := colPos - 5;
      if colPos < 0 {
        colPos := 0;
      }
    }
  }
}
