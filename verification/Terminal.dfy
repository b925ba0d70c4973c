/** The grid of the terminal emulator: the screen shown, the screen put aside, and the history of lines that
    scrolled away. */
module Terminal {
  import opened Common
  import opened TerminalParser
  import opened TerminalScreen

  ghost function Row(a: array2<Cell>, y: nat): seq<Cell>
    requires y < a.Length0
    reads a
  {
    seq(a.Length1, x requires 0 <= x < a.Length1 reads a => a[y, x])
  }

  /** The contents of a screen. */
  ghost function Grid(a: array2<Cell>): seq<seq<Cell>>
    reads a
  {
    seq(a.Length0, y requires 0 <= y < a.Length0 reads a => Row(a, y))
  }

  lemma GridIs(a: array2<Cell>, g: seq<seq<Cell>>)
    requires GridOk(g, a.Length1, a.Length0)
    requires forall i, x {:trigger a[i, x]} :: 0 <= i < a.Length0 && 0 <= x < a.Length1 ==> a[i, x] == g[i][x]
    ensures Grid(a) == g
  {
    forall i | 0 <= i < a.Length0 ensures Row(a, i) == g[i] {
      assert forall x :: 0 <= x < a.Length1 ==> a[i, x] == g[i][x];
    }
  }

  lemma BlankGrid(a: array2<Cell>, cell: Cell)
    requires forall i, x {:trigger a[i, x]} :: 0 <= i < a.Length0 && 0 <= x < a.Length1 ==> a[i, x] == cell
    ensures Grid(a) == seq(a.Length0, _ => seq(a.Length1, _ => cell))
  {
    GridIs(a, seq(a.Length0, _ => seq(a.Length1, _ => cell)));
  }

  class AnsiTerminal {
    const width: int
    const height: int
    /** utf8.FullRune, utf8.DecodeRune and the style an SGR sequence selects. */
    const fullRune: seq<Byte> -> bool
    const decodeRune: seq<Byte> -> int
    const selectStyle: (Style, seq<nat>) -> Style

    var cells: array2<Cell>
    var mainScreen: array2?<Cell>
    var altScreen: array2?<Cell>
    var useAltScreen: bool

    var cursorX: int
    var cursorY: int
    var savedCursorX: int
    var savedCursorY: int
    var currentStyle: Style
    var savedStyle: Style
    var latentWrap: bool
    var scrollTop: int
    var scrollBottom: int

    var parseState: ParseState
    var escapeSeq: seq<Byte>
    var csiIntermediate: Byte
    var expectingCharSet: bool
    var utf8Buffer: seq<Byte>

    var history: seq<seq<Cell>>
    var viewOffset: int
    var totalLinesScrolled: int

    /** Exactly one screen is put aside while the alternate screen is shown, and the two never share cells. */
    ghost predicate ScreensOk()
      reads this
    {
      && 0 < width <= MAX_SIZE && 0 < height <= MAX_SIZE
      && cells.Length0 == height && cells.Length1 == width
      && (useAltScreen ==> altScreen == cells && mainScreen != null && mainScreen != cells
                           && mainScreen.Length0 == height && mainScreen.Length1 == width)
      && (!useAltScreen ==> mainScreen == null)
    }

    /** The cursor may be off the screen; only the scrolling region is always on it. */
    ghost predicate CursorOk()
      reads this
    {
      && IsInt(cursorX) && IsInt(cursorY) && IsInt(savedCursorX) && IsInt(savedCursorY)
      && 0 <= scrollTop <= scrollBottom < height
    }

    predicate OnScreen()
      reads this
    {
      0 <= cursorX < width && 0 <= cursorY < height
    }

    predicate SavedOnScreen()
      reads this
    {
      0 <= savedCursorX < width && 0 <= savedCursorY < height
    }

    ghost predicate Valid()
      reads this
    {
      ScreensOk() && CursorOk() && viewOffset >= 0 && |history| <= HISTORY_SIZE
    }

    function Cur(): Cursor
      reads this
    {
      Cursor(cursorX, cursorY, latentWrap)
    }

    function Codes(): Coding {
      Coding(fullRune, decodeRune, selectStyle)
    }

    /** What the emulator shows, and has put aside. */
    ghost function Abs(): (s: Screen)
      requires Valid()
      reads this, cells, if useAltScreen then mainScreen else cells
      ensures ScreenOk(s)
    {
      Screen(width, height, Grid(cells), if useAltScreen then Grid(mainScreen) else [], useAltScreen, Cur(),
             currentStyle, SavedCursor(savedCursorX, savedCursorY, savedStyle), Region(scrollTop, scrollBottom),
             Past(history, viewOffset, totalLinesScrolled))
    }

    function Mode(): Parser
      reads this
    {
      Parser(parseState, escapeSeq, csiIntermediate, expectingCharSet, utf8Buffer, useAltScreen)
    }

    ghost function BlankRow(): seq<Cell>
      requires width > 0
      reads this`currentStyle
    {
      var blank := Blank(currentStyle);
      seq(width, _ => blank)
    }

    /** The main screen, whether it is shown or put aside. */
    ghost function MainGrid(): seq<seq<Cell>>
      requires ScreensOk()
      reads this, if useAltScreen then mainScreen else cells
    {
      Grid(if useAltScreen then mainScreen else cells)
    }

    constructor (width: int, height: int, fullRune: seq<Byte> -> bool, decodeRune: seq<Byte> -> int,
                 selectStyle: (Style, seq<nat>) -> Style)
      requires 0 < width <= MAX_SIZE && 0 < height <= MAX_SIZE
      ensures Valid() && fresh(cells) && !useAltScreen && history == [] && viewOffset == 0
      ensures OnScreen() && SavedOnScreen()
      ensures this.width == width && this.height == height
      ensures forall y, x :: 0 <= y < height && 0 <= x < width ==> cells[y, x] == Blank(DEFAULT_STYLE)
    {
      this.width, this.height := width, height;
      this.fullRune, this.decodeRune, this.selectStyle := fullRune, decodeRune, selectStyle;
      cells := new Cell[height, width]((y, x) => Blank(DEFAULT_STYLE));
      mainScreen, altScreen, useAltScreen := null, null, false;
      cursorX, cursorY, savedCursorX, savedCursorY := 0, 0, 0, 0;
      currentStyle, savedStyle, latentWrap := DEFAULT_STYLE, DEFAULT_STYLE, false;
      scrollTop, scrollBottom := 0, height - 1;
      parseState, escapeSeq, csiIntermediate, expectingCharSet, utf8Buffer := Normal, [], 0, false, [];
      history, viewOffset, totalLinesScrolled := [], 0, 0;
    }

    // ----- Rows -----

    /** Blanks part of a row. */
    method Clear(y: int, start: int, end: int)
      requires ScreensOk() && 0 <= y < height && 0 <= start && end <= width
      modifies cells
      ensures forall i, x {:trigger cells[i, x]} :: 0 <= i < height && 0 <= x < width ==>
                cells[i, x] == if i == y && start <= x < end then Blank(currentStyle) else old(cells[i, x])
    {
      var j := start;
      while j < end
        invariant start <= j
        invariant forall i, x {:trigger cells[i, x]} :: 0 <= i < height && 0 <= x < width ==>
                    cells[i, x] == if i == y && start <= x < j && x < end then Blank(currentStyle) else old(cells[i, x])
      {
        cells[y, j] := Blank(currentStyle);
        j := j + 1;
      }
    }

    method CopyRow(to: int, from: int)
      requires ScreensOk() && 0 <= to < height && 0 <= from < height
      modifies cells
      ensures forall i, x {:trigger cells[i, x]} :: 0 <= i < height && 0 <= x < width ==>
                cells[i, x] == if i == to then old(cells[from, x]) else old(cells[i, x])
    {
      for j := 0 to width
        invariant forall i, x {:trigger cells[i, x]} :: 0 <= i < height && 0 <= x < width ==>
                    cells[i, x] == if i == to && x < j then old(cells[from, x]) else old(cells[i, x])
      {
        cells[to, j] := cells[from, j];
      }
    }

    /** The rows from top to bottom move up by one; the last of them becomes blank. */
    method ShiftUp(top: int, bottom: int)
      requires ScreensOk() && 0 <= top <= bottom < height
      modifies cells
      ensures forall i, x {:trigger cells[i, x]} :: 0 <= i < height && 0 <= x < width ==>
                cells[i, x] == if top <= i < bottom then old(cells[i + 1, x])
                               else if i == bottom then Blank(currentStyle) else old(cells[i, x])
      ensures Grid(cells) == MovedUp(old(Grid(cells)), top, bottom, 1, BlankRow())
    {
      for y := top to bottom
        invariant forall i, x {:trigger cells[i, x]} :: 0 <= i < height && 0 <= x < width ==>
                    cells[i, x] == if top <= i < y then old(cells[i + 1, x]) else old(cells[i, x])
      {
        CopyRow(y, y + 1);
      }
      Clear(bottom, 0, width);
      forall i | 0 <= i < height
        ensures Row(cells, i) == MovedUp(old(Grid(cells)), top, bottom, 1, BlankRow())[i]
      {
        assert i < bottom ==> old(Grid(cells))[i + 1] == old(Row(cells, i + 1));
      }
    }

    /** The rows from top to bottom move down by one; the first of them becomes blank. */
    method ShiftDown(top: int, bottom: int)
      requires ScreensOk() && 0 <= top <= bottom < height
      modifies cells
      ensures forall i, x {:trigger cells[i, x]} :: 0 <= i < height && 0 <= x < width ==>
                cells[i, x] == if top < i <= bottom then old(cells[i - 1, x])
                               else if i == top then Blank(currentStyle) else old(cells[i, x])
      ensures Grid(cells) == MovedDown(old(Grid(cells)), top, bottom, 1, BlankRow())
    {
      for y := bottom downto top
        invariant forall i, x {:trigger cells[i, x]} :: 0 <= i < height && 0 <= x < width ==>
                    cells[i, x] == if y < i <= bottom then old(cells[i - 1, x]) else old(cells[i, x])
      {
        CopyRow(y + 1, y);
      }
      Clear(top, 0, width);
      forall i | 0 <= i < height
        ensures Row(cells, i) == MovedDown(old(Grid(cells)), top, bottom, 1, BlankRow())[i]
      {
        assert i > top ==> old(Grid(cells))[i - 1] == old(Row(cells, i - 1));
      }
    }

    // ----- Scrolling and the view -----

    /** What the view shows: the live screen, moved down by viewOffset rows under the end of the history. */
    function GetCell(x: int, y: int): Cell
      requires Valid()
      reads this, cells
    {
      if useAltScreen || viewOffset == 0 then
        if 0 <= y < height && 0 <= x < width then cells[y, x] else Blank(DEFAULT_STYLE)
      else
        var logicalRow := y - viewOffset;
        if logicalRow >= 0 then
          if logicalRow < height && 0 <= x < width then cells[logicalRow, x] else Blank(DEFAULT_STYLE)
        else
          var historyIndex := |history| + logicalRow;
          if 0 <= historyIndex && 0 <= x < |history[historyIndex]| then history[historyIndex][x]
          else Blank(DEFAULT_STYLE)
    }

    /** Whether scrolling up puts the top row into the history. */
    predicate SavesHistory()
      reads this
    {
      scrollTop == 0 < scrollBottom && !useAltScreen
    }

    /** A user who looks at the history keeps seeing the same cells while output scrolls the screen, as far down
        as the region reaches; only the oldest line, when the history is full, is lost. */
    method ScrollUp()
      requires Valid()
      modifies cells, this`history, this`viewOffset, this`totalLinesScrolled
      ensures Valid()
      ensures forall i, x {:trigger cells[i, x]} :: 0 <= i < height && 0 <= x < width ==>
                cells[i, x] == if scrollTop <= i < scrollBottom then old(cells[i + 1, x])
                               else if scrollTop < i == scrollBottom then Blank(currentStyle) else old(cells[i, x])
      ensures !SavesHistory() ==>
                HistoryKept()
      ensures Grid(cells) == if scrollTop < scrollBottom
                             then MovedUp(old(Grid(cells)), scrollTop, scrollBottom, 1, BlankRow())
                             else old(Grid(cells))
      ensures SavesHistory() ==>
                var longer := old(history) + [old(Row(cells, 0))];
                history == if |longer| > HISTORY_SIZE then longer[1..] else longer
      ensures SavesHistory() && old(viewOffset) > 0 ==> ViewKept()
      ensures Abs() == ScrolledUp(old(Abs()))
    {
      if scrollTop >= scrollBottom {
        return;
      }
      hide ScreenOk, Pushed, ViewKept;
      if scrollTop == 0 && !useAltScreen {
        SaveTopRow();
      }
      ShiftUp(scrollTop, scrollBottom);
      if SavesHistory() && old(viewOffset) > 0 {
        ViewStays();
      }
    }

    /** A view that is back in the history shows what it showed before, but for the line evicted. */
    twostate predicate ViewKept()
      requires old(Valid()) && Valid()
      reads this, cells
    {
      forall x, y :: 0 <= y < height && y - old(viewOffset) <= scrollBottom ==>
        if |old(history)| == HISTORY_SIZE && y - old(viewOffset) == -HISTORY_SIZE
        then GetCell(x, y) == Blank(DEFAULT_STYLE)
        else GetCell(x, y) == old(GetCell(x, y))
    }

    twostate lemma ViewStays()
      requires old(Valid()) && Valid() && cells == old(cells) && SavesHistory() && old(SavesHistory())
      requires viewOffset == old(viewOffset) + 1 > 1 && scrollBottom == old(scrollBottom)
      requires var longer := old(history) + [old(Row(cells, 0))];
               history == if |longer| > HISTORY_SIZE then longer[1..] else longer
      requires forall i, x {:trigger cells[i, x]} :: 0 <= i < scrollBottom && 0 <= x < width ==>
                 cells[i, x] == old(cells[i + 1, x])
      ensures ViewKept()
    {
    }

    /** The top row goes into the history, and a view that is back there follows. */
    method SaveTopRow()
      requires Valid()
      modifies this`history, this`viewOffset, this`totalLinesScrolled
      ensures Valid() && history == (var longer := old(history) + [Row(cells, 0)];
                                     if |longer| > HISTORY_SIZE then longer[1..] else longer)
      ensures viewOffset == (if old(viewOffset) > 0 then old(viewOffset) + 1 else old(viewOffset))
      ensures Past(history, viewOffset, totalLinesScrolled) ==
              Pushed(old(Past(history, viewOffset, totalLinesScrolled)), Row(cells, 0))
    {
      totalLinesScrolled := totalLinesScrolled + 1;
      var line := seq(width, x requires 0 <= x < width reads this, cells requires ScreensOk() => cells[0, x]);
      assert line == Row(cells, 0);
      history := history + [line];
      if |history| > HISTORY_SIZE {
        history := history[1..];
      }
      if viewOffset > 0 {
        viewOffset := viewOffset + 1;
      }
    }

    method ScrollDown()
      requires Valid()
      modifies cells
      ensures Valid()
      ensures Grid(cells) == if scrollTop < scrollBottom
                             then MovedDown(old(Grid(cells)), scrollTop, scrollBottom, 1, BlankRow())
                             else old(Grid(cells))
      ensures Abs() == ScrolledDown(old(Abs()), 1)
    {
      if scrollTop >= scrollBottom {
        return;
      }
      ShiftDown(scrollTop, scrollBottom);
    }

    // ----- Editing -----

    /** n rows are inserted at the cursor; those below move down and out of the region. */
    method InsertLine(n: nat)
      requires Valid()
      modifies cells
      ensures Valid()
      ensures Grid(cells) == if scrollTop <= cursorY <= scrollBottom
                             then MovedDown(old(Grid(cells)), cursorY, scrollBottom, n, BlankRow())
                             else old(Grid(cells))
      ensures Abs() == old(Abs()).(grid := RowsEdited(old(Abs()), 'L' as int, n))
    {
      if cursorY < scrollTop || cursorY > scrollBottom {
        return;
      }
      MovedDownMore(Grid(cells), cursorY, scrollBottom, 0, BlankRow());
      hide MovedDown, Grid;
      for k := 0 to n
        invariant Grid(cells) == MovedDown(old(Grid(cells)), cursorY, scrollBottom, k, BlankRow())
      {
        MovedDownMore(old(Grid(cells)), cursorY, scrollBottom, k, BlankRow());
        ShiftDown(cursorY, scrollBottom);
      }
    }

    /** n rows are deleted at the cursor; those below move up within the region. */
    method DeleteLine(n: nat)
      requires Valid()
      modifies cells
      ensures Valid()
      ensures Grid(cells) == if scrollTop <= cursorY <= scrollBottom
                             then MovedUp(old(Grid(cells)), cursorY, scrollBottom, n, BlankRow()) else old(Grid(cells))
      ensures Abs() == old(Abs()).(grid := RowsEdited(old(Abs()), 'M' as int, n))
    {
      if cursorY < scrollTop || cursorY > scrollBottom {
        return;
      }
      MovedUpMore(Grid(cells), cursorY, scrollBottom, 0, BlankRow());
      hide MovedUp, Grid;
      for k := 0 to n
        invariant Grid(cells) == MovedUp(old(Grid(cells)), cursorY, scrollBottom, k, BlankRow())
      {
        MovedUpMore(old(Grid(cells)), cursorY, scrollBottom, k, BlankRow());
        ShiftUp(cursorY, scrollBottom);
      }
    }

    /** Whether the row of the cursor is there to be indexed. */
    predicate RowThere()
      reads this
    {
      0 <= cursorY < height
    }

    /** n blanks are inserted at the cursor. The source slices the cursor's row at the cursor and n past it. */
    method InsertChar(n: nat) returns (crashed: bool)
      requires Valid() && n <= MAX_INT
      modifies cells
      ensures crashed <==> cursorX < width && !(RowThere() && 0 <= cursorX && cursorX + n <= width)
      ensures Valid()
      ensures !crashed ==> forall i, x {:trigger cells[i, x]} :: 0 <= i < height && 0 <= x < width ==>
                cells[i, x] == if i != cursorY || x < cursorX then old(cells[i, x])
                               else if x < cursorX + n then Blank(currentStyle) else old(cells[i, x - n])
    {
      if cursorX >= width {
        return false;
      }
      var from := Wrap(cursorX + n);
      if !RowThere() || cursorX < 0 || from < 0 || from > width {
        return true;
      }
      for x0 := width downto from
        invariant forall i, x {:trigger cells[i, x]} :: 0 <= i < height && 0 <= x < width ==>
                    cells[i, x] == if i == cursorY && x0 <= x then old(cells[i, x - n]) else old(cells[i, x])
      {
        cells[cursorY, x0] := cells[cursorY, x0 - n];
      }
      Clear(cursorY, cursorX, from);
      crashed := false;
    }

    /** n characters are deleted at the cursor; the rest of the row moves left. The source takes a sum that
        overflows for a place on the screen, and slices the row there. */
    method DeleteChar(n: nat) returns (crashed: bool)
      requires Valid() && n <= MAX_INT
      modifies cells
      ensures crashed <==> cursorX < width && !(OnScreen() && cursorX + n <= MAX_INT)
      ensures Valid()
      ensures !crashed ==> forall i, x {:trigger cells[i, x]} :: 0 <= i < height && 0 <= x < width ==>
                cells[i, x] == if i != cursorY || x < cursorX then old(cells[i, x])
                               else if x + n < width then old(cells[i, x + n]) else Blank(currentStyle)
    {
      if cursorX >= width {
        return false;
      }
      var from := Wrap(cursorX + n);
      if from < width {
        if !RowThere() || cursorX < 0 || from < 0 {
          return true;
        }
        ghost var row := Row(cells, cursorY);
        assert forall x {:trigger row[x]} :: 0 <= x < width ==> row[x] == cells[cursorY, x];
        ShiftRowLeft(cursorY, cursorX, n, row);
      }
      var startClear := if width - n > cursorX then width - n else cursorX;
      if startClear < width && (!RowThere() || startClear < 0) {
        return true;
      }
      if startClear < width {
        Clear(cursorY, startClear, width);
      }
      crashed := false;
    }

    /** copy(row[start:], row[start+n:]). */
    method ShiftRowLeft(y: int, start: int, n: nat, ghost row: seq<Cell>)
      requires ScreensOk() && 0 <= y < height && 0 <= start && start + n < width
      requires |row| == width && forall x {:trigger cells[y, x]} :: 0 <= x < width ==> cells[y, x] == row[x]
      modifies cells
      ensures forall x {:trigger cells[y, x]} :: 0 <= x < width ==>
                cells[y, x] == if start <= x < width - n then row[x + n] else row[x]
      ensures forall i, x {:trigger cells[i, x]} :: 0 <= i < height && 0 <= x < width && i != y ==>
              cells[i, x] == old(cells[i, x])
    {
      var x0 := start;
      while x0 + n < width
        invariant start <= x0 <= width - n
        invariant forall x {:trigger cells[y, x]} :: 0 <= x < width ==>
                    cells[y, x] == if start <= x < x0 then row[x + n] else row[x]
        invariant forall i, x {:trigger cells[i, x]} :: 0 <= i < height && 0 <= x < width && i != y
                    ==> cells[i, x] == old(cells[i, x])
      {
        cells[y, x0] := cells[y, x0 + n];
        x0 := x0 + 1;
      }
    }

    method EraseChar(n: nat) returns (crashed: bool)
      requires Valid() && n <= MAX_INT
      modifies cells
      ensures crashed <==> cursorX < width && n > 0 && !OnScreen()
      ensures Valid()
      ensures !crashed ==> forall i, x {:trigger cells[i, x]} :: 0 <= i < height && 0 <= x < width ==>
                cells[i, x] == if i == cursorY && cursorX <= x < cursorX + n then Blank(currentStyle)
                               else old(cells[i, x])
    {
      crashed := false;
      if cursorX < width && n > 0 {
        if !RowThere() || cursorX < 0 {
          return true;
        }
        Clear(cursorY, cursorX, if cursorX + n < width then cursorX + n else width);
      }
    }

    /** Erasing needs the cells it covers to be there. */
    predicate LineEraseFails(mode: nat)
      reads this
    {
      || (mode == 0 && cursorX < width && !OnScreen())
      || (mode == 1 && cursorX >= 0 && !RowThere())
      || (mode == 2 && !RowThere())
    }

    method EraseLine(mode: nat) returns (crashed: bool)
      requires Valid()
      modifies cells
      ensures Valid() && crashed == LineEraseFails(mode)
      ensures !crashed ==> forall i, x {:trigger cells[i, x]} :: 0 <= i < height && 0 <= x < width ==>
                cells[i, x] == if i == cursorY && InLineErase(Cur(), mode, x) then Blank(currentStyle)
                               else old(cells[i, x])
    {
      crashed := false;
      if mode == 0 {
        crashed := ClearInRow(cursorX, width);
      } else if mode == 1 {
        crashed := ClearInRow(0, if cursorX < width then cursorX + 1 else width);
      } else if mode == 2 {
        crashed := ClearInRow(0, width);
      }
    }

    /** Blanks part of the cursor's row, if there is anything to blank. */
    method ClearInRow(start: int, end: int) returns (crashed: bool)
      requires Valid() && end <= width
      modifies cells
      ensures Valid() && (crashed <==> start < end && !(RowThere() && 0 <= start))
      ensures !crashed ==> forall i, x {:trigger cells[i, x]} :: 0 <= i < height && 0 <= x < width ==>
                cells[i, x] == if i == cursorY && start <= x < end then Blank(currentStyle) else old(cells[i, x])
    {
      crashed := start < end && (!RowThere() || start < 0);
      if start < end && !crashed {
        Clear(cursorY, start, end);
      }
    }

    method ClearRows(top: int, end: int)
      requires Valid() && 0 <= top && end <= height
      modifies cells
      ensures Valid()
      ensures forall i, x {:trigger cells[i, x]} :: 0 <= i < height && 0 <= x < width ==>
                cells[i, x] == if top <= i < end then Blank(currentStyle) else old(cells[i, x])
    {
      var y := top;
      while y < end
        invariant top <= y && (y <= end || y == top)
        invariant forall i, x {:trigger cells[i, x]} :: 0 <= i < height && 0 <= x < width ==>
                    cells[i, x] == if top <= i < y && i < end then Blank(currentStyle) else old(cells[i, x])
      {
        Clear(y, 0, width);
        y := y + 1;
      }
    }

    predicate DisplayEraseFails(mode: nat)
      reads this
    {
      || (mode == 0 && (LineEraseFails(0) || cursorY < -1 || cursorY == MAX_INT))
      || (mode == 1 && (cursorY > height || LineEraseFails(1)))
    }

    method EraseDisplay(mode: nat) returns (crashed: bool)
      requires Valid()
      modifies cells
      ensures Valid() && crashed == DisplayEraseFails(mode)
      ensures !crashed ==> forall i, x {:trigger cells[i, x]} :: 0 <= i < height && 0 <= x < width ==>
                cells[i, x] == if InDisplayErase(Cur(), mode, i, x) then Blank(currentStyle) else old(cells[i, x])
    {
      crashed := false;
      if mode == 0 {
        crashed := EraseLine(0);
        var below := Wrap(cursorY + 1);
        if !crashed && below < 0 {
          return true;
        }
        if !crashed {
          ClearRows(below, height);
        }
      } else if mode == 1 {
        ClearRows(0, if cursorY < height then cursorY else height);
        if cursorY > height {
          return true;
        }
        crashed := EraseLine(1);
      } else if mode == 2 || mode == 3 {
        ClearRows(0, height);
      }
    }

    // ----- Output and the cursor -----

    /** Whether the next row is beyond the bottom of the region. */
    predicate NextRowScrolls()
      requires IsInt(cursorY)
      reads this
    {
      Wrap(cursorY + 1) > scrollBottom
    }

    /** To the start of the next row, scrolling at the bottom of the region. */
    method NewLine()
      requires Valid()
      modifies cells, this`cursorX, this`cursorY, this`latentWrap, this`history, this`viewOffset,
               this`totalLinesScrolled
      ensures Valid() && cursorX == 0 && !latentWrap
      ensures cursorY == if old(NextRowScrolls()) then scrollBottom else Wrap(old(cursorY) + 1)
      ensures !old(NextRowScrolls()) || useAltScreen ==> HistoryKept()
      ensures !old(NextRowScrolls()) ==>
                forall i, x {:trigger cells[i, x]} :: 0 <= i < height && 0 <= x < width ==>
                  cells[i, x] == old(cells[i, x])
      ensures old(NextRowScrolls()) && scrollBottom > scrollTop ==>
                Grid(cells) == MovedUp(old(Grid(cells)), scrollTop, scrollBottom, 1, BlankRow())
      ensures Abs() == NewLined(old(Abs()))
    {
      hide ScreenOk, Grid, ScrolledUp, MovedUp;
      if NextRowScrolls() {
        ScrollAtBottom();
      } else {
        cursorX, cursorY, latentWrap := 0, Wrap(cursorY + 1), false;
      }
    }

    /** The region scrolls and the cursor stays in its last row. */
    method ScrollAtBottom()
      requires Valid()
      modifies cells, this`cursorX, this`cursorY, this`latentWrap, this`history, this`viewOffset,
               this`totalLinesScrolled
      ensures Valid() && cursorX == 0 && !latentWrap && cursorY == scrollBottom && (useAltScreen ==> HistoryKept())
      ensures scrollBottom > scrollTop ==>
                Grid(cells) == MovedUp(old(Grid(cells)), scrollTop, scrollBottom, 1, BlankRow())
      ensures Abs() == ScrolledUp(old(Abs())).(at := Cursor(0, scrollBottom, false))
    {
      hide ScreenOk, Grid, ScrolledUp, MovedUp;
      ScrollUp();
      cursorX, cursorY, latentWrap := 0, scrollBottom, false;
    }

    /** History, view and line count are as they were. */
    twostate predicate HistoryKept()
      reads this
    {
      history == old(history) && viewOffset == old(viewOffset) && totalLinesScrolled == old(totalLinesScrolled)
    }

    method WriteCell(y: nat, x: nat, cell: Cell)
      requires ScreensOk() && y < height && x < width
      modifies cells
      ensures Grid(cells) == WithCell(old(Grid(cells)), y, x, cell)
      ensures forall i, j {:trigger cells[i, j]} :: 0 <= i < height && 0 <= j < width ==>
                cells[i, j] == if i == y && j == x then cell else old(cells[i, j])
    {
      cells[y, x] := cell;
      GridIs(cells, WithCell(old(Grid(cells)), y, x, cell));
    }

    /** A character is written at the cursor, if that is on the screen; past the last column the wrap is only
        pending until the next one. */
    method PutChar(ch: int)
      requires Valid()
      modifies cells, this`cursorX, this`cursorY, this`latentWrap, this`history, this`viewOffset,
               this`totalLinesScrolled
      ensures Valid()
      ensures useAltScreen ==> HistoryKept()
      ensures !old(latentWrap) ==>
                && cursorY == old(cursorY) && HistoryKept() && latentWrap == (Wrap(old(cursorX) + 1) >= width)
                && cursorX == (if latentWrap then width - 1 else Wrap(old(cursorX) + 1))
                && forall i, x {:trigger cells[i, x]} :: 0 <= i < height && 0 <= x < width ==>
                  cells[i, x] == if i == cursorY && x == old(cursorX) then Cell(ch, currentStyle) else old(cells[i, x])
      ensures old(latentWrap) ==>
                && cursorY == (if old(NextRowScrolls()) then scrollBottom else Wrap(old(cursorY) + 1))
                && (RowThere() ==> cells[cursorY, 0] == Cell(ch, currentStyle)) && latentWrap == (width == 1)
                && cursorX == if latentWrap then 0 else 1
      ensures old(OnScreen()) ==> OnScreen()
      ensures Abs() == Put(old(Abs()), ch)
    {
      hide ScreenOk, Grid, PutAt, NewLined;
      if latentWrap {
        NewLine();
      }
      PutAtCursor(ch);
    }

    method PutAtCursor(ch: int)
      requires Valid() && !latentWrap
      modifies cells, this`cursorX, this`latentWrap
      ensures Valid() && latentWrap == (Wrap(old(cursorX) + 1) >= width)
      ensures cursorX == if latentWrap then width - 1 else Wrap(old(cursorX) + 1)
      ensures forall i, x {:trigger cells[i, x]} :: 0 <= i < height && 0 <= x < width ==>
                cells[i, x] == if i == cursorY && x == old(cursorX) then Cell(ch, currentStyle) else old(cells[i, x])
      ensures Abs() == PutAt(old(Abs()), ch)
    {
      hide ScreenOk, Grid, WithCell;
      if OnScreen() {
        WriteCell(cursorY, cursorX, Cell(ch, currentStyle));
      }
      cursorX := Wrap(cursorX + 1);
      if cursorX >= width {
        cursorX := width - 1;
        latentWrap := true;
      }
    }

    method HandleCursorMovement(command: Byte, params: seq<nat>)
      requires Valid() && ParamsFit(params)
      modifies this`cursorX, this`cursorY, this`latentWrap
      ensures Valid()
      ensures IsCursorMovement(command) ==>
                Abs() == Moved(old(Abs()), command, FirstParam(params, 1), SecondParam(params))
    {
      hide ScreenOk, Grid, Moved;
      var n := FirstParam(params, 1);
      if command in {'A' as int, 'B' as int, 'e' as int, 'd' as int} {
        MoveRow(command, n);
      } else if command == 'H' as int || command == 'f' as int {
        MoveTo(command, n, SecondParam(params));
      } else if command in {'C' as int, 'D' as int, 'G' as int} {
        MoveColumn(command, n);
      }
    }

    method MoveRow(command: Byte, n: nat)
      requires Valid() && command in {'A' as int, 'B' as int, 'e' as int, 'd' as int} && n <= MAX_INT
      modifies this`cursorY, this`latentWrap
      ensures Valid() && forall col: nat :: col <= MAX_INT ==> Abs() == Moved(old(Abs()), command, n, col)
    {
      forall col: nat | col <= MAX_INT
        ensures Moved(Abs(), command, n, col) ==
                Abs().(at := Cursor(cursorX, RowMovedTo(Abs(), command, n), false))
      {
        MovedToRow(Abs(), command, n, col);
      }
      hide ScreenOk, Grid, Moved;
      if command == 'A' as int {
        cursorY := Wrap(cursorY - n);
        if cursorY < 0 { cursorY := 0; }
      } else if command == 'd' as int {
        cursorY := if n > 1 then n - 1 else 0;
        if cursorY >= height { cursorY := height - 1; }
      } else {
        cursorY := Wrap(cursorY + n);
        if cursorY >= height { cursorY := height - 1; }
      }
      latentWrap := false;
    }

    method MoveColumn(command: Byte, n: nat)
      requires Valid() && command in {'C' as int, 'D' as int, 'G' as int} && n <= MAX_INT
      modifies this`cursorX, this`latentWrap
      ensures Valid() && forall col: nat :: col <= MAX_INT ==> Abs() == Moved(old(Abs()), command, n, col)
    {
      forall col: nat | col <= MAX_INT
        ensures Moved(Abs(), command, n, col) ==
                Abs().(at := Cursor(ColumnMovedTo(Abs(), command, n, col), cursorY, false))
      {
        MovedToColumn(Abs(), command, n, col);
      }
      hide ScreenOk, Grid, Moved;
      if command == 'C' as int {
        cursorX := Wrap(cursorX + n);
        if cursorX >= width { cursorX := width - 1; }
      } else if command == 'D' as int {
        cursorX := Wrap(cursorX - n);
        if cursorX < 0 { cursorX := 0; }
      } else {
        cursorX := if n > 1 then n - 1 else 0;
        if cursorX >= width { cursorX := width - 1; }
      }
      latentWrap := false;
    }

    method MoveTo(command: Byte, row: nat, col: nat)
      requires Valid() && command in {'H' as int, 'f' as int} && row <= MAX_INT && col <= MAX_INT
      modifies this`cursorX, this`cursorY, this`latentWrap
      ensures Valid() && cursorY == Clamp(row - 1, height) && cursorX == Clamp(col - 1, width) && !latentWrap
      ensures Abs() == Moved(old(Abs()), command, row, col)
    {
      MovedToPlace(Abs(), command, row, col);
      hide ScreenOk, Grid, Moved;
      var y, x := row - 1, col - 1;
      if y < 0 { y := 0; }
      if y >= height { y := height - 1; }
      if x < 0 { x := 0; }
      if x >= width { x := width - 1; }
      cursorY, cursorX, latentWrap := y, x, false;
    }

    /** The scrolling region is always a non-empty range of rows of the screen. */
    method SetRegion(params: seq<nat>)
      requires Valid()
      modifies this`scrollTop, this`scrollBottom, this`cursorX, this`cursorY
      ensures Valid() && cursorX == 0 && cursorY == 0
      ensures var top, bottom := FirstParam(params, 1), if |params| > 1 then params[1] else height;
              if bottom == 0 || top > bottom || top > height then scrollTop == 0 && scrollBottom == height - 1
              else scrollTop == Clamp(top - 1, height) && scrollBottom == Clamp(bottom - 1, height)
      ensures Abs() == old(Abs()).(region := RegionAsked(height, params), at := Cursor(0, 0, latentWrap))
    {
      hide ScreenOk, Grid;
      var top, bottom := 1, height;
      if |params| > 0 { top := params[0]; }
      if |params| > 1 { bottom := params[1]; }
      if top < 1 { top := 1; }
      if bottom > height { bottom := height; }
      if top > bottom { top, bottom := 1, height; }
      scrollTop, scrollBottom := top - 1, bottom - 1;
      cursorX, cursorY := 0, 0;
    }

    // ----- The two screens -----

    method NewScreen(cell: Cell) returns (screen: array2<Cell>)
      requires width > 0 && height > 0
      ensures fresh(screen) && screen.Length0 == height && screen.Length1 == width
      ensures forall y, x :: 0 <= y < height && 0 <= x < width ==> screen[y, x] == cell
    {
      screen := new Cell[height, width]((y, x) => cell);
    }

    method CopyScreen() returns (screen: array2<Cell>)
      requires ScreensOk()
      ensures fresh(screen) && screen.Length0 == height && screen.Length1 == width
      ensures Grid(screen) == Grid(cells)
    {
      screen := NewScreen(Blank(DEFAULT_STYLE));
      for y := 0 to height
        invariant fresh(screen)
        invariant forall i, x :: 0 <= i < y && 0 <= x < width ==> screen[i, x] == cells[i, x]
      {
        for x := 0 to width
          invariant fresh(screen)
          invariant forall i, j :: 0 <= i < y && 0 <= j < width ==> screen[i, j] == cells[i, j]
          invariant forall j :: 0 <= j < x ==> screen[y, j] == cells[y, j]
        {
          screen[y, x] := cells[y, x];
        }
      }
      forall y | 0 <= y < height ensures Row(screen, y) == Row(cells, y) {}
    }

    method SwitchToAltScreen()
      requires Valid() && !useAltScreen
      modifies this`cells, this`mainScreen, this`altScreen, this`useAltScreen,
               this`cursorX, this`cursorY, this`scrollTop, this`scrollBottom
      ensures Valid() && useAltScreen && fresh(cells) && fresh(mainScreen)
      ensures MainGrid() == old(MainGrid())
      ensures forall y, x :: 0 <= y < height && 0 <= x < width ==> cells[y, x] == Blank(currentStyle)
      ensures cursorX == 0 && cursorY == 0 && scrollTop == 0 && scrollBottom == height - 1
      ensures Abs() == ToAlternate(old(Abs()))
    {
      hide ScreenOk, Grid;
      var main := CopyScreen();
      var alt := NewScreen(Blank(currentStyle));
      BlankGrid(alt, Blank(currentStyle));
      ShowAlternate(main, alt);
    }

    /** The main screen's contents are put aside, and the alternate screen is shown from its top. */
    method ShowAlternate(main: array2<Cell>, alt: array2<Cell>)
      requires Valid() && !useAltScreen && main != alt
      requires main.Length0 == height && main.Length1 == width && alt.Length0 == height && alt.Length1 == width
      modifies this`cells, this`mainScreen, this`altScreen, this`useAltScreen,
               this`cursorX, this`cursorY, this`scrollTop, this`scrollBottom
      ensures Valid() && useAltScreen && cells == alt && mainScreen == main
      ensures cursorX == 0 && cursorY == 0 && scrollTop == 0 && scrollBottom == height - 1
      ensures Abs() == old(Abs()).(grid := Grid(alt), aside := Grid(main), alt := true, at := Cursor(0, 0, latentWrap),
                                   region := Region(0, height - 1))
    {
      hide ScreenOk, Grid;
      mainScreen, altScreen, cells, useAltScreen := main, alt, alt, true;
      Home();
    }

    /** The cursor goes to the top, and the region is the whole screen. */
    method Home()
      requires Valid()
      modifies this`cursorX, this`cursorY, this`scrollTop, this`scrollBottom
      ensures Valid() && cursorX == 0 && cursorY == 0 && scrollTop == 0 && scrollBottom == height - 1
      ensures Abs() == old(Abs()).(at := Cursor(0, 0, latentWrap), region := Region(0, height - 1))
    {
      hide ScreenOk, Grid;
      cursorX, cursorY, scrollTop, scrollBottom := 0, 0, 0, height - 1;
    }

    method SwitchToMainScreen()
      requires Valid() && useAltScreen
      modifies this`cells, this`mainScreen, this`altScreen, this`useAltScreen, this`scrollTop, this`scrollBottom
      ensures Valid() && !useAltScreen && cells == old(mainScreen)
      ensures MainGrid() == old(MainGrid())
      ensures scrollTop == 0 && scrollBottom == height - 1
      ensures Abs() == ToMain(old(Abs()))
    {
      hide ScreenOk, Grid;
      cells, mainScreen := mainScreen, null;
      altScreen, useAltScreen := null, false;
      scrollTop, scrollBottom := 0, height - 1;
    }

    /** Setting modes: only one of them matters to the screens. */
    method HandleSetMode(params: seq<nat>)
      requires Valid()
      modifies this`cells, this`mainScreen, this`altScreen, this`useAltScreen,
               this`cursorX, this`cursorY, this`scrollTop, this`scrollBottom
      ensures Valid() && MainGrid() == old(MainGrid()) && SameBuffers()
      ensures useAltScreen == (old(useAltScreen) || ALT_SCREEN_MODE in params)
      ensures old(OnScreen()) ==> OnScreen()
      ensures Abs() == if ALT_SCREEN_MODE in params && !old(useAltScreen) then ToAlternate(old(Abs())) else old(Abs())
    {
      for i := 0 to |params|
        invariant Valid() && MainGrid() == old(MainGrid()) && SameBuffers()
        invariant useAltScreen == (old(useAltScreen) || ALT_SCREEN_MODE in params[..i])
        invariant Abs() == if ALT_SCREEN_MODE in params[..i] && !old(useAltScreen) then ToAlternate(old(Abs()))
                           else old(Abs())
        invariant old(OnScreen()) ==> OnScreen()
      {
        assert params[..i + 1] == params[..i] + [params[i]];
        if params[i] == ALT_SCREEN_MODE {
          if !useAltScreen {
            SwitchToAltScreen();
          }
        }
      }
      assert params[..|params|] == params;
    }

    method HandleResetMode(params: seq<nat>)
      requires Valid()
      modifies this`cells, this`mainScreen, this`altScreen, this`useAltScreen, this`scrollTop, this`scrollBottom
      ensures Valid() && MainGrid() == old(MainGrid()) && SameBuffers()
      ensures useAltScreen == (old(useAltScreen) && ALT_SCREEN_MODE !in params)
      ensures Abs() == if ALT_SCREEN_MODE in params && old(useAltScreen) then ToMain(old(Abs())) else old(Abs())
    {
      for i := 0 to |params|
        invariant Valid() && MainGrid() == old(MainGrid()) && SameBuffers()
        invariant useAltScreen == (old(useAltScreen) && ALT_SCREEN_MODE !in params[..i])
        invariant Abs() == if ALT_SCREEN_MODE in params[..i] && old(useAltScreen) then ToMain(old(Abs()))
                           else old(Abs())
      {
        assert params[..i + 1] == params[..i] + [params[i]];
        if params[i] == ALT_SCREEN_MODE {
          if useAltScreen {
            SwitchToMainScreen();
          }
        }
      }
      assert params[..|params|] == params;
    }

    /** The screens in use are the ones before, or new ones. */
    twostate predicate SameBuffers()
      reads this
    {
      && (cells == old(cells) || cells == old(mainScreen) || fresh(cells))
      && (mainScreen == null || mainScreen == old(mainScreen) || fresh(mainScreen))
    }

    // ----- Bytes -----

    /** The main screen, the history and the view are as they were. */
    twostate predicate MainKept()
      requires old(ScreensOk()) && ScreensOk()
      reads this, if useAltScreen then mainScreen else cells
    {
      && MainGrid() == old(MainGrid()) && history == old(history)
      && viewOffset == old(viewOffset) && totalLinesScrolled == old(totalLinesScrolled)
    }

    /** The input the emulator does not survive: editing commands whose cells or whose row are not there. */
    predicate Crashes(command: Byte, params: seq<nat>)
      reads this
    {
      var n, mode := FirstParam(params, 1), FirstParam(params, 0);
      if command == '@' as int then cursorX < width && !(OnScreen() && cursorX + n <= width)
      else if command == 'P' as int then cursorX < width && !(OnScreen() && cursorX + n <= MAX_INT)
      else if command == 'X' as int then cursorX < width && n > 0 && !OnScreen()
      else if command == 'J' as int then DisplayEraseFails(mode)
      else if command == 'K' as int then LineEraseFails(mode)
      else false
    }

    /** With the cursor on the screen two inputs crash: inserting characters past the right margin, and deleting
        so many that the sum with the column overflows. */
    lemma CrashesOnScreen(command: Byte, params: seq<nat>)
      requires ScreensOk() && OnScreen()
      ensures Crashes(command, params) <==>
                || (command == '@' as int && cursorX + FirstParam(params, 1) > width)
                || (command == 'P' as int && cursorX + FirstParam(params, 1) > MAX_INT)
    {
    }

    /** All rows of the region moved down (T) or up (S). */
    twostate predicate RowsMoved(command: Byte, n: nat)
      requires old(Valid()) && Valid() && cells == old(cells)
      reads this, cells
    {
      Grid(cells) == if scrollTop == scrollBottom then old(Grid(cells))
                     else if command == 'T' as int
                     then MovedDown(old(Grid(cells)), scrollTop, scrollBottom, n, BlankRow())
                     else MovedUp(old(Grid(cells)), scrollTop, scrollBottom, n, BlankRow())
    }

    method HandleTextModification(command: Byte, params: seq<nat>) returns (crashed: bool)
      requires Valid() && command in {'@' as int, 'L' as int, 'M' as int, 'P' as int, 'X' as int} && ParamsFit(params)
      modifies cells
      ensures Valid() && crashed == Crashes(command, params)
      ensures !crashed ==>
                Abs() == Edited(old(Abs()), command, params)
    {
      var n := FirstParam(params, 1);
      hide EditedGrid, RowsEdited, Grid;
      if command == 'L' as int {
        crashed := false;
        InsertLine(n);
      } else if command == 'M' as int {
        crashed := false;
        DeleteLine(n);
      } else {
        crashed := ModifyRow(command, n);
      }
    }

    method ModifyRow(command: Byte, n: nat) returns (crashed: bool)
      requires Valid() && command in {'@' as int, 'P' as int, 'X' as int} && n <= MAX_INT
      modifies cells
      ensures Valid() && crashed == Crashes(command, [n])
      ensures !crashed ==> Abs() == old(Abs()).(grid := EditedGrid(old(Abs()), command, n))
    {
      if command == '@' as int { crashed := InsertChar(n); }
      else if command == 'P' as int { crashed := DeleteChar(n); }
      else { crashed := EraseChar(n); }
      if !crashed {
        GridIs(cells, EditedGrid(old(Abs()), command, n));
      }
    }

    method HandleErase(command: Byte, params: seq<nat>) returns (crashed: bool)
      requires Valid() && command in {'J' as int, 'K' as int}
      modifies cells
      ensures Valid() && crashed == Crashes(command, params)
      ensures !crashed ==> Abs() == Edited(old(Abs()), command, params)
    {
      var mode := FirstParam(params, 0);
      if command == 'J' as int { crashed := EraseDisplay(mode); }
      else { crashed := EraseLine(mode); }
      if !crashed {
        GridIs(cells, EditedGrid(old(Abs()), command, mode));
      }
    }

    method HandleScrolling(command: Byte, params: seq<nat>)
      requires Valid() && command in {'S' as int, 'T' as int}
      modifies cells, this`history, this`viewOffset, this`totalLinesScrolled
      ensures Valid() && RowsMoved(command, FirstParam(params, 1)) && Abs() == Edited(old(Abs()), command, params)
      ensures useAltScreen || command == 'T' as int ==>
                HistoryKept()
    {
      hide ScreenOk, Grid, MovedUp, MovedDown, ScrolledUpBy, ScrolledDown, ScrolledUp;
      var n := FirstParam(params, 1);
      if command == 'S' as int {
        ScrollUpBy(n);
      } else {
        ScrollDownBy(n);
      }
    }

    method ScrollUpBy(n: nat)
      requires Valid()
      modifies cells, this`history, this`viewOffset, this`totalLinesScrolled
      ensures Valid() && RowsMoved('S' as int, n) && Abs() == ScrolledUpBy(old(Abs()), n)
      ensures useAltScreen ==> HistoryKept()
    {
      MovedUpMore(Grid(cells), scrollTop, scrollBottom, 0, BlankRow());
      hide ScreenOk, MovedUp, Grid, ScrolledUp, ViewKept;
      for i := 0 to n
        invariant Valid() && RowsMoved('S' as int, i) && Abs() == ScrolledUpBy(old(Abs()), i)
        invariant useAltScreen ==> HistoryKept()
      {
        MovedUpMore(old(Grid(cells)), scrollTop, scrollBottom, i, BlankRow());
        ScrollUp();
      }
    }

    method ScrollDownBy(n: nat)
      requires Valid()
      modifies cells
      ensures Valid() && RowsMoved('T' as int, n) && Abs() == ScrolledDown(old(Abs()), n)
    {
      MovedDownMore(Grid(cells), scrollTop, scrollBottom, 0, BlankRow());
      ScrolledDownMore(Abs(), 0);
      hide ScreenOk, MovedDown, Grid, ScrolledDown;
      for i := 0 to n
        invariant Valid() && RowsMoved('T' as int, i) && Abs() == ScrolledDown(old(Abs()), i)
      {
        MovedDownMore(old(Grid(cells)), scrollTop, scrollBottom, i, BlankRow());
        ScrolledDownMore(old(Abs()), i);
        ScrollDown();
      }
    }

    method SaveCursor()
      requires Valid()
      modifies this`savedCursorX, this`savedCursorY, this`savedStyle
      ensures Valid() && savedCursorX == cursorX && savedCursorY == cursorY && savedStyle == currentStyle
      ensures Abs() == WithSaved(old(Abs()))
    {
      hide ScreenOk, Grid;
      savedCursorX, savedCursorY, savedStyle := cursorX, cursorY, currentStyle;
    }

    method RestoreCursor()
      requires Valid()
      modifies this`cursorX, this`cursorY, this`currentStyle, this`latentWrap
      ensures Valid() && cursorX == savedCursorX && cursorY == savedCursorY && currentStyle == savedStyle && !latentWrap
      ensures Abs() == Restored(old(Abs()))
    {
      hide ScreenOk, Grid;
      cursorX, cursorY, currentStyle, latentWrap := savedCursorX, savedCursorY, savedStyle, false;
    }

    method ExecuteEdit(command: Byte, params: seq<nat>) returns (crashed: bool)
      requires Valid() && IsEdit(command) && ParamsFit(params)
      modifies cells, this`history, this`viewOffset, this`totalLinesScrolled
      ensures Valid() && crashed == old(Crashes(command, params))
      ensures !crashed ==> Abs() == Edited(old(Abs()), command, params)
      ensures useAltScreen ==>
                HistoryKept()
    {
      hide RowsMoved, Edited, Grid;
      crashed := false;
      if IsTextModification(command) {
        crashed := HandleTextModification(command, params);
      } else if command == 'J' as int || command == 'K' as int {
        crashed := HandleErase(command, params);
      } else {
        HandleScrolling(command, params);
      }
    }

    /** A control sequence: commands that edit change the cells of the screen shown as stated, all others but the
        choice of screen leave them alone; and one kind of input crashes the emulator. */
    method ExecuteCSI(command: Byte) returns (crashed: bool)
      requires Valid()
      modifies this, cells
      ensures crashed == old(Crashes(command, ParseCSIParams(escapeSeq))) && (crashed ==> IsEdit(command))
      ensures parseState == old(parseState) && escapeSeq == old(escapeSeq) && csiIntermediate == old(csiIntermediate)
      ensures expectingCharSet == old(expectingCharSet) && utf8Buffer == old(utf8Buffer)
      ensures Valid() && SameBuffers()
      ensures useAltScreen == AltScreenAfter(command, ParseCSIParams(escapeSeq), old(useAltScreen))
      ensures old(useAltScreen) || useAltScreen ==> MainKept()
      ensures command != 'h' as int && command != 'l' as int ==> cells == old(cells)
      ensures !crashed ==> Abs() == Commanded(selectStyle, old(Abs()), command, ParseCSIParams(escapeSeq))
      ensures !IsEdit(command) && cells == old(cells) ==> Grid(cells) == old(Grid(cells))
      ensures old(OnScreen() && SavedOnScreen()) ==>
                SavedOnScreen() && OnScreen() == !old(LeavesScreen(command, ParseCSIParams(escapeSeq)))
    {
      hide ParseCSIParams, Grid, Edited, Moved, LeavesScreen, Crashes, ParamsFit;
      var params := ParseCSIParams(escapeSeq);
      OnlyEditsCrash(command, params);
      OnlyMovesLeave(command, params);
      crashed := false;
      if IsEdit(command) {
        crashed := ExecuteEdit(command, params);
      } else {
        ExecuteOther(command, params);
      }
    }

    /** The commands that edit no cells. */
    method ExecuteOther(command: Byte, params: seq<nat>)
      requires Valid() && ParamsFit(params) && !IsEdit(command)
      modifies this`cells, this`mainScreen, this`altScreen, this`useAltScreen, this`cursorX, this`cursorY,
               this`latentWrap, this`scrollTop, this`scrollBottom, this`currentStyle, this`savedCursorX,
               this`savedCursorY, this`savedStyle
      ensures Valid() && SameBuffers() && MainGrid() == old(MainGrid())
      ensures useAltScreen == AltScreenAfter(command, params, old(useAltScreen))
      ensures command != 'h' as int && command != 'l' as int ==> cells == old(cells)
      ensures Abs() == Commanded(selectStyle, old(Abs()), command, params)
      ensures old(OnScreen() && SavedOnScreen()) ==>
                SavedOnScreen() && OnScreen() == !old(LeavesScreen(command, params))
    {
      hide Grid, Moved, LeavesScreen, ParamsFit;
      OnlyMovesLeave(command, params);
      if IsCursorMovement(command) {
        MoveCursor(command, params);
      } else if command == 'm' as int {
        currentStyle := selectStyle(currentStyle, params);
      } else if command == 'r' as int {
        SetRegion(params);
      } else if command == 's' as int {
        SaveCursor();
      } else if command == 'u' as int {
        RestoreCursor();
      } else if command == 'h' as int {
        HandleSetMode(params);
      } else if command == 'l' as int {
        HandleResetMode(params);
      }
    }

    lemma OnlyMovesLeave(command: Byte, params: seq<nat>)
      ensures !IsCursorMovement(command) ==> !LeavesScreen(command, params)
    {
    }

    /** The input that moves the cursor off the screen. */
    predicate LeavesScreen(command: Byte, params: seq<nat>)
      reads this
    {
      IsCursorMovement(command) && Overflows(Cur(), command, FirstParam(params, 1))
    }

    /** Both overflows are reached from every column but the first, with the largest number a sequence can hold. */
    lemma OverflowsHappen()
      requires ScreensOk() && OnScreen()
      ensures Crashes('P' as int, [MAX_INT]) <==> cursorX > 0
      ensures LeavesScreen('C' as int, [MAX_INT]) <==> cursorX > 0
      ensures LeavesScreen('B' as int, [MAX_INT]) <==> cursorY > 0
    {
    }

    lemma OnlyEditsCrash(command: Byte, params: seq<nat>)
      ensures !IsEdit(command) ==> !Crashes(command, params)
    {
    }

    /** The movement, and whether it leads off the screen. */
    method MoveCursor(command: Byte, params: seq<nat>)
      requires Valid() && ParamsFit(params) && IsCursorMovement(command)
      modifies this`cursorX, this`cursorY, this`latentWrap
      ensures Valid()
      ensures Abs() == Moved(old(Abs()), command, FirstParam(params, 1), SecondParam(params))
      ensures old(OnScreen()) ==> OnScreen() == !old(LeavesScreen(command, params))
    {
      hide AskedRow, AskedColumn, Overflows, Moved;
      if OnScreen() {
        MovedNear(Abs(), command, FirstParam(params, 1), SecondParam(params));
      }
      HandleCursorMovement(command, params);
    }

    method HandleNormal(b: Byte)
      requires Valid() && parseState == Normal && utf8Buffer == [] && b < 128
      modifies cells, this`parseState, this`escapeSeq, this`expectingCharSet, this`cursorX, this`cursorY,
               this`latentWrap, this`history, this`viewOffset, this`totalLinesScrolled
      ensures Valid() && SameBuffers() && Mode() == NextNormal(fullRune, old(Mode()), b)
      ensures useAltScreen ==> MainKept()
      ensures b == 0x0a && !old(expectingCharSet) ==>
                cursorX == 0 && cursorY == if old(NextRowScrolls()) then scrollBottom else Wrap(old(cursorY) + 1)
      ensures b != 0x0a && b < 32 ==> cursorY == old(cursorY) && Grid(cells) == old(Grid(cells))
      ensures b == 0x0d && !old(expectingCharSet) ==> cursorX == 0
      ensures b == 0x08 && !old(expectingCharSet) ==>
                cursorX == if old(cursorX) > 0 then old(cursorX) - 1 else old(cursorX)
      ensures b >= 32 && !old(expectingCharSet) && !old(latentWrap) && old(OnScreen()) ==>
                cells[old(cursorY), old(cursorX)] == Cell(b, currentStyle)
      ensures old(OnScreen()) ==> OnScreen()
      ensures SavedOnScreen() == old(SavedOnScreen())
      ensures Abs() == NormalByte(Codes(), old(Abs()), old(Mode()), b)
    {
      hide ScreenOk, Grid, Put, NewLined, MovedInRow;
      if expectingCharSet {
        expectingCharSet := false;
      } else if b == ESC {
        parseState, escapeSeq := Escape, [];
      } else {
        HandleCharacter(b);
      }
    }

    /** A character that stands for itself, or moves the cursor. */
    method HandleCharacter(b: Byte)
      requires Valid() && b < 128 && b != ESC
      modifies cells, this`cursorX, this`cursorY, this`latentWrap, this`history, this`viewOffset,
               this`totalLinesScrolled
      ensures Valid() && (useAltScreen ==> HistoryKept())
      ensures b == 0x0a ==>
                cursorX == 0 && cursorY == if old(NextRowScrolls()) then scrollBottom else Wrap(old(cursorY) + 1)
      ensures b != 0x0a && b < 32 ==> HistoryKept() && cursorY == old(cursorY) && Grid(cells) == old(Grid(cells))
      ensures b == 0x0d ==> cursorX == 0
      ensures b == 0x08 ==> cursorX == if old(cursorX) > 0 then old(cursorX) - 1 else old(cursorX)
      ensures b >= 32 && !old(latentWrap) && old(OnScreen()) ==>
                cells[old(cursorY), old(cursorX)] == Cell(b, currentStyle)
      ensures old(OnScreen()) ==> OnScreen()
      ensures Abs() == Typed(old(Abs()), b)
    {
      hide ScreenOk, Grid, Put, NewLined, MovedInRow;
      if b == 0x0a {
        NewLine();
      } else if b >= 32 {
        PutChar(b);
      } else {
        MoveInRow(b);
      }
    }

    predicate IsNextTab(x: int, stop: int) {
      x < stop <= x + 8 && stop % 8 == 0
    }

    /** Carriage return, tab and backspace: to the start of the row, to the next multiple of eight, one back. */
    method MoveInRow(b: Byte)
      requires Valid()
      modifies this`cursorX, this`latentWrap
      ensures Valid()
      ensures b == 0x0d ==> cursorX == 0
      ensures b == 0x09 && old(cursorX) + 8 <= MAX_INT ==>
                exists stop :: IsNextTab(old(cursorX), stop) && cursorX == AtMost(stop, width - 1)
      ensures b == 0x09 && old(cursorX) + 8 > MAX_INT ==> cursorX == MIN_INT
      ensures b == 0x08 ==> cursorX == if old(cursorX) > 0 then old(cursorX) - 1 else old(cursorX)
      ensures b in {0x0d, 0x09, 0x08} ==> !latentWrap
      ensures b !in {0x0d, 0x09, 0x08} ==> cursorX == old(cursorX) && latentWrap == old(latentWrap)
      ensures Abs() == MovedInRow(old(Abs()), b)
    {
      hide ScreenOk, Grid;
      if b == 0x0d {
        latentWrap, cursorX := false, 0;
      } else if b == 0x09 {
        var stop := Wrap(cursorX + 8) / 8 * 8;
        assert cursorX + 8 <= MAX_INT ==> IsNextTab(old(cursorX), stop);
        latentWrap, cursorX := false, if stop >= width then width - 1 else stop;
      } else if b == 0x08 {
        latentWrap, cursorX := false, if cursorX > 0 then cursorX - 1 else cursorX;
      }
    }

    /** Reverse index: up one row, scrolling at the top of the region. */
    method ReverseIndex()
      requires Valid()
      modifies cells, this`cursorY
      ensures Valid()
      ensures cursorY == if old(cursorY) == scrollTop then scrollTop else AtLeastZero(Wrap(old(cursorY) - 1))
      ensures Grid(cells) == if old(cursorY) == scrollTop < scrollBottom
                             then MovedDown(old(Grid(cells)), scrollTop, scrollBottom, 1, BlankRow())
                             else old(Grid(cells))
      ensures Abs() == ReverseIndexed(old(Abs()))
    {
      if cursorY == scrollTop {
        ScrollDown();
      } else {
        cursorY := Wrap(cursorY - 1);
        if cursorY < 0 { cursorY := 0; }
      }
    }

    /** ESC 7 saves the cursor, ESC 8 restores it, ESC M is a reverse index. */
    method CursorEscape(b: Byte)
      requires Valid() && b in {'7' as int, '8' as int, 'M' as int}
      modifies cells, this`cursorX, this`cursorY, this`latentWrap, this`currentStyle,
               this`savedCursorX, this`savedCursorY, this`savedStyle
      ensures Valid()
      ensures b != 'M' as int ==> Grid(cells) == old(Grid(cells))
      ensures b == '7' as int ==>
              savedCursorX == old(cursorX) && savedCursorY == old(cursorY) && savedStyle == old(currentStyle)
      ensures b == '8' as int ==>
              cursorX == old(savedCursorX) && cursorY == old(savedCursorY) && currentStyle == old(savedStyle)
      ensures b == 'M' as int ==>
                Grid(cells) == if old(cursorY) == scrollTop < scrollBottom
                               then MovedDown(old(Grid(cells)), scrollTop, scrollBottom, 1, BlankRow())
                               else old(Grid(cells))
      ensures old(OnScreen() && SavedOnScreen()) ==> OnScreen() && SavedOnScreen()
      ensures Abs() == EscapeByte(old(Abs()), b)
    {
      if b == '7' as int {
        SaveCursor();
      } else if b == '8' as int {
        RestoreCursor();
      } else {
        ReverseIndex();
      }
    }

    method HandleEscape(b: Byte)
      requires Valid() && parseState == Escape
      modifies cells, this`parseState, this`escapeSeq, this`csiIntermediate, this`expectingCharSet, this`cursorX,
               this`cursorY, this`latentWrap, this`currentStyle, this`savedCursorX, this`savedCursorY, this`savedStyle
      ensures Valid() && SameBuffers() && Mode() == NextEscape(old(Mode()), b)
      ensures useAltScreen == old(useAltScreen) && (useAltScreen ==> MainKept())
      ensures cells == old(cells) && (b != 'M' as int ==> Grid(cells) == old(Grid(cells)))
      ensures b == '8' as int ==> cursorX == old(savedCursorX) && cursorY == old(savedCursorY)
      ensures old(OnScreen() && SavedOnScreen()) ==> OnScreen() && SavedOnScreen()
      ensures Abs() == EscapeByte(old(Abs()), b)
    {
      hide ScreenOk, Grid, Row, EscapeByte, NextEscape;
      OtherEscapesShowNothing(b);
      StartSequence(b);
      if b in {'7' as int, '8' as int, 'M' as int} {
        CursorEscape(b);
      }
    }

    lemma OtherEscapesShowNothing(b: Byte)
      requires Valid()
      ensures b !in {'7' as int, '8' as int, 'M' as int} ==> EscapeByte(Abs(), b) == Abs()
    {
    }

    /** What follows the escape starts a longer sequence, or ends this one. */
    method StartSequence(b: Byte)
      modifies this`parseState, this`escapeSeq, this`csiIntermediate, this`expectingCharSet
      ensures Mode() == NextEscape(old(Mode()), b)
    {
      if b == '[' as int {
        parseState, escapeSeq, csiIntermediate := CSI, [], 0;
      } else if b == '(' as int {
        expectingCharSet, parseState := true, Normal;
      } else if b == 'P' as int {
        parseState, escapeSeq := DCS, [];
      } else if b == ']' as int {
        parseState, escapeSeq := OSC, [];
      } else {
        parseState := Normal;
      }
    }

    /** A final byte is dispatched unless an intermediate byte came before it. */
    predicate Dispatches(b: Byte)
      reads this
    {
      parseState == CSI && IsFinal(b) && csiIntermediate == 0
    }

    /** The byte ends a sequence that moves the cursor off the screen. */
    predicate Strays(b: Byte)
      reads this
    {
      Dispatches(b) && LeavesScreen(b, ParseCSIParams(escapeSeq))
    }

    method HandleCSI(b: Byte) returns (crashed: bool)
      requires Valid() && parseState == CSI
      modifies this, cells
      ensures crashed == old(Dispatches(b) && Crashes(b, ParseCSIParams(escapeSeq)))
      ensures Valid() && SameBuffers() && (!crashed ==> Mode() == NextCSI(old(Mode()), b))
      ensures crashed ==> useAltScreen == old(useAltScreen)
      ensures old(useAltScreen) || useAltScreen ==> MainKept()
      ensures old(OnScreen() && SavedOnScreen()) ==> SavedOnScreen() && OnScreen() == !old(Strays(b))
      ensures !crashed ==> Abs() == CSIByte(Codes(), old(Abs()), old(Mode()), b)
    {
      hide ScreenOk, Grid, Commanded, Crashes, LeavesScreen, ParseCSIParams;
      crashed := false;
      if 0x30 <= b <= 0x3f {
        escapeSeq := escapeSeq + [b];
      } else if 0x20 <= b <= 0x2f {
        csiIntermediate := b;
      } else if IsFinal(b) {
        if csiIntermediate == 0 {
          crashed := ExecuteCSI(b);
          if crashed { return; }
        }
        parseState, csiIntermediate := Normal, 0;
      } else {
        parseState, csiIntermediate := Normal, 0;
      }
    }

    /** A byte in the normal state: part of a longer character, or a character of its own. */
    method WriteNormal(b: Byte)
      requires Valid() && parseState == Normal
      modifies cells, this`utf8Buffer, this`parseState, this`escapeSeq, this`expectingCharSet, this`cursorX,
               this`cursorY, this`latentWrap, this`history, this`viewOffset, this`totalLinesScrolled
      ensures Valid() && SameBuffers() && Mode() == NextNormal(fullRune, old(Mode()), b)
      ensures useAltScreen == old(useAltScreen) && (useAltScreen ==> MainKept())
      ensures old(OnScreen() && SavedOnScreen()) ==> OnScreen() && SavedOnScreen()
      ensures Abs() == NormalByte(Codes(), old(Abs()), old(Mode()), b)
    {
      hide ScreenOk, Grid, NormalByte, NextNormal;
      if |utf8Buffer| > 0 || b >= 128 {
        BufferByte(b);
      } else {
        HandleNormal(b);
      }
    }

    /** One more byte of a character that takes several. */
    method BufferByte(b: Byte)
      requires Valid() && (|utf8Buffer| > 0 || b >= 128)
      modifies cells, this`utf8Buffer, this`cursorX, this`cursorY, this`latentWrap, this`history, this`viewOffset,
               this`totalLinesScrolled
      ensures Valid() && Mode() == NextNormal(fullRune, old(Mode()), b)
      ensures useAltScreen ==> HistoryKept()
      ensures old(OnScreen()) ==> OnScreen()
      ensures Abs() == NormalByte(Codes(), old(Abs()), old(Mode()), b)
    {
      hide ScreenOk, Grid, Put;
      utf8Buffer := utf8Buffer + [b];
      if fullRune(utf8Buffer) {
        var r := decodeRune(utf8Buffer);
        utf8Buffer := [];
        PutChar(r);
      }
    }

    /** One byte: the parser moves as specified, and whatever happens on the alternate screen, on entering it or
        on leaving it leaves the main screen, its history and the view alone. It crashes exactly as stated, in
        any state; and a cursor on the screen stays there except when a relative movement overflows its sum. */
    method WriteByte(b: Byte) returns (crashed: bool)
      requires Valid()
      modifies this, cells
      ensures crashed == old(Dispatches(b) && Crashes(b, ParseCSIParams(escapeSeq)))
      ensures Valid() && SameBuffers() && (!crashed ==> Mode() == Next(fullRune, old(Mode()), b))
      ensures old(useAltScreen) || useAltScreen ==> MainKept()
      ensures old(OnScreen() && SavedOnScreen()) ==> SavedOnScreen() && OnScreen() == !old(Strays(b))
      ensures !crashed ==> Abs() == ByteOn(Codes(), old(Abs()), old(Mode()), b)
    {
      hide ParseCSIParams, Grid, Crashes, LeavesScreen, NextNormal, NextEscape, NextCSI;
      crashed := false;
      match parseState {
        case Normal => WriteNormal(b);
        case Escape => HandleEscape(b);
        case CSI => crashed := HandleCSI(b);
        case DCS =>
          if b == ESC { parseState := Escape; }
        case OSC =>
          if b == ESC { parseState := Escape; }
          else if b == BEL { parseState := Normal; }
      }
    }

    /** Any bytes. An excursion to the alternate screen, whatever is written there, leaves the main screen, its
        history and the view as they were. */
    method Write(data: seq<Byte>) returns (crashed: bool)
      requires Valid()
      modifies this, cells, if useAltScreen then {mainScreen} else {}
      ensures !crashed ==> Valid() && Mode() == After(fullRune, old(Mode()), data)
      ensures !crashed && Excursion(fullRune, old(Mode()), data) ==> MainKept()
      ensures !crashed ==> Abs() == Written(Codes(), old(Abs()), old(Mode()), data)
    {
      crashed := false;
      assert data[..|data|] == data && After(fullRune, old(Mode()), []) == old(Mode());
      hide Next, Grid, Row, Excursion, After, CursorOk, MainGrid;
      for n := 0 to |data|
        invariant Valid() && SameBuffers()
        invariant Mode() == After(fullRune, old(Mode()), data[..n])
        invariant Abs() == Written(Codes(), old(Abs()), old(Mode()), data[..n])
        invariant Excursion(fullRune, old(Mode()), data[..n]) ==> MainKept()
      {
        crashed := WriteByte(data[n]);
        if crashed {
          return;
        }
        AfterNext(fullRune, old(Mode()), data, n);
        WrittenNext(Codes(), old(Abs()), old(Mode()), data, n);
        if Excursion(fullRune, old(Mode()), data[..n + 1]) {
          ExcursionPrefix(fullRune, old(Mode()), data, n);
        }
      }
    }

    /** A user looking at the main screen before and after an excursion sees the same cells. */
    twostate lemma SameView()
      requires old(Valid()) && Valid() && !old(useAltScreen) && !useAltScreen && MainKept()
      ensures forall x, y :: GetCell(x, y) == old(GetCell(x, y))
    {
      forall y, x | 0 <= y < height && 0 <= x < width ensures cells[y, x] == old(cells[y, x]) {
        assert cells[y, x] == Grid(cells)[y][x] && old(cells[y, x]) == old(Grid(cells))[y][x];
      }
    }
  }
}
