/** What the editing commands of the terminal undo of each other: the difference is always a block of blanks. */
module TerminalEdits {
  import opened TerminalParser
  import opened TerminalScreen

  /** Screen r is s with the rows from top up to bottom blank in the columns from left up to right. */
  ghost predicate Blanked(s: Screen, r: Screen, top: int, bottom: int, left: int, right: int)
    requires ScreenOk(s)
  {
    && r == s.(grid := r.grid) && GridOk(r.grid, s.width, s.height)
    && forall i, x :: 0 <= i < s.height && 0 <= x < s.width ==>
         r.grid[i][x] == if top <= i < bottom && left <= x < right then Blank(s.style) else s.grid[i][x]
  }

  /** The rows likewise, whole. */
  ghost predicate RowsBlanked(s: Screen, r: Screen, top: int, bottom: int)
    requires ScreenOk(s)
  {
    && r == s.(grid := r.grid) && |r.grid| == s.height
    && forall i :: 0 <= i < s.height ==> r.grid[i] == if top <= i < bottom then BlankLine(s) else s.grid[i]
  }

  // ----- In the cursor's row -----

  lemma EditedAt(s: Screen, command: Byte, n: nat, i: int, x: int)
    requires ScreenOk(s) && command in {'@' as int, 'P' as int, 'X' as int, 'J' as int, 'K' as int}
    requires 0 <= i < s.height && 0 <= x < s.width
    ensures GridOk(Edited(s, command, [n]).grid, s.width, s.height)
    ensures Edited(s, command, [n]) == s.(grid := Edited(s, command, [n]).grid)
    ensures Edited(s, command, [n]).grid[i][x] == EditedCell(s, command, n, i, x)
  {
  }

  lemma Erases(s: Screen, n: nat)
    requires ScreenOk(s)
    ensures Blanked(s, Edited(s, 'X' as int, [n]), s.at.y, s.at.y + 1, s.at.x, s.at.x + n)
  {
    var r := Edited(s, 'X' as int, [n]);
    EditedAt(s, 'X' as int, n, 0, 0);
    forall i, x | 0 <= i < s.height && 0 <= x < s.width
      ensures r.grid[i][x] ==
              if s.at.y <= i < s.at.y + 1 && s.at.x <= x < s.at.x + n then Blank(s.style) else s.grid[i][x]
    {
      EditedAt(s, 'X' as int, n, i, x);
    }
  }

  /** Deleting characters at the cursor and inserting as many erases them. */
  lemma DeleteThenInsert(s: Screen, n: nat)
    requires ScreenOk(s) && OnGrid(s, s.at.x, s.at.y)
    ensures Blanked(s, Edited(Edited(s, 'P' as int, [n]), '@' as int, [n]), s.at.y, s.at.y + 1, s.at.x, s.at.x + n)
  {
    var mid := Edited(s, 'P' as int, [n]);
    var r := Edited(mid, '@' as int, [n]);
    EditedAt(s, 'P' as int, n, 0, 0);
    EditedAt(mid, '@' as int, n, 0, 0);
    forall i, x | 0 <= i < s.height && 0 <= x < s.width
      ensures r.grid[i][x] ==
              if s.at.y <= i < s.at.y + 1 && s.at.x <= x < s.at.x + n then Blank(s.style) else s.grid[i][x]
    {
      EditedAt(mid, '@' as int, n, i, x);
      EditedAt(s, 'P' as int, n, i, x);
      if x >= n { EditedAt(s, 'P' as int, n, i, x - n); }
      hide Edited;
    }
    hide Edited;
  }

  /** Inserting and deleting as many loses only what was pushed past the margin. */
  lemma InsertThenDelete(s: Screen, n: nat)
    requires ScreenOk(s) && OnGrid(s, s.at.x, s.at.y) && s.at.x + n <= s.width
    ensures Blanked(s, Edited(Edited(s, '@' as int, [n]), 'P' as int, [n]), s.at.y, s.at.y + 1, s.width - n, s.width)
  {
    var mid := Edited(s, '@' as int, [n]);
    var r := Edited(mid, 'P' as int, [n]);
    EditedAt(s, '@' as int, n, 0, 0);
    EditedAt(mid, 'P' as int, n, 0, 0);
    forall i, x | 0 <= i < s.height && 0 <= x < s.width
      ensures r.grid[i][x] ==
              if s.at.y <= i < s.at.y + 1 && s.width - n <= x < s.width then Blank(s.style) else s.grid[i][x]
    {
      EditedAt(mid, 'P' as int, n, i, x);
      EditedAt(s, '@' as int, n, i, x);
      if x + n < s.width { EditedAt(s, '@' as int, n, i, x + n); }
      hide Edited;
    }
    hide Edited;
  }

  /** Erasing in the cursor's row: from the cursor on, up to and with the cursor, or all of it. */
  lemma ErasesLine(s: Screen, mode: nat)
    requires ScreenOk(s) && mode <= 2
    ensures Blanked(s, Edited(s, 'K' as int, [mode]), s.at.y, s.at.y + 1, if mode == 0 then s.at.x else 0,
                    if mode == 1 then s.at.x + 1 else s.width)
  {
    var r := Edited(s, 'K' as int, [mode]);
    EditedAt(s, 'K' as int, mode, 0, 0);
    forall i, x | 0 <= i < s.height && 0 <= x < s.width
      ensures r.grid[i][x] == EditedCell(s, 'K' as int, mode, i, x)
    {
      EditedAt(s, 'K' as int, mode, i, x);
    }
    hide Edited;
  }

  /** Erasing the display: what erasing in the row does, and all rows below it, or above it; or everything. */
  lemma ErasesDisplay(s: Screen, mode: nat)
    requires ScreenOk(s) && mode <= 3
    ensures mode == 0 ==>
              Blanked(Edited(s, 'K' as int, [0]), Edited(s, 'J' as int, [0]), s.at.y + 1, s.height, 0, s.width)
    ensures mode == 1 ==> Blanked(Edited(s, 'K' as int, [1]), Edited(s, 'J' as int, [1]), 0, s.at.y, 0, s.width)
    ensures mode >= 2 ==> Blanked(s, Edited(s, 'J' as int, [mode]), 0, s.height, 0, s.width)
  {
    var line, r := Edited(s, 'K' as int, [mode]), Edited(s, 'J' as int, [mode]);
    EditedAt(s, 'J' as int, mode, 0, 0);
    EditedAt(s, 'K' as int, mode, 0, 0);
    forall i, x | 0 <= i < s.height && 0 <= x < s.width
      ensures r.grid[i][x] == EditedCell(s, 'J' as int, mode, i, x)
      ensures line.grid[i][x] == EditedCell(s, 'K' as int, mode, i, x)
    {
      EditedAt(s, 'J' as int, mode, i, x);
      EditedAt(s, 'K' as int, mode, i, x);
    }
    hide Edited;
  }

  // ----- Rows -----

  function Edge(a: int, b: int): int {
    if a > b then a else b
  }

  lemma UpThenDown(g: GridOf, top: int, bottom: int, n: nat, blank: seq<Cell>)
    requires 0 <= top <= bottom < |g|
    ensures var r := MovedDown(MovedUp(g, top, bottom, n, blank), top, bottom, n, blank);
            && |r| == |g|
            && forall i :: 0 <= i < |g| ==> r[i] == if top <= i < top + n && i <= bottom then blank else g[i]
  {
  }

  lemma DownThenUp(g: GridOf, top: int, bottom: int, n: nat, blank: seq<Cell>)
    requires 0 <= top <= bottom < |g|
    ensures var r := MovedUp(MovedDown(g, top, bottom, n, blank), top, bottom, n, blank);
            && |r| == |g|
            && forall i :: 0 <= i < |g| ==> r[i] == if bottom - n < i <= bottom && top <= i then blank else g[i]
  {
  }

  /** Deleting rows at the cursor and inserting as many blanks them; inserting and deleting as many blanks the last ones
      of the region. */
  lemma LinesUndone(s: Screen, n: nat)
    requires ScreenOk(s) && s.region.top <= s.at.y <= s.region.bottom
    ensures RowsBlanked(s, Edited(Edited(s, 'M' as int, [n]), 'L' as int, [n]), s.at.y,
                        if s.at.y + n <= s.region.bottom then s.at.y + n else s.region.bottom + 1)
    ensures RowsBlanked(s, Edited(Edited(s, 'L' as int, [n]), 'M' as int, [n]), Edge(s.at.y, s.region.bottom + 1 - n),
                        s.region.bottom + 1)
  {
    UpThenDown(s.grid, s.at.y, s.region.bottom, n, BlankLine(s));
    DownThenUp(s.grid, s.at.y, s.region.bottom, n, BlankLine(s));
    hide MovedUp, MovedDown;
  }

  /** Where the cursor is not in the region, neither does anything. */
  lemma LinesOnlyInRegion(s: Screen, n: nat)
    requires ScreenOk(s) && !(s.region.top <= s.at.y <= s.region.bottom)
    ensures Edited(s, 'M' as int, [n]) == s && Edited(s, 'L' as int, [n]) == s
  {
  }

  /** Scrolling n times moves the rows of the region up by n, and the history keeps what leaves the main screen. */
  lemma {:induction false} ScrolledRows(s: Screen, n: nat)
    requires ScreenOk(s) && s.region.top < s.region.bottom
    ensures var r := ScrolledUpBy(s, n);
            && r == s.(grid := r.grid, past := r.past)
            && r.grid == MovedUp(s.grid, s.region.top, s.region.bottom, n, BlankLine(s))
            && r.past.scrolled == s.past.scrolled + if s.region.top == 0 && !s.alt then n else 0
  {
    MovedUpMore(s.grid, s.region.top, s.region.bottom, if n > 0 then n - 1 else 0, BlankLine(s));
    if n > 0 {
      ScrolledRows(s, n - 1);
    }
    hide MovedUp;
  }

  /** Scrolling up and down by as many rows, or down and up, blanks those rows at the top of the region, or at its
      bottom, and changes nothing else on the screen. */
  lemma ScrollsUndone(s: Screen, n: nat)
    requires ScreenOk(s) && s.region.top < s.region.bottom
    ensures var r := Edited(Edited(s, 'S' as int, [n]), 'T' as int, [n]);
            RowsBlanked(s.(past := r.past), r, s.region.top,
                        if s.region.top + n <= s.region.bottom then s.region.top + n else s.region.bottom + 1)
    ensures var r := Edited(Edited(s, 'T' as int, [n]), 'S' as int, [n]);
            RowsBlanked(s.(past := r.past), r, Edge(s.region.top, s.region.bottom + 1 - n), s.region.bottom + 1)
  {
    UpThenDown(s.grid, s.region.top, s.region.bottom, n, BlankLine(s));
    DownThenUp(s.grid, s.region.top, s.region.bottom, n, BlankLine(s));
    ScrolledRows(s, n);
    ScrolledRows(ScrolledDown(s, n), n);
    hide MovedUp, MovedDown, ScrolledUpBy;
  }

  // ----- The cursor -----

  /** A tab leads to the next column that is a multiple of 8, or else to the last one. */
  lemma TabStops(s: Screen)
    requires ScreenOk(s) && OnGrid(s, s.at.x, s.at.y)
    ensures var r := Typed(s, 0x09);
            && r == s.(at := Cursor(r.at.x, s.at.y, false)) && s.at.x <= r.at.x < s.width
            && (forall x :: s.at.x < x < r.at.x ==> x % 8 != 0)
            && (if r.at.x % 8 == 0 then r.at.x > s.at.x || r.at.x == s.width - 1 else r.at.x == s.width - 1)
  {
  }

  /** Moving there and back, as far as the screen reaches. */
  lemma MovesUndone(s: Screen, n: nat)
    requires ScreenOk(s) && OnGrid(s, s.at.x, s.at.y)
    ensures s.at.x + n < s.width ==> BackAgain(s, 'C' as int, 'D' as int, n)
    ensures n <= s.at.x ==> BackAgain(s, 'D' as int, 'C' as int, n)
    ensures s.at.y + n < s.height ==> BackAgain(s, 'B' as int, 'A' as int, n)
    ensures n <= s.at.y ==> BackAgain(s, 'A' as int, 'B' as int, n)
  {
  }

  predicate BackAgain(s: Screen, go: Byte, back: Byte, n: nat)
    requires ScreenOk(s)
  {
    n <= MAX_INT && Moved(Moved(s, go, n, 1), back, n, 1).at == Cursor(s.at.x, s.at.y, false)
  }
}
