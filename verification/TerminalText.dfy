/** Text on the terminal's screen: written bytes that are characters fill the rows in reading order, wrap at the margin
    and scroll the region, and no character is lost on the way to the history. */
module TerminalText {
  import opened TerminalParser
  import opened TerminalScreen

  // ----- Bytes that are text -----

  /** The characters a byte completes: none while a longer one is incomplete. */
  function RunesOf(c: Coding, p: Parser, b: Byte): seq<int> {
    if |p.utf8Buffer| == 0 && b < 128 then [b]
    else if c.fullRune(p.utf8Buffer + [b]) then [c.decodeRune(p.utf8Buffer + [b])] else []
  }

  function Runes(c: Coding, p: Parser, data: seq<Byte>): seq<int> {
    if data == [] then []
    else
      var front := data[..|data| - 1];
      Runes(c, p, front) + RunesOf(c, After(c.fullRune, p, front), data[|data| - 1])
  }

  /** Every byte is part of a longer character, or a character that prints. */
  ghost predicate IsText(c: Coding, p: Parser, data: seq<Byte>) {
    && p.state == Normal && !p.expectingCharSet
    && forall i :: 0 <= i < |data| ==> data[i] >= 32 || |After(c.fullRune, p, data[..i]).utf8Buffer| > 0
  }

  lemma TextFront(c: Coding, p: Parser, data: seq<Byte>)
    requires data != [] && IsText(c, p, data)
    ensures IsText(c, p, data[..|data| - 1])
  {
    var front := data[..|data| - 1];
    assert forall i :: 0 <= i < |front| ==> front[..i] == data[..i];
  }

  lemma {:induction false} TextStaysNormal(c: Coding, p: Parser, data: seq<Byte>)
    requires IsText(c, p, data)
    ensures var q := After(c.fullRune, p, data); q.state == Normal && !q.expectingCharSet
  {
    if data != [] {
      TextFront(c, p, data);
      TextStaysNormal(c, p, data[..|data| - 1]);
    }
  }

  function PutAll(s: Screen, rs: seq<int>): (r: Screen)
    requires ScreenOk(s)
    ensures ScreenOk(r)
  {
    if rs == [] then s else Put(PutAll(s, rs[..|rs| - 1]), rs[|rs| - 1])
  }

  /** A byte of text puts the character it completes, if any. */
  lemma TextByteIsPut(c: Coding, s: Screen, p: Parser, b: Byte)
    requires ScreenOk(s) && p.state == Normal && !p.expectingCharSet && (b >= 32 || |p.utf8Buffer| > 0)
    ensures |RunesOf(c, p, b)| <= 1
    ensures ByteOn(c, s, p, b) == if RunesOf(c, p, b) == [] then s else Put(s, RunesOf(c, p, b)[0])
  {
    hide Put, ScreenOk;
  }

  /** One more character, if the last byte completes one. */
  lemma PutOneMore(s: Screen, before: seq<int>, more: seq<int>)
    requires ScreenOk(s) && |more| <= 1
    ensures PutAll(s, before + more) == if more == [] then PutAll(s, before) else Put(PutAll(s, before), more[0])
  {
    hide Put, ScreenOk;
    if more == [] {
      assert before + more == before;
    } else {
      assert (before + more)[..|before|] == before && (before + more)[|before|] == more[0];
    }
  }

  lemma LastByteOfText(c: Coding, p: Parser, data: seq<Byte>)
    requires data != [] && IsText(c, p, data)
    ensures var q := After(c.fullRune, p, data[..|data| - 1]);
            && q.state == Normal && !q.expectingCharSet
            && (data[|data| - 1] >= 32 || |q.utf8Buffer| > 0)
  {
    TextFront(c, p, data);
    TextStaysNormal(c, p, data[..|data| - 1]);
    hide After;
  }

  /** Writing text is putting its characters, one after the other. */
  lemma {:induction false} TextIsPut(c: Coding, s: Screen, p: Parser, data: seq<Byte>)
    requires ScreenOk(s) && IsText(c, p, data)
    ensures Written(c, s, p, data) == PutAll(s, Runes(c, p, data))
  {
    hide Put, ScreenOk, ByteOn, RunesOf, IsText, After;
    if data != [] {
      var n := |data| - 1;
      TextFront(c, p, data);
      TextIsPut(c, s, p, data[..n]);
      LastByteOfText(c, p, data);
      var q, before := After(c.fullRune, p, data[..n]), Runes(c, p, data[..n]);
      TextByteIsPut(c, PutAll(s, before), q, data[n]);
      PutOneMore(s, before, RunesOf(c, q, data[n]));
      hide PutAll;
    }
  }

  // ----- Where the characters go -----

  /** How many characters after the cursor of s the place in this column of this row lies, reading on from row to row.
      Rows count on where the region scrolls. */
  function Offset(s: Screen, row: int, column: int): int {
    (row - s.at.y) * s.width + column - s.at.x
  }

  lemma SameOffset(s: Screen, row: int, column: int, row': int, column': int)
    requires 0 <= column < s.width && 0 <= column' < s.width
    ensures Offset(s, row, column) == Offset(s, row', column') <==> row == row' && column == column'
  {
    RowApart(row - row', s.width);
    assert (row - s.at.y) * s.width == (row' - s.at.y) * s.width + (row - row') * s.width by {
      Distribute(row - row', row' - s.at.y, s.width);
    }
  }

  lemma Distribute(a: int, b: int, w: int)
    ensures (a + b) * w == a * w + b * w
  {
  }

  lemma RowApart(rows: int, w: nat)
    ensures rows > 0 ==> rows * w >= w
    ensures rows < 0 ==> rows * w + w <= 0
    ensures rows == 0 ==> rows * w == 0
  {
    if rows > 0 {
      Distribute(rows - 1, 1, w);
      NotNegative(rows - 1, w);
    } else if rows < 0 {
      Distribute(rows + 1, -1, w);
      NotNegative(-(rows + 1), w);
      assert (rows + 1) * w == -((-(rows + 1)) * w);
    }
  }

  lemma NotNegative(a: nat, w: nat)
    ensures a * w >= 0
  {
  }

  lemma NextRow(s: Screen, row: int)
    ensures Offset(s, row + 1, 0) == Offset(s, row, s.width - 1) + 1
  {
    Distribute(row - s.at.y, 1, s.width);
  }

  /** The rows the text and the screen make together, without an end: the text from the cursor of s on, below and above
      it what s shows, and blanks where s shows nothing. */
  function Tape(s: Screen, rs: seq<int>, row: nat, column: nat): Cell
    requires ScreenOk(s) && column < s.width
  {
    var k := Offset(s, row, column);
    if 0 <= k < |rs| then Cell(rs[k], s.style)
    else if row <= s.region.bottom then s.grid[row][column] else Blank(s.style)
  }

  /** What is shown at a place when the region has scrolled by that many rows. */
  function ShownCell(s: Screen, rs: seq<int>, scrolled: nat, i: nat, j: nat): Cell
    requires ScreenOk(s) && i < s.height && j < s.width
  {
    if i > s.region.bottom then s.grid[i][j]
    else Tape(s, rs, if i >= s.region.top then i + scrolled else i, j)
  }

  function TapeRow(s: Screen, rs: seq<int>, row: nat): seq<Cell>
    requires ScreenOk(s)
  {
    seq(s.width, j requires 0 <= j < s.width => Tape(s, rs, row, j))
  }

  function TapeRows(s: Screen, rs: seq<int>, n: nat): seq<seq<Cell>>
    requires ScreenOk(s)
  {
    seq(n, row requires 0 <= row < n => TapeRow(s, rs, row))
  }

  /** The last lines, as many as the history holds. */
  function Newest(lines: seq<seq<Cell>>): seq<seq<Cell>> {
    if |lines| > HISTORY_SIZE then lines[|lines| - HISTORY_SIZE..] else lines
  }

  /** The rows that left the top of the main screen are the newest lines of the history, in order. */
  ghost predicate PastShows(s: Screen, rs: seq<int>, scrolled: nat, r: Screen)
    requires ScreenOk(s)
  {
    if s.region.top == 0 && !s.alt
    then r.past == Past(Newest(s.past.lines + TapeRows(s, rs, scrolled)),
                        if s.past.offset > 0 then s.past.offset + scrolled else s.past.offset,
                        s.past.scrolled + scrolled)
    else r.past == s.past
  }

  /** Screen r shows screen s with the characters written from its cursor on. */
  ghost predicate Shows(s: Screen, rs: seq<int>, scrolled: nat, r: Screen)
    requires ScreenOk(s)
  {
    && ScreenOk(r) && r == s.(grid := r.grid, at := r.at, past := r.past)
    && (forall i, j :: 0 <= i < s.height && 0 <= j < s.width ==> r.grid[i][j] == ShownCell(s, rs, scrolled, i, j))
    && CursorAfter(s, rs, scrolled, r) && PastShows(s, rs, scrolled, r)
  }

  /** The cursor is at the place after the last character, or still at the margin with the wrap pending. */
  predicate CursorAfter(s: Screen, rs: seq<int>, scrolled: nat, r: Screen) {
    && 0 <= r.at.x < s.width && 0 <= r.at.y <= s.region.bottom && (scrolled > 0 ==> r.at.y == s.region.bottom)
    && Offset(s, r.at.y + scrolled, r.at.x) == |rs| - (if r.at.wrap then 1 else 0)
    && (r.at.wrap ==> r.at.x == s.width - 1)
  }

  /** Where text can be written: the cursor is on the screen and not below the region. */
  predicate CanWrite(s: Screen) {
    && ScreenOk(s) && OnGrid(s, s.at.x, s.at.y) && !s.at.wrap && s.at.y <= s.region.bottom
    && |s.past.lines| <= HISTORY_SIZE
  }

  /** The characters fit between the cursor and the end of the region, or the region can scroll. */
  predicate FitsOrScrolls(s: Screen, rs: seq<int>) {
    s.region.top < s.region.bottom || s.at.x + |rs| <= (s.region.bottom + 1 - s.at.y) * s.width
  }

  // ----- One more character -----

  lemma OneMoreOnTape(s: Screen, rs: seq<int>, ch: int, row: nat, column: nat)
    requires ScreenOk(s) && column < s.width
    ensures Tape(s, rs + [ch], row, column) ==
            if Offset(s, row, column) == |rs| then Cell(ch, s.style) else Tape(s, rs, row, column)
  {
  }

  lemma PutShowsCells(s: Screen, rs: seq<int>, scrolled: nat, r: Screen, ch: int)
    requires CanWrite(s) && Shows(s, rs, scrolled, r) && !r.at.wrap
    ensures forall i, j :: 0 <= i < s.height && 0 <= j < s.width ==>
              PutAt(r, ch).grid[i][j] == ShownCell(s, rs + [ch], scrolled, i, j)
  {
    hide Tape, Offset, PastShows;
    forall i, j | 0 <= i < s.height && 0 <= j < s.width
      ensures PutAt(r, ch).grid[i][j] == ShownCell(s, rs + [ch], scrolled, i, j)
    {
      var row := if i >= s.region.top then i + scrolled else i;
      OneMoreOnTape(s, rs, ch, row, j);
      SameOffset(s, row, j, r.at.y + scrolled, r.at.x);
    }
  }

  lemma PutShowsPast(s: Screen, rs: seq<int>, scrolled: nat, r: Screen, ch: int)
    requires CanWrite(s) && Shows(s, rs, scrolled, r) && !r.at.wrap
    ensures TapeRows(s, rs + [ch], scrolled) == TapeRows(s, rs, scrolled)
  {
    hide Tape, Offset, ShownCell, ScreenOk, PastShows;
    forall row, j | 0 <= row < scrolled && 0 <= j < s.width ensures Tape(s, rs + [ch], row, j) == Tape(s, rs, row, j) {
      OneMoreOnTape(s, rs, ch, row, j);
      SameOffset(s, row, j, r.at.y + scrolled, r.at.x);
    }
    forall row | 0 <= row < scrolled ensures TapeRow(s, rs + [ch], row) == TapeRow(s, rs, row) {
      assert forall j :: 0 <= j < s.width ==> Tape(s, rs + [ch], row, j) == Tape(s, rs, row, j);
    }
  }

  lemma PutShows(s: Screen, rs: seq<int>, scrolled: nat, r: Screen, ch: int)
    requires CanWrite(s) && Shows(s, rs, scrolled, r) && !r.at.wrap
    ensures Shows(s, rs + [ch], scrolled, PutAt(r, ch))
  {
    PutShowsCells(s, rs, scrolled, r, ch);
    PutShowsPast(s, rs, scrolled, r, ch);
    hide ShownCell, TapeRows;
  }

  // ----- A new row -----

  lemma BeyondTextBlank(s: Screen, rs: seq<int>, row: nat, j: nat)
    requires ScreenOk(s) && row > s.region.bottom && j < s.width && Offset(s, row, 0) >= |rs|
    ensures Tape(s, rs, row, j) == Blank(s.style)
  {
    assert Offset(s, row, j) == Offset(s, row, 0) + j;
  }

  lemma ScrollShowsCells(s: Screen, rs: seq<int>, scrolled: nat, r: Screen)
    requires CanWrite(s) && Shows(s, rs, scrolled, r) && r.at.wrap && r.at.y == s.region.bottom
    requires s.region.top < s.region.bottom
    ensures forall i, j :: 0 <= i < s.height && 0 <= j < s.width ==>
              ScrolledUp(r).grid[i][j] == ShownCell(s, rs, scrolled + 1, i, j)
  {
    var bottom := s.region.bottom;
    NextRow(s, bottom + scrolled);
    hide Tape, Offset, PastShows;
    forall i, j | 0 <= i < s.height && 0 <= j < s.width
      ensures ScrolledUp(r).grid[i][j] == ShownCell(s, rs, scrolled + 1, i, j)
    {
      if s.region.top <= i < bottom {
        assert r.grid[i + 1][j] == ShownCell(s, rs, scrolled, i + 1, j);
      } else if i == bottom {
        BeyondTextBlank(s, rs, bottom + scrolled + 1, j);
      }
    }
  }

  lemma NewestMore(lines: seq<seq<Cell>>, line: seq<Cell>)
    ensures Newest(Newest(lines) + [line]) == Newest(lines + [line])
  {
  }

  lemma TopRowIs(s: Screen, rs: seq<int>, scrolled: nat, r: Screen)
    requires ScreenOk(s) && Shows(s, rs, scrolled, r) && s.region.top == 0
    ensures r.grid[0] == TapeRow(s, rs, scrolled)
  {
    hide Tape, Offset, PastShows, CursorAfter;
    assert forall j :: 0 <= j < s.width ==> r.grid[0][j] == ShownCell(s, rs, scrolled, 0, j);
  }

  lemma OneMoreRow(s: Screen, rs: seq<int>, n: nat)
    requires ScreenOk(s)
    ensures TapeRows(s, rs, n + 1) == TapeRows(s, rs, n) + [TapeRow(s, rs, n)]
  {
    hide Tape, TapeRow, ScreenOk;
  }

  lemma ScrollShowsPast(s: Screen, rs: seq<int>, scrolled: nat, r: Screen)
    requires CanWrite(s) && Shows(s, rs, scrolled, r) && s.region.top < s.region.bottom
    ensures PastShows(s, rs, scrolled + 1, ScrolledUp(r))
  {
    if s.region.top == 0 && !s.alt {
      TopRowIs(s, rs, scrolled, r);
      OneMoreRow(s, rs, scrolled);
      var lines, line := s.past.lines + TapeRows(s, rs, scrolled), TapeRow(s, rs, scrolled);
      NewestMore(lines, line);
      hide Tape, ShownCell, TapeRow, TapeRows, Newest, ScreenOk, CursorAfter;
      assert s.past.lines + TapeRows(s, rs, scrolled + 1) == lines + [line];
      PushedNewest(lines, line, r.past);
    }
  }

  lemma PushedNewest(lines: seq<seq<Cell>>, line: seq<Cell>, p: Past)
    requires p.lines == Newest(lines)
    ensures Pushed(p, line).lines == Newest(Newest(lines) + [line])
  {
  }

  lemma NewLineShows(s: Screen, rs: seq<int>, scrolled: nat, r: Screen) returns (scrolled': nat)
    requires CanWrite(s) && Shows(s, rs, scrolled, r) && r.at.wrap
    requires r.at.y == s.region.bottom ==> s.region.top < s.region.bottom
    ensures Shows(s, rs, scrolled', NewLined(r)) && !NewLined(r).at.wrap
    ensures scrolled' == scrolled || s.region.top < s.region.bottom
  {
    NextRow(s, r.at.y + scrolled);
    scrolled' := scrolled;
    if r.at.y == s.region.bottom {
      scrolled' := scrolled + 1;
      ScrollShowsCells(s, rs, scrolled, r);
      ScrollShowsPast(s, rs, scrolled, r);
      hide ShownCell, Offset, PastShows;
    }
  }

  lemma NothingShown(s: Screen)
    requires CanWrite(s)
    ensures Shows(s, [], 0, s)
  {
    assert TapeRows(s, [], 0) == [] && s.past.lines + [] == s.past.lines;
  }

  lemma ScrollsWhenFull(s: Screen, rs: seq<int>, ch: int, r: Screen)
    requires CanWrite(s) && FitsOrScrolls(s, rs + [ch]) && CursorAfter(s, rs, 0, r)
    ensures r.at.wrap && r.at.y == s.region.bottom ==> s.region.top < s.region.bottom
  {
    Distribute(s.region.bottom - s.at.y, 1, s.width);
  }

  lemma PutOneShows(s: Screen, rs: seq<int>, ch: int, scrolled: nat, r: Screen) returns (scrolled': nat)
    requires CanWrite(s) && FitsOrScrolls(s, rs + [ch]) && Shows(s, rs, scrolled, r)
    requires scrolled > 0 ==> s.region.top < s.region.bottom
    ensures Shows(s, rs + [ch], scrolled', Put(r, ch)) && (scrolled' > 0 ==> s.region.top < s.region.bottom)
  {
    if scrolled == 0 { ScrollsWhenFull(s, rs, ch, r); }
    scrolled' := scrolled;
    if r.at.wrap {
      scrolled' := NewLineShows(s, rs, scrolled, r);
    }
    hide NewLined, PutAt, FitsOrScrolls, ScreenOk;
    PutShows(s, rs, scrolled', if r.at.wrap then NewLined(r) else r, ch);
  }

  /** Text of any length: what the screen shows afterwards, and the history, are the rows that the text makes on from
      the cursor, wrapped at the margin, as far as the region reaches; and the cursor is after its last character. */
  lemma {:induction false} PutAllShows(s: Screen, rs: seq<int>) returns (scrolled: nat)
    requires CanWrite(s) && FitsOrScrolls(s, rs)
    ensures Shows(s, rs, scrolled, PutAll(s, rs)) && (scrolled > 0 ==> s.region.top < s.region.bottom)
  {
    if rs == [] {
      scrolled := 0;
      NothingShown(s);
    } else {
      var front, ch := rs[..|rs| - 1], rs[|rs| - 1];
      assert front + [ch] == rs;
      scrolled := PutAllShows(s, front);
      hide Shows, Put, CanWrite, ScreenOk;
      scrolled := PutOneShows(s, front, ch, scrolled, PutAll(s, front));
    }
  }

  lemma TextShows(c: Coding, s: Screen, p: Parser, data: seq<Byte>) returns (scrolled: nat)
    requires CanWrite(s) && IsText(c, p, data) && FitsOrScrolls(s, Runes(c, p, data))
    ensures Shows(s, Runes(c, p, data), scrolled, Written(c, s, p, data))
  {
    TextIsPut(c, s, p, data);
    scrolled := PutAllShows(s, Runes(c, p, data));
    hide Written, PutAll, Shows;
  }
}
