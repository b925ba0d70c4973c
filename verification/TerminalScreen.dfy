/** What the terminal emulator shows, as a value: the grid, the cursor, the history, and what each byte makes of them.
    The methods of the emulator are proved to do this; what it means for whole inputs is proved here. */
module TerminalScreen {
  import opened Common
  import opened TerminalParser

  /** Colours and attributes; how they are encoded does not matter here. */
  type Style = int

  datatype Cell = Cell(rune: int, style: Style)

  type GridOf = seq<seq<Cell>>

  const DEFAULT_STYLE: Style := 0
  const SPACE := 0x20
  const HISTORY_SIZE := 10000
  const MIN_INT := -0x8000_0000_0000_0000

  /** Far above any screen whose cells fit in memory. */
  const MAX_SIZE := 0x7fff_ffff

  predicate IsInt(v: int) {
    MIN_INT <= v <= MAX_INT
  }

  /** The 64-bit value of a sum or difference of two 64-bit values. */
  function Wrap(v: int): (w: int)
    requires 2 * MIN_INT <= v <= 2 * MAX_INT
    ensures IsInt(w) && (w - v) % 0x1_0000_0000_0000_0000 == 0
  {
    if v > MAX_INT then v - 0x1_0000_0000_0000_0000
    else if v < MIN_INT then v + 0x1_0000_0000_0000_0000
    else v
  }

  function Blank(style: Style): Cell {
    Cell(SPACE, style)
  }

  // ----- Rows -----

  /** The rows from top to bottom, moved down by n; what leaves the range is lost, what enters is blank. */
  function MovedDown(g: seq<seq<Cell>>, top: int, bottom: int, n: nat, blank: seq<Cell>): seq<seq<Cell>>
    requires 0 <= top
  {
    seq(|g|, i requires 0 <= i < |g| =>
      if i < top || bottom < i then g[i] else if i - n >= top then g[i - n] else blank)
  }

  function MovedUp(g: seq<seq<Cell>>, top: int, bottom: int, n: nat, blank: seq<Cell>): seq<seq<Cell>>
    requires bottom < |g|
  {
    seq(|g|, i requires 0 <= i < |g| =>
      if i < top || bottom < i then g[i] else if i + n <= bottom then g[i + n] else blank)
  }

  lemma MovedDownMore(g: seq<seq<Cell>>, top: int, bottom: int, n: nat, blank: seq<Cell>)
    requires 0 <= top <= bottom < |g|
    ensures MovedDown(g, top, bottom, 0, blank) == g
    ensures MovedDown(MovedDown(g, top, bottom, n, blank), top, bottom, 1, blank) ==
            MovedDown(g, top, bottom, n + 1, blank)
  {
  }

  lemma MovedUpMore(g: seq<seq<Cell>>, top: int, bottom: int, n: nat, blank: seq<Cell>)
    requires 0 <= top <= bottom < |g|
    ensures MovedUp(g, top, bottom, 0, blank) == g
    ensures MovedUp(MovedUp(g, top, bottom, n, blank), top, bottom, 1, blank) == MovedUp(g, top, bottom, n + 1, blank)
  {
  }

  // ----- The screen -----

  /** `wrap` says that the next character goes to the next row. */
  datatype Cursor = Cursor(x: int, y: int, wrap: bool)

  datatype SavedCursor = SavedCursor(x: int, y: int, style: Style)

  datatype Region = Region(top: int, bottom: int)

  /** The lines that scrolled away, and how far back the view is. */
  datatype Past = Past(lines: seq<seq<Cell>>, offset: int, scrolled: int)

  /** `aside` is the main screen while the alternate one is shown. */
  datatype Screen = Screen(
    width: nat, height: nat, grid: seq<seq<Cell>>, aside: seq<seq<Cell>>, alt: bool,
    at: Cursor, style: Style, saved: SavedCursor, region: Region, past: Past)

  predicate GridOk(g: seq<seq<Cell>>, width: nat, height: nat) {
    |g| == height && forall i :: 0 <= i < height ==> |g[i]| == width
  }

  /** The cursor may be off the screen; only the scrolling region is always on it. */
  predicate ScreenOk(s: Screen) {
    && 0 < s.width <= MAX_SIZE && 0 < s.height <= MAX_SIZE
    && GridOk(s.grid, s.width, s.height) && (if s.alt then GridOk(s.aside, s.width, s.height) else s.aside == [])
    && IsInt(s.at.x) && IsInt(s.at.y) && IsInt(s.saved.x) && IsInt(s.saved.y)
    && 0 <= s.region.top <= s.region.bottom < s.height
  }

  predicate OnGrid(s: Screen, x: int, y: int) {
    0 <= x < s.width && 0 <= y < s.height
  }

  function BlankLine(s: Screen): seq<Cell> {
    seq(s.width, _ => Blank(s.style))
  }

  // ----- Scrolling -----

  /** One more line of history; a view that is back there stays where it is, and the oldest line is lost when there
      are too many. */
  function Pushed(p: Past, line: seq<Cell>): Past {
    var lines := p.lines + [line];
    Past(if |lines| > HISTORY_SIZE then lines[1..] else lines, if p.offset > 0 then p.offset + 1 else p.offset,
         p.scrolled + 1)
  }

  function ScrolledUp(s: Screen): (r: Screen)
    requires ScreenOk(s)
    ensures ScreenOk(r)
  {
    if s.region.top >= s.region.bottom then s
    else s.(grid := MovedUp(s.grid, s.region.top, s.region.bottom, 1, BlankLine(s)),
            past := if s.region.top == 0 && !s.alt then Pushed(s.past, s.grid[0]) else s.past)
  }

  lemma ScrollIgnoresCursor(s: Screen, at: Cursor)
    requires ScreenOk(s) && IsInt(at.x) && IsInt(at.y)
    ensures ScrolledUp(s.(at := at)) == ScrolledUp(s).(at := at)
  {
  }

  function ScrolledUpBy(s: Screen, n: nat): (r: Screen)
    requires ScreenOk(s)
    ensures ScreenOk(r)
  {
    if n == 0 then s else ScrolledUp(ScrolledUpBy(s, n - 1))
  }

  function ScrolledDown(s: Screen, n: nat): (r: Screen)
    requires ScreenOk(s)
    ensures ScreenOk(r)
  {
    if s.region.top >= s.region.bottom then s
    else s.(grid := MovedDown(s.grid, s.region.top, s.region.bottom, n, BlankLine(s)))
  }

  lemma ScrolledDownMore(s: Screen, n: nat)
    requires ScreenOk(s)
    ensures ScrolledDown(s, 0) == s
    ensures ScrolledDown(ScrolledDown(s, n), 1) == ScrolledDown(s, n + 1)
  {
    MovedDownMore(s.grid, s.region.top, s.region.bottom, n, BlankLine(s));
    hide MovedDown;
  }

  // ----- Characters -----

  /** To the start of the next row, scrolling at the bottom of the region. */
  function NewLined(s: Screen): (r: Screen)
    requires ScreenOk(s)
    ensures ScreenOk(r)
  {
    var y := Wrap(s.at.y + 1);
    if y > s.region.bottom then ScrolledUp(s).(at := Cursor(0, s.region.bottom, false))
    else s.(at := Cursor(0, y, false))
  }

  function WithCell(g: seq<seq<Cell>>, y: nat, x: nat, cell: Cell): (r: seq<seq<Cell>>)
    requires y < |g| && x < |g[y]|
  {
    g[y := g[y][x := cell]]
  }

  /** A character is written at the cursor, if that is on the screen; past the last column the wrap is only pending
      until the next one. */
  function Put(s: Screen, ch: int): (r: Screen)
    requires ScreenOk(s)
    ensures ScreenOk(r)
  {
    PutAt(if s.at.wrap then NewLined(s) else s, ch)
  }

  function PutAt(s: Screen, ch: int): (r: Screen)
    requires ScreenOk(s)
    ensures ScreenOk(r)
  {
    var x := Wrap(s.at.x + 1);
    s.(grid := if OnGrid(s, s.at.x, s.at.y) then WithCell(s.grid, s.at.y, s.at.x, Cell(ch, s.style)) else s.grid,
       at := if x >= s.width then Cursor(s.width - 1, s.at.y, true) else Cursor(x, s.at.y, false))
  }

  /** Carriage return, tab and backspace. */
  function MovedInRow(s: Screen, b: Byte): (r: Screen)
    requires ScreenOk(s)
    ensures ScreenOk(r)
  {
    if b == 0x0d then s.(at := Cursor(0, s.at.y, false))
    else if b == 0x09 then
      var stop := Wrap(s.at.x + 8) / 8 * 8;
      s.(at := Cursor(if stop >= s.width then s.width - 1 else stop, s.at.y, false))
    else if b == 0x08 then s.(at := Cursor(if s.at.x > 0 then s.at.x - 1 else s.at.x, s.at.y, false))
    else s
  }

  // ----- Escape sequences -----

  function WithSaved(s: Screen): Screen {
    s.(saved := SavedCursor(s.at.x, s.at.y, s.style))
  }

  function Restored(s: Screen): Screen {
    s.(at := Cursor(s.saved.x, s.saved.y, false), style := s.saved.style)
  }

  function AtLeastZero(v: int): int {
    if v < 0 then 0 else v
  }

  function AtMost(v: int, top: int): int {
    if v > top then top else v
  }

  function ReverseIndexed(s: Screen): (r: Screen)
    requires ScreenOk(s)
    ensures ScreenOk(r)
  {
    if s.at.y == s.region.top then ScrolledDown(s, 1)
    else s.(at := s.at.(y := AtLeastZero(Wrap(s.at.y - 1))))
  }

  // ----- Control sequences -----

  predicate IsTextModification(command: Byte) {
    command in {'@' as int, 'L' as int, 'M' as int, 'P' as int, 'X' as int}
  }

  predicate IsCursorMovement(command: Byte) {
    command in {'A' as int, 'B' as int, 'C' as int, 'D' as int, 'G' as int, 'H' as int, 'f' as int, 'd' as int,
                'e' as int}
  }

  /** The commands that change the cells of the screen shown. */
  predicate IsEdit(command: Byte) {
    IsTextModification(command) || command in {'J' as int, 'K' as int, 'S' as int, 'T' as int}
  }

  function FirstParam(params: seq<nat>, default: nat): nat {
    if |params| > 0 then params[0] else default
  }

  function SecondParam(params: seq<nat>): nat {
    if |params| > 1 then params[1] else 1
  }

  function Clamp(v: int, size: int): int {
    if v < 0 then 0 else if v >= size then size - 1 else v
  }

  /** Which part of the cursor's row, and of the screen, a mode erases. */
  predicate InLineErase(at: Cursor, mode: nat, x: int) {
    (mode == 0 && x >= at.x) || (mode == 1 && x <= at.x) || mode == 2
  }

  predicate InDisplayErase(at: Cursor, mode: nat, y: int, x: int) {
    || (mode == 0 && (y > at.y || (y == at.y && x >= at.x)))
    || (mode == 1 && (y < at.y || (y == at.y && x <= at.x)))
    || mode == 2 || mode == 3
  }

  /** Characters inserted (@), deleted (P) or erased (X) at the cursor, or part of the screen (J) or of the cursor's
      row (K) erased. */
  function EditedCell(s: Screen, command: Byte, n: nat, i: nat, x: nat): Cell
    requires ScreenOk(s) && i < s.height && x < s.width
  {
    var row := s.grid[i];
    if command == 'J' as int then (if InDisplayErase(s.at, n, i, x) then Blank(s.style) else row[x])
    else if i != s.at.y then row[x]
    else if command == 'K' as int then (if InLineErase(s.at, n, x) then Blank(s.style) else row[x])
    else if x < s.at.x then row[x]
    else if command == 'P' as int then (if x + n < s.width then row[x + n] else Blank(s.style))
    else if x < s.at.x + n then Blank(s.style)
    else if command == '@' as int && x >= n then row[x - n] else row[x]
  }

  function EditedGrid(s: Screen, command: Byte, n: nat): (g: seq<seq<Cell>>)
    requires ScreenOk(s)
    ensures GridOk(g, s.width, s.height)
  {
    seq(s.height, i requires 0 <= i < s.height =>
      seq(s.width, x requires 0 <= x < s.width => EditedCell(s, command, n, i, x)))
  }

  /** Rows inserted (L) or deleted (M) at the cursor, within the region. */
  function RowsEdited(s: Screen, command: Byte, n: nat): (g: seq<seq<Cell>>)
    requires ScreenOk(s)
    ensures GridOk(g, s.width, s.height)
  {
    if !(s.region.top <= s.at.y <= s.region.bottom) then s.grid
    else if command == 'L' as int then MovedDown(s.grid, s.at.y, s.region.bottom, n, BlankLine(s))
    else MovedUp(s.grid, s.at.y, s.region.bottom, n, BlankLine(s))
  }

  function Edited(s: Screen, command: Byte, params: seq<nat>): (r: Screen)
    requires ScreenOk(s)
    ensures ScreenOk(r)
  {
    var n := FirstParam(params, 1);
    if command == 'S' as int then ScrolledUpBy(s, n)
    else if command == 'T' as int then ScrolledDown(s, n)
    else if command == 'L' as int || command == 'M' as int then s.(grid := RowsEdited(s, command, n))
    else if command == 'J' as int || command == 'K' as int
    then s.(grid := EditedGrid(s, command, FirstParam(params, 0)))
    else s.(grid := EditedGrid(s, command, n))
  }

  /** The row a command asks for, which may be off the screen. */
  function AskedRow(at: Cursor, command: Byte, n: nat): int {
    if command == 'A' as int then at.y - n
    else if command == 'B' as int || command == 'e' as int then at.y + n
    else if command == 'd' as int || command == 'H' as int || command == 'f' as int then n - 1
    else at.y
  }

  function AskedColumn(at: Cursor, command: Byte, n: nat, col: nat): int {
    if command == 'C' as int then at.x + n
    else if command == 'D' as int then at.x - n
    else if command == 'G' as int then n - 1
    else if command == 'H' as int || command == 'f' as int then col - 1
    else at.x
  }

  /** What a movement command makes of the place asked for. Moving up and left stops only at 0, moving down and right
      only at the far side, and every sum is taken in 64 bits. */
  function Moved(s: Screen, command: Byte, n: nat, col: nat): (r: Screen)
    requires ScreenOk(s) && n <= MAX_INT && col <= MAX_INT
    ensures ScreenOk(r)
  {
    s.(at := Cursor(ColumnMovedTo(s, command, n, col), RowMovedTo(s, command, n), false))
  }

  function RowMovedTo(s: Screen, command: Byte, n: nat): (y: int)
    requires ScreenOk(s) && n <= MAX_INT
    ensures IsInt(y)
  {
    var row := Wrap(AskedRow(s.at, command, n));
    if command == 'A' as int then AtLeastZero(row)
    else if command == 'B' as int || command == 'e' as int then AtMost(row, s.height - 1)
    else if command == 'd' as int || command == 'H' as int || command == 'f' as int then Clamp(row, s.height)
    else s.at.y
  }

  function ColumnMovedTo(s: Screen, command: Byte, n: nat, col: nat): (x: int)
    requires ScreenOk(s) && n <= MAX_INT && col <= MAX_INT
    ensures IsInt(x)
  {
    var column := Wrap(AskedColumn(s.at, command, n, col));
    if command == 'D' as int then AtLeastZero(column)
    else if command == 'C' as int then AtMost(column, s.width - 1)
    else if command == 'G' as int || command == 'H' as int || command == 'f' as int then Clamp(column, s.width)
    else s.at.x
  }

  lemma MovedToPlace(s: Screen, command: Byte, n: nat, col: nat)
    requires ScreenOk(s) && n <= MAX_INT && col <= MAX_INT && command in {'H' as int, 'f' as int}
    ensures Moved(s, command, n, col) == s.(at := Cursor(Clamp(col - 1, s.width), Clamp(n - 1, s.height), false))
  {
  }

  lemma MovedToRow(s: Screen, command: Byte, n: nat, col: nat)
    requires ScreenOk(s) && n <= MAX_INT && col <= MAX_INT
    requires command in {'A' as int, 'B' as int, 'e' as int, 'd' as int}
    ensures Moved(s, command, n, col) == s.(at := Cursor(s.at.x, RowMovedTo(s, command, n), false))
  {
  }

  lemma MovedToColumn(s: Screen, command: Byte, n: nat, col: nat)
    requires ScreenOk(s) && n <= MAX_INT && col <= MAX_INT && command in {'C' as int, 'D' as int, 'G' as int}
    ensures Moved(s, command, n, col) == s.(at := Cursor(ColumnMovedTo(s, command, n, col), s.at.y, false))
  {
  }

  /** Whether a movement overflows the 64-bit sum it computes. */
  predicate Overflows(at: Cursor, command: Byte, n: nat) {
    !IsInt(AskedRow(at, command, n)) || !IsInt(AskedColumn(at, command, n, 1))
  }

  /** From a place on the screen a movement leads as near to the place asked for as the screen allows, if and only if
      its sum does not overflow; otherwise it leads off the screen. */
  lemma MovedNear(s: Screen, command: Byte, n: nat, col: nat)
    requires ScreenOk(s) && n <= MAX_INT && col <= MAX_INT && OnGrid(s, s.at.x, s.at.y)
    ensures !Overflows(s.at, command, n) ==>
              && Moved(s, command, n, col).at.y == Clamp(AskedRow(s.at, command, n), s.height)
              && Moved(s, command, n, col).at.x == Clamp(AskedColumn(s.at, command, n, col), s.width)
    ensures OnGrid(s, Moved(s, command, n, col).at.x, Moved(s, command, n, col).at.y) <==> !Overflows(s.at, command, n)
  {
  }

  /** The region is the rows asked for as far as they are on the screen, or all rows when they make no range. */
  function RegionAsked(height: int, params: seq<nat>): Region
    requires height > 0
  {
    var top, bottom := FirstParam(params, 1), if |params| > 1 then params[1] else height;
    if bottom == 0 || top > bottom || top > height then Region(0, height - 1)
    else Region(Clamp(top - 1, height), Clamp(bottom - 1, height))
  }

  function ToAlternate(s: Screen): (r: Screen)
    requires ScreenOk(s) && !s.alt
    ensures ScreenOk(r)
  {
    s.(grid := seq(s.height, _ => BlankLine(s)), aside := s.grid, alt := true, at := Cursor(0, 0, s.at.wrap),
       region := Region(0, s.height - 1))
  }

  function ToMain(s: Screen): (r: Screen)
    requires ScreenOk(s) && s.alt
    ensures ScreenOk(r)
  {
    s.(grid := s.aside, aside := [], alt := false, region := Region(0, s.height - 1))
  }

  /** A control sequence that does not crash the emulator. */
  function Commanded(selectStyle: (Style, seq<nat>) -> Style, s: Screen, command: Byte, params: seq<nat>): (r: Screen)
    requires ScreenOk(s) && ParamsFit(params)
    ensures ScreenOk(r)
  {
    if IsEdit(command) then Edited(s, command, params)
    else if IsCursorMovement(command) then Moved(s, command, FirstParam(params, 1), SecondParam(params))
    else if command == 'm' as int then s.(style := selectStyle(s.style, params))
    else if command == 'r' as int then
      s.(region := RegionAsked(s.height, params), at := Cursor(0, 0, s.at.wrap))
    else if command == 's' as int then WithSaved(s)
    else if command == 'u' as int then Restored(s)
    else if command == 'h' as int && ALT_SCREEN_MODE in params && !s.alt then ToAlternate(s)
    else if command == 'l' as int && ALT_SCREEN_MODE in params && s.alt then ToMain(s)
    else s
  }

  // ----- Bytes -----

  /** utf8.FullRune, utf8.DecodeRune and the style an SGR sequence selects. */
  datatype Coding = Coding(fullRune: seq<Byte> -> bool, decodeRune: seq<Byte> -> int,
                           selectStyle: (Style, seq<nat>) -> Style)

  /** A character that stands for itself, or moves the cursor. */
  function Typed(s: Screen, b: Byte): (r: Screen)
    requires ScreenOk(s)
    ensures ScreenOk(r)
  {
    if b == 0x0a then NewLined(s) else if b >= 32 then Put(s, b) else MovedInRow(s, b)
  }

  function NormalByte(c: Coding, s: Screen, p: Parser, b: Byte): (r: Screen)
    requires ScreenOk(s)
    ensures ScreenOk(r)
  {
    if |p.utf8Buffer| > 0 || b >= 128 then
      if c.fullRune(p.utf8Buffer + [b]) then Put(s, c.decodeRune(p.utf8Buffer + [b])) else s
    else if p.expectingCharSet || b == ESC then s
    else Typed(s, b)
  }

  function EscapeByte(s: Screen, b: Byte): (r: Screen)
    requires ScreenOk(s)
    ensures ScreenOk(r)
  {
    if b == '7' as int then WithSaved(s)
    else if b == '8' as int then Restored(s)
    else if b == 'M' as int then ReverseIndexed(s)
    else s
  }

  function CSIByte(c: Coding, s: Screen, p: Parser, b: Byte): (r: Screen)
    requires ScreenOk(s)
    ensures ScreenOk(r)
  {
    if IsFinal(b) && p.csiIntermediate == 0 then Commanded(c.selectStyle, s, b, ParseCSIParams(p.escapeSeq)) else s
  }

  /** What one byte makes of the screen. */
  function ByteOn(c: Coding, s: Screen, p: Parser, b: Byte): (r: Screen)
    requires ScreenOk(s)
    ensures ScreenOk(r)
  {
    match p.state
    case Normal => NormalByte(c, s, p, b)
    case Escape => EscapeByte(s, b)
    case CSI => CSIByte(c, s, p, b)
    case _ => s
  }

  /** What any bytes make of it, starting from parser state p. */
  function Written(c: Coding, s: Screen, p: Parser, data: seq<Byte>): (r: Screen)
    requires ScreenOk(s)
    ensures ScreenOk(r)
  {
    if data == [] then s
    else
      var front := data[..|data| - 1];
      ByteOn(c, Written(c, s, p, front), After(c.fullRune, p, front), data[|data| - 1])
  }

  lemma WrittenNext(c: Coding, s: Screen, p: Parser, data: seq<Byte>, n: nat)
    requires ScreenOk(s) && n < |data|
    ensures Written(c, s, p, data[..n + 1]) ==
            ByteOn(c, Written(c, s, p, data[..n]), After(c.fullRune, p, data[..n]), data[n])
  {
    assert data[..n + 1][..n] == data[..n];
  }
}
