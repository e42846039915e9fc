/** The emulator's state and every operation on it, as functions on values:
    the reference the in-place emulator is proved against. Each function keeps
    the geometry: rows and columns, cursor and scroll region in range. */
module Terminal {
  import opened Utf8
  import opened Cells
  import opened Width

  datatype Cursor = Cursor(x: int, y: int, pendingWrap: bool)

  datatype Charset = Ascii | Graphics

  /** The two designated sets and which of them is shifted in. */
  datatype Charsets = Charsets(g0: Charset, g1: Charset, gl: int)

  datatype Saved = Saved(x: int, y: int, pen: Style, link: seq<byte>, charsets: Charsets, origin: bool, valid: bool)

  /** One of the two screens; top and bot are the scroll region, inclusive. */
  datatype Screen = Screen(rows: seq<Row>, cur: Cursor, saved: Saved, top: int, bot: int, scrollback: seq<Row>)

  datatype Modes = Modes(
    cursorKeys: bool, origin: bool, autowrap: bool, cursorVisible: bool, insert: bool,
    lineFeedNewline: bool, bracketedPaste: bool, focusEvents: bool,
    mouse: nat, mouseEnc: nat, cursorStyle: nat)

  datatype Term = Term(
    w: int, h: int, main: Screen, alt: Screen, altActive: bool, maxScrollback: nat,
    pen: Style, link: seq<byte>, lastPrinted: Rune, modes: Modes, title: seq<byte>,
    charsets: Charsets, tabStops: seq<bool>)

  const DEFAULT_SCROLLBACK := 2000
  const ASCII_SETS := Charsets(Ascii, Ascii, 0)
  const NO_SAVED := Saved(0, 0, PLAIN, [], ASCII_SETS, false, false)
  const INIT_MODES := Modes(false, false, true, true, false, false, false, false, 0, 0, 0)

  // ---------------------------------------------------------------------------
  // Geometry
  // ---------------------------------------------------------------------------

  predicate RowsFit(rows: seq<Row>, w: int) {
    forall y :: 0 <= y < |rows| ==> |rows[y].cells| == w
  }

  predicate ScreenFits(s: Screen, w: int, h: int) {
    && |s.rows| == h && RowsFit(s.rows, w)
    && 0 <= s.cur.x < w && 0 <= s.cur.y < h
    && (s.cur.pendingWrap ==> s.cur.x == w - 1)
    && 0 <= s.saved.x < w && 0 <= s.saved.y < h
    && 0 <= s.saved.charsets.gl <= 1
    && 0 <= s.top <= s.bot < h
    && (s.top < s.bot || (s.top == 0 && s.bot == h - 1))
  }

  /** The geometry of a terminal at least two columns wide: a wide character
      needs both. */
  predicate Fits(t: Term) {
    && t.w >= 2 && t.h >= 1
    && ScreenFits(t.main, t.w, t.h)
    && ScreenFits(t.alt, t.w, t.h) && t.alt.scrollback == []
    && |t.tabStops| == t.w
    && 0 <= t.charsets.gl <= 1
  }

  type T = t: Term | Fits(t) witness New(80, 24, DEFAULT_SCROLLBACK)

  function NewScreen(w: nat, h: nat): Screen {
    Screen(BlankRows(h, w, PLAIN), Cursor(0, 0, false), NO_SAVED, 0, h - 1, [])
  }

  function DefaultTabStops(w: nat): (s: seq<bool>)
    ensures |s| == w
  {
    seq(w, i => i > 0 && i % 8 == 0)
  }

  function New(w: nat, h: nat, maxScrollback: nat): (t: Term)
    requires w >= 2 && h >= 1
    ensures Fits(t)
  {
    Term(w, h, NewScreen(w, h), NewScreen(w, h), false, maxScrollback,
         PLAIN, [], 0, INIT_MODES, [], ASCII_SETS, DefaultTabStops(w))
  }

  function Active(t: Term): Screen { if t.altActive then t.alt else t.main }

  function With(t: Term, s: Screen): Term {
    if t.altActive then t.(alt := s) else t.(main := s)
  }

  function SetCur(t: T, x: int, y: int, pending: bool): T
    requires 0 <= x < t.w && 0 <= y < t.h && (pending ==> x == t.w - 1)
  {
    With(t, Active(t).(cur := Cursor(x, y, pending)))
  }

  function SetRows(t: T, rows: seq<Row>): T
    requires |rows| == t.h && RowsFit(rows, t.w)
  {
    With(t, Active(t).(rows := rows))
  }

  /** Cells of the cursor's row replaced. */
  function SetLine(t: T, cells: seq<Cell>): T
    requires |cells| == t.w
  {
    var s := Active(t);
    SetRows(t, s.rows[s.cur.y := s.rows[s.cur.y].(cells := cells)])
  }

  function Line(t: T): (cells: seq<Cell>)
    ensures |cells| == t.w
  {
    Active(t).rows[Active(t).cur.y].cells
  }

  function Min(a: int, b: int): int { if a < b then a else b }
  function Max(a: int, b: int): int { if a > b then a else b }
  function Clamp(v: int, lo: int, hi: int): int { Max(lo, Min(v, hi)) }

  // ---------------------------------------------------------------------------
  // Scrolling
  // ---------------------------------------------------------------------------

  /** A line enters the scrollback; an overflow drops the oldest eighth. */
  function Push(sb: seq<Row>, r: Row, max: nat): seq<Row> {
    if max == 0 then sb
    else
      var sb' := sb + [Trimmed(r)];
      if |sb'| <= max then sb'
      else sb'[Min(Max(|sb'| - max, max / 8), |sb'|)..]
  }

  function PushAll(sb: seq<Row>, rs: seq<Row>, max: nat): seq<Row>
    decreases |rs|
  {
    if rs == [] then sb else PushAll(Push(sb, rs[0], max), rs[1..], max)
  }

  /** n lines leave the region [top, bot] at its top, blank ones enter below,
      and the new top line no longer continues anything. */
  function ScrollRows(rows: seq<Row>, top: int, bot: int, n: int, w: nat, pen: Style): (r: seq<Row>)
    requires 0 <= top <= bot < |rows| && 1 <= n <= bot - top + 1 && RowsFit(rows, w)
    ensures |r| == |rows| && RowsFit(r, w)
  {
    var moved := rows[..top] + rows[top + n..bot + 1] + BlankRows(n, w, pen) + rows[bot + 1..];
    moved[top := moved[top].(wrapped := false)]
  }

  function Scroll(t: T, n: int, keep: bool): T {
    var s := Active(t);
    if n <= 0 then t
    else
      var n' := Min(n, s.bot - s.top + 1);
      var sb := if keep && s.top == 0 && !t.altActive then PushAll(s.scrollback, s.rows[..n'], t.maxScrollback)
                else s.scrollback;
      With(t, s.(rows := ScrollRows(s.rows, s.top, s.bot, n', t.w, t.pen), scrollback := sb))
  }

  /** Lines [at, bot] move down by n; the last n of them are lost. */
  function OpenRows(rows: seq<Row>, at: int, bot: int, n: int, w: nat, pen: Style): (r: seq<Row>)
    requires 0 <= at <= bot < |rows| && 1 <= n <= bot - at + 1 && RowsFit(rows, w)
    ensures |r| == |rows| && RowsFit(r, w)
  {
    rows[..at] + BlankRows(n, w, pen) + rows[at..bot + 1 - n] + rows[bot + 1..]
  }

  /** Lines [at, bot] move up by n; the first n of them are lost. */
  function CloseRows(rows: seq<Row>, at: int, bot: int, n: int, w: nat, pen: Style): (r: seq<Row>)
    requires 0 <= at <= bot < |rows| && 1 <= n <= bot - at + 1 && RowsFit(rows, w)
    ensures |r| == |rows| && RowsFit(r, w)
  {
    rows[..at] + rows[at + n..bot + 1] + BlankRows(n, w, pen) + rows[bot + 1..]
  }

  function ScrollDown(t: T, n: int): T {
    var s := Active(t);
    if n <= 0 then t
    else SetRows(t, OpenRows(s.rows, s.top, s.bot, Min(n, s.bot - s.top + 1), t.w, t.pen))
  }

  function InsertLines(t: T, n: int): T
    requires n >= 1
  {
    var s := Active(t);
    if s.cur.y < s.top || s.cur.y > s.bot then t
    else
      SetCur(SetRows(t, OpenRows(s.rows, s.cur.y, s.bot, Min(n, s.bot - s.cur.y + 1), t.w, t.pen)), 0, s.cur.y, false)
  }

  function DeleteLines(t: T, n: int): T
    requires n >= 1
  {
    var s := Active(t);
    if s.cur.y < s.top || s.cur.y > s.bot then t
    else
      SetCur(SetRows(t, CloseRows(s.rows, s.cur.y, s.bot, Min(n, s.bot - s.cur.y + 1), t.w, t.pen)), 0, s.cur.y, false)
  }

  function LineFeed(t: T): T {
    var s := Active(t);
    var t1 := SetCur(t, s.cur.x, s.cur.y, false);
    if s.cur.y == s.bot then Scroll(t1, 1, true)
    else if s.cur.y < t.h - 1 then SetCur(t1, s.cur.x, s.cur.y + 1, false)
    else t1
  }

  function ReverseIndex(t: T): T {
    var s := Active(t);
    var t1 := SetCur(t, s.cur.x, s.cur.y, false);
    if s.cur.y == s.top then ScrollDown(t1, 1)
    else if s.cur.y > 0 then SetCur(t1, s.cur.x, s.cur.y - 1, false)
    else t1
  }

  // ---------------------------------------------------------------------------
  // Printing
  // ---------------------------------------------------------------------------

  /** The DEC Special Graphics set, for '`' to '~'. */
  const GRAPHICS: seq<Rune> := [
    0x25C6, 0x2592, 0x2409, 0x240C, 0x240D, 0x240A, 0xB0, 0xB1,
    0x2424, 0x240B, 0x2518, 0x2510, 0x250C, 0x2514, 0x253C, 0x23BA,
    0x23BB, 0x2500, 0x23BC, 0x23BD, 0x251C, 0x2524, 0x2534, 0x252C,
    0x2502, 0x2264, 0x2265, 0x3C0, 0x2260, 0xA3, 0xB7]

  function Translate(cs: Charsets, r: Rune): (g: Rune)
    ensures g == r || g >= 0xA3
  {
    if (if cs.gl == 1 then cs.g1 else cs.g0).Graphics? && 0x60 <= r <= 0x7e then GRAPHICS[r - 0x60] else r
  }

  /** Shift the cells from column x right by n; a wide character cut by the
      edge is blanked. */
  function InsertInLine(cells: seq<Cell>, x: int, n: int, pen: Style): (r: seq<Cell>)
    requires 0 <= x < |cells| && n >= 0
    ensures |r| == |cells|
  {
    var w := |cells|;
    var n' := Min(n, w - x);
    var moved := cells[..x] + Blanks(n', pen) + cells[x..w - n'];
    if moved[w - 1].width == 2 then moved[w - 1 := Blank(moved[w - 1].style)] else moved
  }

  function InsertCells(t: T, n: int): T
    requires n >= 0
  {
    SetLine(t, InsertInLine(Line(t), Active(t).cur.x, n, t.pen))
  }

  /** Store a character at column x. Overwriting one half of a wide character
      blanks the other half. */
  function PlaceInLine(cells: seq<Cell>, x: int, ch: seq<Rune>, width: int, pen: Style, link: seq<byte>): (r: seq<Cell>)
    requires 0 <= x < |cells| && 1 <= width <= 2 && x + width <= |cells|
    ensures |r| == |cells|
  {
    var w := |cells|;
    var c1 := if cells[x].width == 0 && x > 0 then cells[x - 1 := Blank(cells[x - 1].style)] else cells;
    var c2 := if width == 1 && x + 1 < w && c1[x].width == 2 then c1[x + 1 := Blank(c1[x + 1].style)] else c1;
    var c3 := c2[x := Cell(ch, width, pen, link)];
    if width == 1 then c3
    else
      var c4 := if x + 2 < w && c3[x + 1].width == 2 then c3[x + 2 := Blank(c3[x + 2].style)] else c3;
      c4[x + 1 := Cell([], 0, pen, link)]
  }

  /** Print at the cursor, which has room for the character. */
  function Place(t: T, r: Rune, width: int): T
    requires 1 <= width <= 2 && Active(t).cur.x + width <= t.w && !Active(t).cur.pendingWrap
  {
    var s := Active(t);
    var ch := if r == 0x20 then [] else [r];
    var t1 := SetLine(t, PlaceInLine(Line(t), s.cur.x, ch, width, t.pen, t.link));
    if s.cur.x + width >= t.w then SetCur(t1, t.w - 1, s.cur.y, true)
    else SetCur(t1, s.cur.x + width, s.cur.y, false)
  }

  function WrapToNextLine(t: T): T {
    var t1 := LineFeed(SetCur(t, 0, Active(t).cur.y, false));
    var s := Active(t1);
    SetRows(t1, s.rows[s.cur.y := s.rows[s.cur.y].(wrapped := true)])
  }

  /** A pending wrap takes effect. */
  function TakeWrap(t: T): (r: T)
    ensures !Active(r).cur.pendingWrap && r.w == t.w
  {
    var s := Active(t);
    if !s.cur.pendingWrap then t
    else if t.modes.autowrap then WrapToNextLine(t)
    else SetCur(t, t.w - 1, s.cur.y, false)
  }

  /** A wide character that does not fit in the last column wraps whole. */
  function MakeRoom(t: T, width: int): (r: T)
    requires !Active(t).cur.pendingWrap && 1 <= width <= 2
    ensures !Active(r).cur.pendingWrap && Active(r).cur.x + width <= r.w && r.w == t.w
  {
    var s := Active(t);
    if width == 1 || s.cur.x < t.w - 1 then t
    else if t.modes.autowrap then
      WrapToNextLine(SetLine(t, Line(t)[s.cur.x := Blank(t.pen)]))
    else SetCur(t, t.w - 2, s.cur.y, false)
  }

  /** Attach a zero-width rune to the last printed cell. */
  function Combine(t: T, r: Rune): T {
    var s := Active(t);
    var x0 := if s.cur.pendingWrap then t.w - 1 else s.cur.x - 1;
    if x0 < 0 then t
    else
      var x := if Line(t)[x0].width == 0 && x0 > 0 then x0 - 1 else x0;
      var c := Line(t)[x];
      if c.ch == [] && c.width != 1 then t
      else SetLine(t, Line(t)[x := c.(ch := (if c.ch == [] then [0x20] else c.ch) + [r])])
  }

  /** In insert mode the rest of the line moves aside. */
  function MoveAside(t: T, width: int): (r: T)
    requires width >= 0
    ensures Active(r).cur == Active(t).cur && r.w == t.w
  {
    if t.modes.insert then InsertCells(t, width) else t
  }

  function PrintRune(t: T, r: Rune): T {
    hide Combine, Place, WrapToNextLine, LineFeed, SetLine, SetCur, SetRows, InsertCells, InsertInLine, RuneWidth, Translate;
    var g := Translate(t.charsets, r);
    var width := RuneWidth(g);
    if width == 0 then Combine(t, g)
    else
      var room := MakeRoom(TakeWrap(t.(lastPrinted := g)), width);
      Place(MoveAside(room, width), g, width)
  }

  function Repeat(t: T, r: Rune, n: nat): T
    decreases n
  {
    if n == 0 then t else Repeat(PrintRune(t, r), r, n - 1)
  }

  // ---------------------------------------------------------------------------
  // Tab stops and cursor movement
  // ---------------------------------------------------------------------------

  /** The first tab stop from column x on, or the last column. */
  function StopFrom(stops: seq<bool>, x: int): (r: int)
    requires |stops| > 0 && x >= 0
    ensures 0 <= r < |stops| && (r >= x || r == |stops| - 1)
    decreases |stops| - x
  {
    if x >= |stops| then |stops| - 1 else if stops[x] then x else StopFrom(stops, x + 1)
  }

  /** The last tab stop up to column x, or column 0. */
  function StopUpTo(stops: seq<bool>, x: int): (r: int)
    requires |stops| > 0 && x < |stops|
    ensures 0 <= r < |stops| && (r <= x || r == 0)
    decreases x
  {
    if x <= 0 then 0 else if stops[x] then x else StopUpTo(stops, x - 1)
  }

  function StopsForward(stops: seq<bool>, x: int, n: nat): (r: int)
    requires 0 <= x < |stops|
    ensures 0 <= r < |stops|
    decreases n
  {
    if n == 0 then x else StopsForward(stops, StopFrom(stops, x + 1), n - 1)
  }

  function StopsBackward(stops: seq<bool>, x: int, n: nat): (r: int)
    requires 0 <= x < |stops|
    ensures 0 <= r < |stops|
    decreases n
  {
    if n == 0 then x else StopsBackward(stops, StopUpTo(stops, x - 1), n - 1)
  }

  function TabForward(t: T, n: nat): T {
    var s := Active(t);
    SetCur(t, StopsForward(t.tabStops, s.cur.x, n), s.cur.y, false)
  }

  function TabBackward(t: T, n: nat): T {
    var s := Active(t);
    SetCur(t, StopsBackward(t.tabStops, s.cur.x, n), s.cur.y, false)
  }

  function MoveCursor(t: T, x: int, y: int): T {
    var s := Active(t);
    var y' := if t.modes.origin then Clamp(y, s.top, s.bot) else Clamp(y, 0, t.h - 1);
    SetCur(t, Clamp(x, 0, t.w - 1), y', false)
  }

  function SetColumn(t: T, x: int): T {
    SetCur(t, Clamp(x, 0, t.w - 1), Active(t).cur.y, false)
  }

  function CursorUp(t: T, n: nat): T {
    var s := Active(t);
    SetCur(t, s.cur.x, Max(s.cur.y - n, if s.cur.y >= s.top then s.top else 0), false)
  }

  function CursorDown(t: T, n: nat): T {
    var s := Active(t);
    SetCur(t, s.cur.x, Min(s.cur.y + n, if s.cur.y <= s.bot then s.bot else t.h - 1), false)
  }

  function SaveCursor(t: T): T {
    var s := Active(t);
    With(t, s.(saved := Saved(s.cur.x, s.cur.y, t.pen, t.link, t.charsets, t.modes.origin, true)))
  }

  function RestoreCursor(t: T): T {
    var s := Active(t);
    if !s.saved.valid then MoveCursor(t, 0, 0).(pen := PLAIN, link := [])
    else
      var t1 := t.(pen := s.saved.pen, link := s.saved.link, charsets := s.saved.charsets,
                   modes := t.modes.(origin := s.saved.origin));
      SetCur(t1, s.saved.x, s.saved.y, false)
  }

  // ---------------------------------------------------------------------------
  // Erasing and deleting
  // ---------------------------------------------------------------------------

  /** Rows [from, to) erased whole; they no longer continue anything. */
  function ClearRows(rows: seq<Row>, from: int, to: int, w: nat, pen: Style): (r: seq<Row>)
    requires RowsFit(rows, w)
    ensures |r| == |rows|
    ensures forall y :: 0 <= y < |r| ==> r[y] == if from <= y < to then BlankRow(w, pen) else rows[y]
    ensures RowsFit(r, w)
  {
    seq(|rows|, y requires 0 <= y < |rows| => if from <= y < to then BlankRow(w, pen) else rows[y])
  }

  function EraseInLine(t: T, mode: int): T {
    var x := Active(t).cur.x;
    var cells := Line(t);
    if mode == 0 then SetLine(t, ClearCells(cells, x, t.w, t.pen))
    else if mode == 1 then
      // Erasing the first half of a wide character clears both halves.
      var end := if x + 1 < t.w && cells[x + 1].width == 0 then x + 2 else x + 1;
      SetLine(t, ClearCells(cells, 0, end, t.pen))
    else if mode == 2 then SetLine(t, ClearCells(cells, 0, t.w, t.pen))
    else t
  }

  function EraseInDisplay(t: T, mode: int): T {
    var s := Active(t);
    if mode == 0 then
      var t1 := EraseInLine(t, 0);
      SetRows(t1, ClearRows(Active(t1).rows, s.cur.y + 1, t.h, t.w, t.pen))
    else if mode == 1 then
      EraseInLine(SetRows(t, ClearRows(s.rows, 0, s.cur.y, t.w, t.pen)), 1)
    else if mode == 2 then SetRows(t, ClearRows(s.rows, 0, t.h, t.w, t.pen))
    else if mode == 3 then With(t, s.(scrollback := []))
    else t
  }

  function EraseChars(t: T, n: nat): T {
    var s := Active(t);
    SetCur(SetLine(t, ClearCells(Line(t), s.cur.x, s.cur.x + n, t.pen)), s.cur.x, s.cur.y, false)
  }

  function DeleteInLine(cells: seq<Cell>, x: int, n: nat, pen: Style): (r: seq<Cell>)
    requires 0 <= x < |cells|
    ensures |r| == |cells|
  {
    var n' := Min(n, |cells| - x);
    cells[..x] + cells[x + n'..] + Blanks(n', pen)
  }

  function DeleteChars(t: T, n: nat): T {
    var s := Active(t);
    SetCur(SetLine(t, DeleteInLine(Line(t), s.cur.x, n, t.pen)), s.cur.x, s.cur.y, false)
  }

  // ---------------------------------------------------------------------------
  // Screens and resets
  // ---------------------------------------------------------------------------

  function EnterAlt(t: T, save: bool): T {
    if t.altActive then t
    else
      var t1 := if save then SaveCursor(t) else t;
      t1.(altActive := true,
          alt := t1.alt.(rows := ClearRows(t1.alt.rows, 0, t.h, t.w, t.pen), top := 0, bot := t.h - 1,
                         cur := Cursor(t1.main.cur.x, t1.main.cur.y, false)))
  }

  function LeaveAlt(t: T, restore: bool): T {
    if !t.altActive then t
    else
      var t1 := t.(altActive := false, main := t.main.(cur := Cursor(t.alt.cur.x, t.alt.cur.y, false)));
      if restore then RestoreCursor(t1) else t1
  }

  function SoftReset(t: T): T {
    var s := Active(t);
    With(t.(modes := t.modes.(cursorVisible := true, origin := false, autowrap := true, insert := false, cursorKeys := false),
            pen := PLAIN, link := [], charsets := ASCII_SETS),
         s.(top := 0, bot := t.h - 1, saved := NO_SAVED, cur := s.cur.(pendingWrap := false)))
  }

  /** RIS. Scrollback, title and the last printed rune survive. */
  function FullReset(t: T): T {
    var n := New(t.w, t.h, t.maxScrollback);
    n.(main := n.main.(scrollback := t.main.scrollback), title := t.title, lastPrinted := t.lastPrinted)
  }

  /** DECALN: the screen filled with E, the region reset, the cursor home. */
  function Align(t: T): T {
    var s := Active(t);
    var e := Row(seq(t.w, i => Cell(['E' as int], 1, PLAIN, [])), false);
    MoveCursor(With(t, s.(rows := seq(t.h, i => e), top := 0, bot := t.h - 1)), 0, 0)
  }
}
