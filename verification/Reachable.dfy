/** What every run keeps true of cells, links, title and modes: of what a snapshot
    needs, only the layout of the lines is left to the program's output. */
module Reachable {
  import opened Utf8
  import opened Cells
  import opened Width
  import opened Parser
  import opened Sequences
  import opened Terminal
  import opened Dispatch
  import opened Content
  import opened Restore

  /** A line no wider than the screen; no wide character begins in the last column. */
  predicate Fine(cells: seq<Cell>, w: int) {
    CellsOk(cells) && |cells| <= w && (|cells| == w > 0 ==> cells[w - 1].width != 2)
  }

  predicate RowsOk(rows: seq<Row>, w: int) { forall y :: 0 <= y < |rows| ==> Fine(rows[y].cells, w) }

  predicate ScreenOk(s: Screen, w: int) { RowsOk(s.rows, w) && AllCellsOk(s.scrollback) && LinkOk(s.saved.link) }

  predicate ModesOk(m: Modes) { MouseOk(m.mouse) && MouseEncOk(m.mouseEnc) && m.cursorStyle <= MAX_VALUE }

  /** Cells, links, title and modes are all such as a snapshot can write. */
  predicate Tidy(t: T) {
    && ScreenOk(t.main, t.w) && ScreenOk(t.alt, t.w) && LinkOk(t.link) && TextOk(t.title, 2) && ModesOk(t.modes)
    && (t.lastPrinted == 0 || !IsControl(t.lastPrinted))
  }

  lemma BlankTidy(st: Style)
    ensures CellOk(Blank(st)) && LinkOk([])
  {
  }

  lemma BlanksTidy(n: nat, st: Style)
    ensures Fine(Blanks(n, st), n)
  {
    BlankTidy(st);
    hide CellOk;
  }

  lemma BlankRowsTidy(n: nat, w: nat, st: Style)
    ensures RowsOk(BlankRows(n, w, st), w)
  {
    BlanksTidy(w, st);
    hide Fine;
  }

  lemma NewTidy(w: nat, h: nat, max: nat)
    requires w >= 2 && h >= 1
    ensures Tidy(New(w, h, max))
  {
    BlankRowsTidy(h, w, PLAIN);
    BlankTidy(PLAIN);
    assert AllCellsOk([]) && TextOk([], 2);
    hide LinkOk, RowsOk, TextOk;
  }

  // ---------------------------------------------------------------------------
  // Rows and lines
  // ---------------------------------------------------------------------------

  lemma CurTidy(t: T, x: int, y: int, pending: bool)
    requires Tidy(t) && 0 <= x < t.w && 0 <= y < t.h && (pending ==> x == t.w - 1)
    ensures Tidy(SetCur(t, x, y, pending))
  {
    hide RowsOk, LinkOk, TextOk, ModesOk;
  }

  lemma RowsTidy(t: T, rows: seq<Row>)
    requires Tidy(t) && |rows| == t.h && RowsFit(rows, t.w) && RowsOk(rows, t.w)
    ensures Tidy(SetRows(t, rows))
  {
    hide RowsOk, LinkOk, TextOk, ModesOk;
  }

  lemma ActiveTidy(t: T)
    requires Tidy(t)
    ensures RowsOk(Active(t).rows, t.w) && AllCellsOk(Active(t).scrollback) && LinkOk(Active(t).saved.link) && Fine(Line(t), t.w)
  {
    hide Fine, LinkOk, TextOk, ModesOk;
  }

  lemma LineTidy(t: T, cells: seq<Cell>)
    requires Tidy(t) && |cells| == t.w && Fine(cells, t.w)
    ensures Tidy(SetLine(t, cells))
  {
    ActiveTidy(t);
    hide Fine, LinkOk, TextOk, ModesOk;
  }

  lemma SliceTidy(rows: seq<Row>, w: int, i: int, j: int)
    requires RowsOk(rows, w) && 0 <= i <= j <= |rows|
    ensures RowsOk(rows[i..j], w)
  {
    hide Fine;
  }

  lemma JoinTidy(w: int, a: seq<Row>, b: seq<Row>, c: seq<Row>, d: seq<Row>)
    requires RowsOk(a, w) && RowsOk(b, w) && RowsOk(c, w) && RowsOk(d, w)
    ensures RowsOk(a + b + c + d, w)
  {
    hide Fine;
  }

  lemma UnwrappedTidy(rows: seq<Row>, w: int, y: int)
    requires RowsOk(rows, w) && 0 <= y < |rows|
    ensures RowsOk(rows[y := rows[y].(wrapped := false)], w)
  {
    hide Fine;
  }

  lemma ScrollRowsTidy(rows: seq<Row>, top: int, bot: int, n: int, w: nat, pen: Style)
    requires 0 <= top <= bot < |rows| && 1 <= n <= bot - top + 1 && RowsFit(rows, w) && RowsOk(rows, w)
    ensures RowsOk(ScrollRows(rows, top, bot, n, w, pen), w)
    ensures RowsOk(OpenRows(rows, top, bot, n, w, pen), w) && RowsOk(CloseRows(rows, top, bot, n, w, pen), w)
  {
    hide RowsOk, BlankRow;
    BlankRowsTidy(n, w, pen);
    var blanks := BlankRows(n, w, pen);
    SliceTidy(rows, w, 0, top);
    SliceTidy(rows, w, bot + 1, |rows|);
    SliceTidy(rows, w, top + n, bot + 1);
    SliceTidy(rows, w, top, bot + 1 - n);
    assert rows[0..top] == rows[..top] && rows[bot + 1..|rows|] == rows[bot + 1..];
    JoinTidy(w, rows[..top], rows[top + n..bot + 1], blanks, rows[bot + 1..]);
    JoinTidy(w, rows[..top], blanks, rows[top..bot + 1 - n], rows[bot + 1..]);
    UnwrappedTidy(CloseRows(rows, top, bot, n, w, pen), w, top);
  }

  lemma ClearRowsTidy(rows: seq<Row>, from: int, to: int, w: nat, pen: Style)
    requires RowsFit(rows, w) && RowsOk(rows, w)
    ensures RowsOk(ClearRows(rows, from, to, w, pen), w)
  {
    BlanksTidy(w, pen);
    hide Fine;
  }

  lemma TrimTidy(r: Row, w: int)
    requires Fine(r.cells, w)
    ensures Fine(Trimmed(r).cells, w)
  {
    hide CellOk;
  }

  lemma PushTidy(sb: seq<Row>, r: Row, w: int, max: nat)
    requires AllCellsOk(sb) && Fine(r.cells, w)
    ensures AllCellsOk(Push(sb, r, max))
  {
    hide CellsOk, Trimmed, LastVisible;
    TrimTidy(r, w);
  }

  lemma {:induction false} PushAllTidy(sb: seq<Row>, rs: seq<Row>, w: int, max: nat)
    requires AllCellsOk(sb) && RowsOk(rs, w)
    ensures AllCellsOk(PushAll(sb, rs, max))
    decreases |rs|
  {
    hide Fine, Push, AllCellsOk;
    if rs != [] {
      PushTidy(sb, rs[0], w, max);
      PushAllTidy(Push(sb, rs[0], max), rs[1..], w, max);
    }
  }

  lemma FirstTidy(rows: seq<Row>, w: int, n: nat)
    requires RowsOk(rows, w) && n <= |rows|
    ensures RowsOk(rows[..n], w)
  {
    hide Fine;
  }

  lemma WithTidy(t: T, rows: seq<Row>, scrollback: seq<Row>)
    requires Tidy(t) && |rows| == t.h && RowsFit(rows, t.w) && RowsOk(rows, t.w) && AllCellsOk(scrollback)
    requires t.altActive ==> scrollback == []
    ensures Tidy(With(t, Active(t).(rows := rows, scrollback := scrollback)))
  {
    hide RowsOk, LinkOk, TextOk, ModesOk;
  }

  lemma ScrollTidy(t: T, n: int, keep: bool)
    requires Tidy(t)
    ensures Tidy(Scroll(t, n, keep))
  {
    hide RowsOk, Tidy, PushAll, ScrollRows, LinkOk, Fine, RowsFit, Line, Fits;
    var s := Active(t);
    ActiveTidy(t);
    RegionFits(t);
    if n > 0 {
      var n' := Min(n, s.bot - s.top + 1);
      ScrollRowsTidy(s.rows, s.top, s.bot, n', t.w, t.pen);
      FirstTidy(s.rows, t.w, n');
      PushAllTidy(s.scrollback, s.rows[..n'], t.w, t.maxScrollback);
      ScrolledFits(s.rows, s.top, s.bot, n', t.w, t.pen);
      WithTidy(t, ScrollRows(s.rows, s.top, s.bot, n', t.w, t.pen),
               if keep && s.top == 0 && !t.altActive then PushAll(s.scrollback, s.rows[..n'], t.maxScrollback) else s.scrollback);
    }
  }

  lemma RegionFits(t: T)
    ensures var s := Active(t); 0 <= s.top <= s.bot < |s.rows| == t.h && RowsFit(s.rows, t.w) && (t.altActive ==> s.scrollback == [])
  {
    hide RowsFit;
  }

  lemma ScrolledFits(rows: seq<Row>, top: int, bot: int, n: int, w: nat, pen: Style)
    requires 0 <= top <= bot < |rows| && 1 <= n <= bot - top + 1 && RowsFit(rows, w)
    ensures |ScrollRows(rows, top, bot, n, w, pen)| == |rows| && RowsFit(ScrollRows(rows, top, bot, n, w, pen), w)
    ensures |OpenRows(rows, top, bot, n, w, pen)| == |rows| && RowsFit(OpenRows(rows, top, bot, n, w, pen), w)
    ensures |CloseRows(rows, top, bot, n, w, pen)| == |rows| && RowsFit(CloseRows(rows, top, bot, n, w, pen), w)
  {
  }

  lemma ScrollDownTidy(t: T, n: int)
    requires Tidy(t)
    ensures Tidy(ScrollDown(t, n))
  {
    hide Tidy, OpenRows, CloseRows, SetRows;
    if n > 0 {
      OpenTidy(t, Active(t).top, Min(n, Active(t).bot - Active(t).top + 1));
    }
  }

  lemma OpenTidy(t: T, at: int, n: int)
    requires Tidy(t) && 0 <= at <= Active(t).bot && 1 <= n <= Active(t).bot - at + 1
    ensures Tidy(SetRows(t, OpenRows(Active(t).rows, at, Active(t).bot, n, t.w, t.pen)))
    ensures Tidy(SetRows(t, CloseRows(Active(t).rows, at, Active(t).bot, n, t.w, t.pen)))
  {
    hide Tidy, RowsOk, OpenRows, CloseRows;
    var s := Active(t);
    ActiveTidy(t);
    ScrollRowsTidy(s.rows, at, s.bot, n, t.w, t.pen);
    ScrolledFits(s.rows, at, s.bot, n, t.w, t.pen);
    RowsTidy(t, OpenRows(s.rows, at, s.bot, n, t.w, t.pen));
    RowsTidy(t, CloseRows(s.rows, at, s.bot, n, t.w, t.pen));
  }

  lemma LinesTidy(t: T, n: nat)
    requires Tidy(t) && n >= 1
    ensures Tidy(InsertLines(t, n)) && Tidy(DeleteLines(t, n))
  {
    hide Tidy, OpenRows, CloseRows;
    var s := Active(t);
    if s.top <= s.cur.y <= s.bot {
      var k := Min(n, s.bot - s.cur.y + 1);
      OpenTidy(t, s.cur.y, k);
      ScrolledFits(s.rows, s.cur.y, s.bot, k, t.w, t.pen);
      CurTidy(SetRows(t, OpenRows(s.rows, s.cur.y, s.bot, k, t.w, t.pen)), 0, s.cur.y, false);
      CurTidy(SetRows(t, CloseRows(s.rows, s.cur.y, s.bot, k, t.w, t.pen)), 0, s.cur.y, false);
    }
  }

  lemma FeedTidy(t: T)
    requires Tidy(t)
    ensures Tidy(LineFeed(t)) && Tidy(ReverseIndex(t))
  {
    hide Tidy, Scroll, ScrollDown, SetRows;
    var s := Active(t);
    CurTidy(t, s.cur.x, s.cur.y, false);
    var t1 := SetCur(t, s.cur.x, s.cur.y, false);
    ScrollTidy(t1, 1, true);
    ScrollDownTidy(t1, 1);
    if s.cur.y < t.h - 1 {
      CurTidy(t1, s.cur.x, s.cur.y + 1, false);
    }
    if s.cur.y > 0 {
      CurTidy(t1, s.cur.x, s.cur.y - 1, false);
    }
  }

  lemma MarkTidy(t: T)
    requires Tidy(t)
    ensures var s := Active(t); Tidy(SetRows(t, s.rows[s.cur.y := s.rows[s.cur.y].(wrapped := true)]))
  {
    var s := Active(t);
    ActiveTidy(t);
    var rows := s.rows[s.cur.y := s.rows[s.cur.y].(wrapped := true)];
    assert RowsOk(rows, t.w);
    hide Tidy, SetRows, RowsOk;
    RowsTidy(t, rows);
  }

  lemma WrapTidy(t: T)
    requires Tidy(t)
    ensures Tidy(WrapToNextLine(t))
  {
    hide Tidy, LineFeed, SetRows;
    CurTidy(t, 0, Active(t).cur.y, false);
    var t0 := SetCur(t, 0, Active(t).cur.y, false);
    FeedTidy(t0);
    MarkTidy(LineFeed(t0));
  }

  // ---------------------------------------------------------------------------
  // Printing
  // ---------------------------------------------------------------------------

  lemma InsertTidy(cells: seq<Cell>, x: int, n: int, pen: Style)
    requires Fine(cells, |cells|) && 0 <= x < |cells| && n >= 0
    ensures Fine(InsertInLine(cells, x, n, pen), |cells|)
    ensures Fine(DeleteInLine(cells, x, n, pen), |cells|)
  {
    hide CellOk;
    var n' := Min(n, |cells| - x);
    BlanksTidy(n', pen);
    var moved := cells[..x] + Blanks(n', pen) + cells[x..|cells| - n'];
    BlankTidy(moved[|cells| - 1].style);
  }

  lemma PlaceTidy(cells: seq<Cell>, x: int, ch: seq<Rune>, width: int, pen: Style, link: seq<byte>)
    requires Fine(cells, |cells|) && 0 <= x < |cells| && 1 <= width <= 2 && x + width <= |cells|
    requires CellOk(Cell(ch, width, pen, link)) && CellOk(Cell([], 0, pen, link))
    ensures Fine(PlaceInLine(cells, x, ch, width, pen, link), |cells|)
  {
    hide CellOk;
    forall st ensures CellOk(Blank(st)) {
      BlankTidy(st);
    }
  }

  lemma PrintedTidy(r: Rune, width: int, pen: Style, link: seq<byte>)
    requires LinkOk(link) && !IsControl(r) && RuneWidth(r) == width >= 1
    ensures CellOk(Cell(if r == 0x20 then [] else [r], width, pen, link)) && CellOk(Cell([], 0, pen, link))
  {
    hide LinkOk;
  }

  lemma PutTidy(t: T, r: Rune, width: int)
    requires Tidy(t) && !IsControl(r) && RuneWidth(r) == width >= 1
    requires Active(t).cur.x + width <= t.w && !Active(t).cur.pendingWrap
    ensures Tidy(Place(t, r, width))
  {
    hide Tidy, SetLine, PlaceInLine, SetCur, Fine, CellOk, LinkOk, Line;
    LinkTidy(t);
    LineWide(t);
    var s := Active(t);
    var ch := if r == 0x20 then [] else [r];
    ActiveTidy(t);
    PrintedTidy(r, width, t.pen, t.link);
    PlaceTidy(Line(t), s.cur.x, ch, width, t.pen, t.link);
    PlacedLength(Line(t), s.cur.x, ch, width, t.pen, t.link);
    var line := PlaceInLine(Line(t), s.cur.x, ch, width, t.pen, t.link);
    LineTidy(t, line);
    LineSize(t, line);
    if s.cur.x + width >= t.w {
      CurTidy(SetLine(t, line), t.w - 1, s.cur.y, true);
    } else {
      CurTidy(SetLine(t, line), s.cur.x + width, s.cur.y, false);
    }
  }

  lemma PlacedLength(cells: seq<Cell>, x: int, ch: seq<Rune>, width: int, pen: Style, link: seq<byte>)
    requires 0 <= x < |cells| && 1 <= width <= 2 && x + width <= |cells|
    ensures |PlaceInLine(cells, x, ch, width, pen, link)| == |cells|
  {
  }

  lemma LineSize(t: T, cells: seq<Cell>)
    requires |cells| == t.w
    ensures SetLine(t, cells).w == t.w && SetLine(t, cells).h == t.h
  {
  }

  lemma LinkTidy(t: T)
    requires Tidy(t)
    ensures LinkOk(t.link) && LinkOk(t.main.saved.link) && LinkOk(t.alt.saved.link)
  {
    hide RowsOk, LinkOk, TextOk, ModesOk;
  }

  lemma LineWide(t: T)
    ensures |Line(t)| == t.w && 0 <= Active(t).cur.x < t.w && 0 <= Active(t).cur.y < t.h
  {
  }

  lemma CombineTidy(t: T, r: Rune)
    requires Tidy(t) && !IsControl(r) && RuneWidth(r) == 0
    ensures Tidy(Combine(t, r))
  {
    hide Tidy, SetLine, Fine, Line, Marked, RuneWidth;
    LineWide(t);
    CombineIs(t, r);
    if Target(t) >= 0 && Combines(Line(t)[Target(t)]) {
      ActiveTidy(t);
      MarkedLineTidy(Line(t), Target(t), r);
      LineTidy(t, Line(t)[Target(t) := Marked(Line(t)[Target(t)], r)]);
    }
  }

  /** The column a combining mark goes to, or -1. */
  function Target(t: T): (x: int)
    ensures -1 <= x < t.w
  {
    var x0 := if Active(t).cur.pendingWrap then t.w - 1 else Active(t).cur.x - 1;
    if x0 > 0 && Line(t)[x0].width == 0 then x0 - 1 else x0
  }

  predicate Combines(c: Cell) { c.ch != [] || c.width == 1 }

  lemma CombineIs(t: T, r: Rune)
    ensures Combine(t, r) ==
      if Target(t) >= 0 && Combines(Line(t)[Target(t)]) then SetLine(t, Line(t)[Target(t) := Marked(Line(t)[Target(t)], r)]) else t
  {
    hide SetLine, Line;
  }

  /** A cell with one more mark. */
  function Marked(c: Cell, r: Rune): Cell { c.(ch := (if c.ch == [] then [0x20] else c.ch) + [r]) }

  lemma MarkedLineTidy(cells: seq<Cell>, x: int, r: Rune)
    requires Fine(cells, |cells|) && 0 <= x < |cells| && !IsControl(r) && RuneWidth(r) == 0 && Combines(cells[x])
    ensures Fine(cells[x := Marked(cells[x], r)], |cells|)
  {
    hide CellOk;
    MarkedTidy(cells[x], r);
  }

  lemma MarkedTidy(c: Cell, r: Rune)
    requires CellOk(c) && !IsControl(r) && RuneWidth(r) == 0 && Combines(c)
    ensures CellOk(Marked(c, r))
  {
    hide LinkOk;
    assert RuneWidth(0x20) == 1;
  }

  lemma TakeWrapTidy(t: T)
    requires Tidy(t)
    ensures Tidy(TakeWrap(t))
  {
    hide Tidy, WrapToNextLine;
    if Active(t).cur.pendingWrap {
      WrapTidy(t);
      CurTidy(t, t.w - 1, Active(t).cur.y, false);
    }
  }

  lemma RoomTidy(t: T, width: int)
    requires Tidy(t) && !Active(t).cur.pendingWrap && 1 <= width <= 2
    ensures Tidy(MakeRoom(t, width))
  {
    hide Tidy, WrapToNextLine, SetLine, Line, Fine;
    var s := Active(t);
    LineWide(t);
    if width == 2 && s.cur.x == t.w - 1 {
      ActiveTidy(t);
      BlankedTidy(Line(t), s.cur.x, t.pen);
      LineTidy(t, Line(t)[s.cur.x := Blank(t.pen)]);
      WrapTidy(SetLine(t, Line(t)[s.cur.x := Blank(t.pen)]));
      CurTidy(t, t.w - 2, s.cur.y, false);
    }
  }

  lemma BlankedTidy(cells: seq<Cell>, x: int, pen: Style)
    requires Fine(cells, |cells|) && 0 <= x < |cells|
    ensures Fine(cells[x := Blank(pen)], |cells|)
  {
    hide CellOk;
    BlankTidy(pen);
  }

  lemma AsideTidy(t: T, n: int)
    requires Tidy(t) && n >= 0
    ensures Tidy(InsertCells(t, n)) && Tidy(MoveAside(t, n))
  {
    hide Tidy, SetLine, Line, Fine, InsertInLine;
    LineWide(t);
    ActiveTidy(t);
    InsertTidy(Line(t), Active(t).cur.x, n, t.pen);
    InsertedLength(Line(t), Active(t).cur.x, n, t.pen);
    LineTidy(t, InsertInLine(Line(t), Active(t).cur.x, n, t.pen));
  }

  lemma InsertedLength(cells: seq<Cell>, x: int, n: int, pen: Style)
    requires 0 <= x < |cells| && n >= 0
    ensures |InsertInLine(cells, x, n, pen)| == |cells| == |DeleteInLine(cells, x, n, pen)|
  {
  }

  lemma LastTidy(t: T, g: Rune)
    requires Tidy(t) && !IsControl(g)
    ensures Tidy(t.(lastPrinted := g))
  {
    hide ScreenOk, LinkOk, TextOk, ModesOk;
  }

  lemma PrintTidy(t: T, r: Rune)
    requires Tidy(t) && !IsControl(r)
    ensures Tidy(PrintRune(t, r))
  {
    hide Tidy, Combine, TakeWrap, MakeRoom, MoveAside, Place, RuneWidth;
    var g := Translate(t.charsets, r);
    var width := RuneWidth(g);
    PrintSteps(t, g, width);
    if width == 0 {
      CombineTidy(t, g);
    } else {
      LastTidy(t, g);
      var t1 := t.(lastPrinted := g);
      TakeWrapTidy(t1);
      RoomTidy(TakeWrap(t1), width);
      var room := MakeRoom(TakeWrap(t1), width);
      AsideTidy(room, width);
      PutTidy(MoveAside(room, width), g, width);
    }
  }

  lemma PrintSteps(t: T, g: Rune, width: int)
    requires 0 <= width <= 2
    ensures width > 0 ==> var t1 := TakeWrap(t.(lastPrinted := g));
      && !Active(t1).cur.pendingWrap
      && (var room := MakeRoom(t1, width);
        var aside := MoveAside(room, width);
        !Active(aside).cur.pendingWrap && Active(aside).cur.x + width <= aside.w)
  {
  }

  lemma {:induction false} RepeatTidy(t: T, r: Rune, n: nat)
    requires Tidy(t) && !IsControl(r)
    ensures Tidy(Repeat(t, r, n))
    decreases n
  {
    hide Tidy, PrintRune;
    if n > 0 {
      PrintTidy(t, r);
      RepeatTidy(PrintRune(t, r), r, n - 1);
    }
  }

  // ---------------------------------------------------------------------------
  // Erasing, screens and modes
  // ---------------------------------------------------------------------------

  lemma ClearTidy(t: T, from: int, to: int)
    requires Tidy(t)
    ensures Tidy(SetLine(t, ClearCells(Line(t), from, to, t.pen)))
    ensures RowsOk(ClearRows(Active(t).rows, from, to, t.w, t.pen), t.w)
    ensures Tidy(SetRows(t, ClearRows(Active(t).rows, from, to, t.w, t.pen)))
  {
    ActiveTidy(t);
    LineWide(t);
    ClearedTidy(Line(t), from, to, t.pen);
    ClearRowsTidy(Active(t).rows, from, to, t.w, t.pen);
    hide Tidy, SetLine, SetRows, Line, Fine, RowsOk;
    LineTidy(t, ClearCells(Line(t), from, to, t.pen));
    RowsTidy(t, ClearRows(Active(t).rows, from, to, t.w, t.pen));
  }

  lemma ClearedTidy(cells: seq<Cell>, from: int, to: int, pen: Style)
    requires Fine(cells, |cells|)
    ensures Fine(ClearCells(cells, from, to, pen), |cells|)
  {
    hide CellOk;
    BlankTidy(pen);
  }

  lemma EraseLineTidy(t: T, mode: int)
    requires Tidy(t)
    ensures Tidy(EraseInLine(t, mode))
  {
    hide Tidy, SetLine, ClearCells, Line;
    LineWide(t);
    var x := Active(t).cur.x;
    ClearTidy(t, x, t.w);
    ClearTidy(t, 0, x + 1);
    ClearTidy(t, 0, x + 2);
    ClearTidy(t, 0, t.w);
  }

  lemma EraseDisplayTidy(t: T, mode: int)
    requires Tidy(t)
    ensures Tidy(EraseInDisplay(t, mode))
  {
    hide Tidy, SetRows, ClearRows, EraseInLine, RowsOk;
    var s := Active(t);
    if mode == 0 {
      EraseLineTidy(t, 0);
      ErasedKeeps(t);
      ClearTidy(EraseInLine(t, 0), s.cur.y + 1, t.h);
    } else if mode == 1 {
      ClearTidy(t, 0, s.cur.y);
      EraseLineTidy(SetRows(t, ClearRows(s.rows, 0, s.cur.y, t.w, t.pen)), 1);
    } else if mode == 2 {
      ClearTidy(t, 0, t.h);
    } else if mode == 3 {
      ActiveTidy(t);
      NoRowsTidy(t.w);
      WithTidy(t, s.rows, []);
    }
  }

  lemma NoRowsTidy(w: int)
    ensures RowsOk([], w)
  {
  }

  lemma ErasedKeeps(t: T)
    ensures EraseInLine(t, 0).w == t.w && EraseInLine(t, 0).h == t.h && EraseInLine(t, 0).pen == t.pen
  {
  }

  lemma CharsTidy(t: T, n: nat)
    requires Tidy(t)
    ensures Tidy(EraseChars(t, n)) && Tidy(DeleteChars(t, n))
  {
    hide Tidy, SetLine, ClearCells, Line, DeleteInLine, Fine, RowsOk;
    var s := Active(t);
    LineWide(t);
    ActiveTidy(t);
    ClearTidy(t, s.cur.x, s.cur.x + n);
    InsertTidy(Line(t), s.cur.x, n, t.pen);
    InsertedLength(Line(t), s.cur.x, n, t.pen);
    ClearedLength(Line(t), s.cur.x, s.cur.x + n, t.pen);
    LineTidy(t, DeleteInLine(Line(t), s.cur.x, n, t.pen));
    LineSize(t, DeleteInLine(Line(t), s.cur.x, n, t.pen));
    LineSize(t, ClearCells(Line(t), s.cur.x, s.cur.x + n, t.pen));
    CurTidy(SetLine(t, DeleteInLine(Line(t), s.cur.x, n, t.pen)), s.cur.x, s.cur.y, false);
    CurTidy(SetLine(t, ClearCells(Line(t), s.cur.x, s.cur.x + n, t.pen)), s.cur.x, s.cur.y, false);
  }

  lemma ClearedLength(cells: seq<Cell>, from: int, to: int, pen: Style)
    ensures |ClearCells(cells, from, to, pen)| == |cells|
  {
  }

  lemma FieldsTidy(t: T, r: T)
    requires Tidy(t) && r.main == t.main && r.alt == t.alt && LinkOk(r.link) && TextOk(r.title, 2) && ModesOk(r.modes)
    requires r.lastPrinted == t.lastPrinted && r.w == t.w
    ensures Tidy(r)
  {
    hide ScreenOk, LinkOk, TextOk, ModesOk;
  }

  /** Cursors, margins and saved positions carry no content but a saved link. */
  lemma PlacesTidy(t: T, r: T)
    requires Tidy(t) && r == t.(main := r.main, alt := r.alt, altActive := r.altActive)
    requires r.main == t.main.(cur := r.main.cur, saved := r.main.saved, top := r.main.top, bot := r.main.bot)
    requires r.alt == t.alt.(cur := r.alt.cur, saved := r.alt.saved, top := r.alt.top, bot := r.alt.bot)
    requires LinkOk(r.main.saved.link) && LinkOk(r.alt.saved.link)
    ensures Tidy(r)
  {
    hide RowsOk, LinkOk, TextOk, ModesOk;
  }

  lemma MoveTidy(t: T, x: int, y: int)
    requires Tidy(t)
    ensures Tidy(MoveCursor(t, x, y)) && Tidy(SetColumn(t, x))
  {
    hide Tidy, SetCur;
    var s := Active(t);
    var y' := if t.modes.origin then Clamp(y, s.top, s.bot) else Clamp(y, 0, t.h - 1);
    LineWide(t);
    CurTidy(t, Clamp(x, 0, t.w - 1), y', false);
    CurTidy(t, Clamp(x, 0, t.w - 1), s.cur.y, false);
  }

  lemma StepTidy(t: T, n: nat)
    requires Tidy(t)
    ensures Tidy(CursorUp(t, n)) && Tidy(CursorDown(t, n)) && Tidy(TabForward(t, n)) && Tidy(TabBackward(t, n))
  {
    hide Tidy, SetCur;
    var s := Active(t);
    LineWide(t);
    CurTidy(t, s.cur.x, Max(s.cur.y - n, if s.cur.y >= s.top then s.top else 0), false);
    CurTidy(t, s.cur.x, Min(s.cur.y + n, if s.cur.y <= s.bot then s.bot else t.h - 1), false);
    CurTidy(t, StopsForward(t.tabStops, s.cur.x, n), s.cur.y, false);
    CurTidy(t, StopsBackward(t.tabStops, s.cur.x, n), s.cur.y, false);
  }

  lemma SavesTidy(t: T)
    requires Tidy(t)
    ensures Tidy(SaveCursor(t)) && Tidy(RestoreCursor(t))
  {
    LinkTidy(t);
    PlacesTidy(t, SaveCursor(t));
    hide Tidy, SetCur, MoveCursor, LinkOk;
    MoveTidy(t, 0, 0);
    BlankTidy(PLAIN);
    var s := Active(t);
    if !s.saved.valid {
      var m := MoveCursor(t, 0, 0);
      RestoredTidy(m, PLAIN, [], m.charsets, m.modes.origin);
    } else {
      RestoredTidy(t, s.saved.pen, s.saved.link, s.saved.charsets, s.saved.origin);
      var t1 := t.(pen := s.saved.pen, link := s.saved.link, charsets := s.saved.charsets, modes := t.modes.(origin := s.saved.origin));
      CurTidy(t1, s.saved.x, s.saved.y, false);
    }
  }

  lemma RestoredTidy(t: T, pen: Style, link: seq<byte>, cs: Charsets, origin: bool)
    requires Tidy(t) && LinkOk(link) && 0 <= cs.gl <= 1
    ensures Tidy(t.(pen := pen, link := link, charsets := cs, modes := t.modes.(origin := origin)))
  {
    hide ScreenOk, LinkOk, TextOk;
  }

  lemma AltTidy(t: T, save: bool)
    requires Tidy(t)
    ensures Tidy(EnterAlt(t, save)) && Tidy(LeaveAlt(t, save))
  {
    SavesTidy(t);
    var t1 := if save then SaveCursor(t) else t;
    AltRowsTidy(t1);
    LinkTidy(t);
    if t.altActive {
      var t2 := t.(altActive := false, main := t.main.(cur := Cursor(t.alt.cur.x, t.alt.cur.y, false)));
      PlacesTidy(t, t2);
      SavesTidy(t2);
    }
    hide Tidy, SaveCursor, RestoreCursor;
  }

  lemma AltRowsTidy(t: T)
    requires Tidy(t)
    ensures !t.altActive ==> Tidy(EnterAlt(t, false))
  {
    ClearRowsTidy(t.alt.rows, 0, t.h, t.w, t.pen);
    hide RowsOk, LinkOk, TextOk, ModesOk, ClearRows;
  }

  lemma ResetTidy(t: T)
    requires Tidy(t)
    ensures Tidy(SoftReset(t)) && Tidy(FullReset(t))
  {
    NewTidy(t.w, t.h, t.maxScrollback);
    BlankTidy(PLAIN);
    hide RowsOk, LinkOk, TextOk, MouseOk, MouseEncOk;
  }

  lemma AlignTidy(t: T)
    requires Tidy(t)
    ensures Tidy(Align(t))
  {
    hide Tidy, RowsOk, MoveCursor, CellOk;
    var e := Cell(['E' as int], 1, PLAIN, []);
    var rows := seq(t.h, i => Row(seq(t.w, i => e), false));
    EIsOk();
    AllTidy(rows, e, t.w);
    FilledTidy(t, rows);
    var f := With(t, Active(t).(rows := rows, top := 0, bot := t.h - 1));
    AlignedIs(t, rows);
    MoveTidy(f, 0, 0);
  }

  lemma AlignedIs(t: T, rows: seq<Row>)
    requires rows == seq(t.h, i => Row(seq(t.w, i => Cell(['E' as int], 1, PLAIN, [])), false))
    ensures RowsFit(rows, t.w) && Align(t) == MoveCursor(With(t, Active(t).(rows := rows, top := 0, bot := t.h - 1)), 0, 0)
  {
    hide MoveCursor;
    var e := Row(seq(t.w, i => Cell(['E' as int], 1, PLAIN, [])), false);
    assert rows == seq(t.h, i => e);
  }

  lemma AllTidy(rows: seq<Row>, c: Cell, w: nat)
    requires CellOk(c) && c.width == 1 && forall y :: 0 <= y < |rows| ==> rows[y].cells == seq(w, i => c)
    ensures RowsOk(rows, w)
  {
    hide CellOk;
  }

  lemma FilledTidy(t: T, rows: seq<Row>)
    requires Tidy(t) && |rows| == t.h && RowsFit(rows, t.w) && RowsOk(rows, t.w)
    ensures Tidy(With(t, Active(t).(rows := rows, top := 0, bot := t.h - 1)))
  {
    hide RowsOk, LinkOk, TextOk, ModesOk;
  }

  lemma EIsOk()
    ensures CellOk(Cell(['E' as int], 1, PLAIN, []))
  {
    assert RuneWidth('E' as int) == 1;
  }

  lemma {:induction false} ModesTidy(t: T, ps: seq<Param>, on: bool)
    requires Tidy(t)
    ensures Tidy(SetModes(t, ps, on))
    decreases |ps|
  {
    hide Tidy, ModesOk, LinkOk, TextOk;
    if ps != [] {
      BesideTidy(t);
      OriginTidy(t.modes, on);
      var t1 := t.(modes := SetMode(t.modes, RawParam(ps, 0, -1), on));
      FieldsTidy(t, t1);
      ModesTidy(t1, ps[1..], on);
    }
  }

  lemma FlagTidy(m: Modes, n: int, on: bool)
    requires ModesOk(m)
    ensures ModesOk(PrivateFlag(m, n, on))
  {
    hide PrivateFlag;
    if n == 9 || n == 1000 || n == 1002 || n == 1003 {
      MouseFlag(m, n, on);
    } else if n == 1005 || n == 1006 || n == 1015 {
      EncodingFlag(m, n, on);
    } else {
      OtherFlag(m, n, on);
    }
  }

  lemma MouseFlag(m: Modes, n: int, on: bool)
    requires n == 9 || n == 1000 || n == 1002 || n == 1003
    ensures PrivateFlag(m, n, on) == m.(mouse := if on then n else if m.mouse == n then 0 else m.mouse)
  {
  }

  lemma EncodingFlag(m: Modes, n: int, on: bool)
    requires n == 1005 || n == 1006 || n == 1015
    ensures PrivateFlag(m, n, on) == m.(mouseEnc := if on then n else if m.mouseEnc == n then 0 else m.mouseEnc)
  {
  }

  lemma OtherFlag(m: Modes, n: int, on: bool)
    requires n != 9 && n != 1000 && n != 1002 && n != 1003 && n != 1005 && n != 1006 && n != 1015
    ensures var r := PrivateFlag(m, n, on); r.mouse == m.mouse && r.mouseEnc == m.mouseEnc && r.cursorStyle == m.cursorStyle
  {
    if n == 1 {
    } else if n == 7 {
    } else if n == 25 {
    } else if n == 1004 {
    } else if n == 2004 {
    } else {
      assert PrivateFlag(m, n, on) == m;
    }
  }

  lemma PrivateTidy(t: T, n: int, on: bool)
    requires Tidy(t)
    ensures Tidy(SetPrivateMode(t, n, on))
  {
    hide Tidy, MoveCursor, EnterAlt, LeaveAlt, PrivateFlag, ModesOk, LinkOk, TextOk;
    AltTidy(t, n == 1049);
    BesideTidy(t);
    FlagTidy(t.modes, n, on);
    OriginTidy(t.modes, on);
    FieldsTidy(t, t.(modes := PrivateFlag(t.modes, n, on)));
    FieldsTidy(t, t.(modes := t.modes.(origin := on)));
    MoveTidy(t.(modes := t.modes.(origin := on)), 0, 0);
  }

  lemma BesideTidy(t: T)
    requires Tidy(t)
    ensures LinkOk(t.link) && TextOk(t.title, 2) && ModesOk(t.modes)
  {
    hide ScreenOk, LinkOk, TextOk, ModesOk;
  }

  lemma OriginTidy(m: Modes, on: bool)
    requires ModesOk(m)
    ensures ModesOk(m.(origin := on)) && ModesOk(m.(lineFeedNewline := on)) && ModesOk(m.(insert := on))
  {
  }

  lemma {:induction false} PrivatesTidy(t: T, ps: seq<Param>, on: bool)
    requires Tidy(t)
    ensures Tidy(SetPrivateModes(t, ps, on))
    decreases |ps|
  {
    hide Tidy, SetPrivateMode;
    if ps != [] {
      PrivateTidy(t, RawParam(ps, 0, -1), on);
      PrivatesTidy(SetPrivateMode(t, RawParam(ps, 0, -1), on), ps[1..], on);
    }
  }

  // ---------------------------------------------------------------------------
  // Dispatch
  // ---------------------------------------------------------------------------

  /** What follows a semicolon in an OSC string fits behind what came before it. */
  lemma {:induction false} TailFits(s: seq<byte>, used: nat, k: nat)
    requires OscFits(s, used) && 0 < k <= |s| && s[k - 1] == 0x3b
    ensures OscFits(s[k..], used + k)
    decreases |s|
  {
    hide Decode;
    var n := Decode(s).1;
    DecodeLength(s);
    if k > n {
      assert s[n..][k - n..] == s[k..] && s[n..][k - n - 1] == s[k - 1];
      TailFits(s[n..], used + n, k - n);
    }
  }

  lemma DecodeLength(s: seq<byte>)
    requires s != []
    ensures var n := Decode(s).1; 1 <= n <= |s| && (n > 1 ==> forall i :: 0 <= i < n ==> s[i] >= 0x80) && (s[0] < 0x80 ==> n == 1)
  {
  }

  lemma EarlierFits(s: seq<byte>, used: nat, used': nat)
    requires TextOk(s, used) && used' <= used
    ensures TextOk(s, used')
  {
    OscFitsEarlier(s, used, used');
  }

  lemma TailText(s: seq<byte>, used: nat, k: nat)
    requires TextOk(s, used) && 0 < k <= |s| && s[k - 1] == 0x3b
    ensures TextOk(s[k..], used + k)
  {
    TailFits(s, used, k);
    hide OscFits;
  }

  lemma OscTidy(t: T, data: seq<byte>)
    requires Tidy(t) && TextOk(data, 0)
    ensures Tidy(ApplyOsc(t, data))
  {
    hide Tidy, TextOk, ModesOk, Atoi;
    BesideTidy(t);
    var sep := Semicolon(data);
    if sep < |data| && Atoi(data[..sep]).Some? {
      CodeLength(data[..sep]);
      var arg := data[sep + 1..];
      TailText(data, 0, sep + 1);
      EarlierFits(arg, sep + 1, 2);
      FieldsTidy(t, t.(title := arg));
      var p := Semicolon(arg);
      if p < |arg| {
        TailText(arg, 2, p + 1);
        EarlierFits(arg[p + 1..], 2 + p + 1, 3);
        FieldsTidy(t, t.(link := arg[p + 1..]));
      }
    }
  }

  lemma CodeLength(s: seq<byte>)
    requires Atoi(s).Some?
    ensures |s| >= 1
  {
  }

  lemma RegionTidy(t: T, ps: seq<Param>)
    requires Tidy(t)
    ensures Tidy(SetRegion(t, ps))
  {
    var top := ParamAt(ps, 0, 1) - 1;
    var bot := Min(ParamAt(ps, 1, t.h) - 1, t.h - 1);
    if top < bot {
      LinkTidy(t);
      var r := With(t, Active(t).(top := top, bot := bot));
      PlacesTidy(t, r);
      MoveTidy(r, 0, 0);
    }
    hide Tidy, MoveCursor;
  }

  lemma MotionTidy(t: T, ps: seq<Param>, f: byte)
    requires Tidy(t)
    ensures Tidy(ApplyMotion(t, ps, f))
  {
    hide Tidy, MoveCursor, SetColumn, CursorUp, CursorDown, TabForward, TabBackward;
    var s, n := Active(t), ParamAt(ps, 0, 1);
    StepTidy(t, n);
    MoveTidy(t, s.cur.x + n, 0);
    MoveTidy(t, s.cur.x - n, 0);
    MoveTidy(CursorDown(t, n), 0, 0);
    MoveTidy(CursorUp(t, n), 0, 0);
    MoveTidy(t, n - 1, 0);
    var y := n - 1 + if t.modes.origin then s.top else 0;
    MoveTidy(t, ParamAt(ps, 1, 1) - 1, y);
    MoveTidy(t, s.cur.x, y);
  }

  lemma EditTidy(t: T, ps: seq<Param>, f: byte)
    requires Tidy(t)
    ensures Tidy(ApplyEdit(t, ps, f))
  {
    hide Tidy, InsertCells, SetCur, EraseInDisplay, EraseInLine, InsertLines, DeleteLines, DeleteChars, Scroll, ScrollDown, EraseChars, Repeat;
    var n := ParamAt(ps, 0, 1);
    AsideTidy(t, n);
    var t1 := InsertCells(t, n);
    LineWide(t1);
    CurTidy(t1, Active(t1).cur.x, Active(t1).cur.y, false);
    EraseDisplayTidy(t, RawParam(ps, 0, 0));
    EraseLineTidy(t, RawParam(ps, 0, 0));
    LinesTidy(t, n);
    CharsTidy(t, n);
    ScrollTidy(t, n, false);
    ScrollDownTidy(t, n);
    if t.lastPrinted != 0 {
      LastSeen(t);
      RepeatTidy(t, t.lastPrinted, n);
    }
  }

  lemma LastSeen(t: T)
    requires Tidy(t) && t.lastPrinted != 0
    ensures !IsControl(t.lastPrinted)
  {
    hide ScreenOk, LinkOk, TextOk, ModesOk;
  }

  lemma PlainCsiTidy(t: T, ps: seq<Param>, f: byte)
    requires Tidy(t) && ParamsOk(ps)
    ensures Tidy(ApplyPlainCsi(t, ps, f))
  {
    hide Tidy, ApplyMotion, ApplyEdit, SetModes, Sgr, SetRegion, SaveCursor, RestoreCursor, LinkOk, TextOk, ModesOk;
    BesideTidy(t);
    MotionTidy(t, ps, f);
    EditTidy(t, ps, f);
    FieldsTidy(t, ClearTabs(t, RawParam(ps, 0, 0)));
    ModesTidy(t, ps, true);
    ModesTidy(t, ps, false);
    FieldsTidy(t, t.(pen := Sgr(ps, t.pen)));
    RegionTidy(t, ps);
    SavesTidy(t);
  }

  lemma CsiTidy(t: T, priv: byte, inter: byte, ps: seq<Param>, f: byte)
    requires Tidy(t) && ParamsOk(ps)
    ensures Tidy(ApplyCsi(t, priv, inter, ps, f))
  {
    hide Tidy, ApplyPlainCsi, SetPrivateModes, SoftReset, LinkOk, TextOk, ModesOk;
    BesideTidy(t);
    StyleTidy(t.modes, ps);
    FieldsTidy(t, t.(modes := t.modes.(cursorStyle := RawParam(ps, 0, 0))));
    ResetTidy(t);
    PrivatesTidy(t, ps, true);
    PrivatesTidy(t, ps, false);
    PlainCsiTidy(t, ps, f);
  }

  lemma StyleTidy(m: Modes, ps: seq<Param>)
    requires ModesOk(m) && ParamsOk(ps)
    ensures ModesOk(m.(cursorStyle := RawParam(ps, 0, 0)))
  {
  }

  lemma EscTidy(t: T, inter: byte, final: byte)
    requires Tidy(t)
    ensures Tidy(ApplyEsc(t, inter, final))
  {
    hide Tidy, SaveCursor, RestoreCursor, LineFeed, ReverseIndex, FullReset, Align, SetCur, LinkOk, TextOk, ModesOk;
    BesideTidy(t);
    SavesTidy(t);
    FeedTidy(t);
    LineWide(LineFeed(t));
    LineWide(t);
    CurTidy(LineFeed(t), 0, Active(LineFeed(t)).cur.y, false);
    FieldsTidy(t, t.(tabStops := t.tabStops[Active(t).cur.x := true]));
    ResetTidy(t);
    AlignTidy(t);
    FieldsTidy(t, t.(charsets := t.charsets.(g0 := Designate(final))));
    FieldsTidy(t, t.(charsets := t.charsets.(g1 := Designate(final))));
  }

  lemma ExecuteTidy(t: T, b: byte)
    requires Tidy(t)
    ensures Tidy(ApplyExecute(t, b))
  {
    hide Tidy, LineFeed, SetCur, TabForward, LinkOk, TextOk, ModesOk;
    BesideTidy(t);
    var s := Active(t);
    LineWide(t);
    CurTidy(t, Max(s.cur.x - 1, 0), s.cur.y, false);
    CurTidy(t, 0, s.cur.y, false);
    StepTidy(t, 1);
    FeedTidy(t);
    LineWide(LineFeed(t));
    CurTidy(LineFeed(t), 0, Active(LineFeed(t)).cur.y, false);
    FieldsTidy(t, t.(charsets := t.charsets.(gl := 1)));
    FieldsTidy(t, t.(charsets := t.charsets.(gl := 0)));
  }

  /** No action that the parser dispatches from well-formed output leaves anything
      a snapshot could not write. */
  lemma ApplyTidy(t: T, a: Action)
    requires Tidy(t) && ActionOk(a) && ActionClean(a)
    ensures Tidy(Apply(t, a))
  {
    hide Tidy, PrintRune, ApplyExecute, ApplyEsc, ApplyCsi, ApplyOsc, OscFits, NoControls;
    match a
    case Print(r) => PrintTidy(t, r);
    case Execute(b) => ExecuteTidy(t, b);
    case EscDispatch(inter, final) => EscTidy(t, inter, final);
    case CsiDispatch(priv, inter, ps, final) => CsiTidy(t, priv, inter, ps, final);
    case OscDispatch(data) => OscTidy(t, data);
  }

  lemma {:induction false} ApplyAllTidy(t: T, acts: seq<Action>)
    requires Tidy(t) && AllOk(acts) && AllClean(acts)
    ensures Tidy(ApplyAll(t, acts))
    decreases |acts|
  {
    hide Tidy, Apply, ActionOk, ActionClean;
    if acts != [] {
      ApplyTidy(t, acts[0]);
      ApplyAllTidy(Apply(t, acts[0]), acts[1..]);
    }
  }

  /** Whatever well-formed output a fresh terminal is given, in whatever pieces,
      its cells, links, title and modes can be written. */
  lemma RunsAreTidy(w: nat, h: nat, max: nat, chunks: seq<seq<byte>>)
    requires w >= 2 && h >= 1 && NoTorn(Flatten(chunks))
    ensures Tidy(WriteAll(NewEmulator(w, h, max), chunks).t)
  {
    hide Tidy, Parse, ApplyAll, WriteAll, NoTorn;
    var e, data := NewEmulator(w, h, max), Flatten(chunks);
    assert INIT.partial + data == data;
    WriteChunks(e, chunks);
    InitBounded();
    ParseBounded(INIT, data);
    InitPending();
    ParseClean(INIT, data);
    NewTidy(w, h, max);
    ApplyAllTidy(e.t, Parse(INIT, data).acts);
  }

  lemma InitPending()
    ensures Pending(INIT) && NoControls(INIT.osc)
  {
  }
}
