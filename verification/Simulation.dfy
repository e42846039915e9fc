/** Two terminals that differ only in what the user cannot see yet (the last
    printed rune and the inactive alternate screen) react alike to everything
    but a repeat of that rune. */
module Simulation {
  import opened Utf8
  import opened Cells
  import opened Width
  import opened Parser
  import opened Terminal
  import opened Dispatch

  /** Equal but for the last printed rune, unless it is `known`, and an inactive
      alternate screen, whose saved cursor still counts. */
  predicate Sim(known: bool, d: T, t: T) {
    && d == t.(lastPrinted := if known then t.lastPrinted else d.lastPrinted,
               alt := if t.altActive then t.alt else d.alt)
    && d.alt.saved == t.alt.saved
  }

  /** What similar terminals share. */
  lemma Alike(known: bool, d: T, t: T)
    requires Sim(known, d, t)
    ensures Active(d) == Active(t) && d.w == t.w && d.h == t.h && d.maxScrollback == t.maxScrollback
    ensures d.pen == t.pen && d.link == t.link && d.modes == t.modes && d.charsets == t.charsets
    ensures d.tabStops == t.tabStops && d.title == t.title && d.altActive == t.altActive
    ensures Line(d) == Line(t)
  {
    hide ScreenFits;
  }

  lemma SimCur(known: bool, d: T, t: T, x: int, y: int, pending: bool)
    requires Sim(known, d, t) && 0 <= x < t.w && 0 <= y < t.h && (pending ==> x == t.w - 1)
    ensures d.w == t.w && d.h == t.h && Sim(known, SetCur(d, x, y, pending), SetCur(t, x, y, pending))
  {
    hide ScreenFits;
  }

  lemma SimRows(known: bool, d: T, t: T, rows: seq<Row>)
    requires Sim(known, d, t) && |rows| == t.h && RowsFit(rows, t.w)
    ensures d.w == t.w && d.h == t.h && Sim(known, SetRows(d, rows), SetRows(t, rows))
  {
    hide ScreenFits, RowsFit;
  }

  lemma SimLine(known: bool, d: T, t: T, cells: seq<Cell>)
    requires Sim(known, d, t) && |cells| == t.w
    ensures d.w == t.w && Sim(known, SetLine(d, cells), SetLine(t, cells))
  {
    hide ScreenFits, RowsFit;
  }

  lemma SimScroll(known: bool, d: T, t: T, n: int, keep: bool)
    requires Sim(known, d, t)
    ensures Sim(known, Scroll(d, n, keep), Scroll(t, n, keep))
  {
    hide ScreenFits, RowsFit, ScrollRows, PushAll;
  }

  lemma SimScrollDown(known: bool, d: T, t: T, n: int)
    requires Sim(known, d, t)
    ensures Sim(known, ScrollDown(d, n), ScrollDown(t, n))
  {
    hide ScreenFits, RowsFit, OpenRows, PushAll;
  }

  lemma SimLineFeed(known: bool, d: T, t: T)
    requires Sim(known, d, t)
    ensures Sim(known, LineFeed(d), LineFeed(t))
  {
    hide RowsFit, Scroll, SetCur, Sim;
    Alike(known, d, t);
    var s := Active(t);
    SimCur(known, d, t, s.cur.x, s.cur.y, false);
    var d1, t1 := SetCur(d, s.cur.x, s.cur.y, false), SetCur(t, s.cur.x, s.cur.y, false);
    if s.cur.y == s.bot {
      SimScroll(known, d1, t1, 1, true);
    } else if s.cur.y < t.h - 1 {
      Alike(known, d1, t1);
      CurKeeps(t, s.cur.x, s.cur.y);
      SimCur(known, d1, t1, s.cur.x, s.cur.y + 1, false);
    }
  }

  lemma CurKeeps(t: T, x: int, y: int)
    requires 0 <= x < t.w && 0 <= y < t.h
    ensures var e := SetCur(t, x, y, false); e.w == t.w && e.h == t.h && e.modes == t.modes
  {
    hide ScreenFits;
  }

  lemma SimReverse(known: bool, d: T, t: T)
    requires Sim(known, d, t)
    ensures Sim(known, ReverseIndex(d), ReverseIndex(t))
  {
    hide RowsFit, ScrollDown, SetCur, Sim;
    Alike(known, d, t);
    var s := Active(t);
    SimCur(known, d, t, s.cur.x, s.cur.y, false);
    var d1, t1 := SetCur(d, s.cur.x, s.cur.y, false), SetCur(t, s.cur.x, s.cur.y, false);
    if s.cur.y == s.top {
      SimScrollDown(known, d1, t1, 1);
    } else if s.cur.y > 0 {
      Alike(known, d1, t1);
      CurKeeps(t, s.cur.x, s.cur.y);
      SimCur(known, d1, t1, s.cur.x, s.cur.y - 1, false);
    }
  }

  // ---------------------------------------------------------------------------
  // Editing and movement
  // ---------------------------------------------------------------------------

  lemma SimInsertCells(known: bool, d: T, t: T, n: nat)
    requires Sim(known, d, t)
    ensures Sim(known, InsertCells(d, n), InsertCells(t, n))
  {
    hide ScreenFits, RowsFit, InsertInLine;
  }

  lemma SimDeleteChars(known: bool, d: T, t: T, n: nat)
    requires Sim(known, d, t)
    ensures Sim(known, DeleteChars(d, n), DeleteChars(t, n))
  {
    hide ScreenFits, RowsFit, DeleteInLine;
  }

  lemma SimEraseChars(known: bool, d: T, t: T, n: nat)
    requires Sim(known, d, t)
    ensures Sim(known, EraseChars(d, n), EraseChars(t, n))
  {
    hide ScreenFits, RowsFit, ClearCells;
  }

  lemma SimEraseInLine(known: bool, d: T, t: T, mode: int)
    requires Sim(known, d, t)
    ensures Sim(known, EraseInLine(d, mode), EraseInLine(t, mode))
  {
    hide ScreenFits, RowsFit, ClearCells;
  }

  lemma SimInsertLines(known: bool, d: T, t: T, n: int)
    requires Sim(known, d, t) && n >= 1
    ensures Sim(known, InsertLines(d, n), InsertLines(t, n))
  {
    hide ScreenFits, RowsFit, OpenRows;
  }

  lemma SimDeleteLines(known: bool, d: T, t: T, n: int)
    requires Sim(known, d, t) && n >= 1
    ensures Sim(known, DeleteLines(d, n), DeleteLines(t, n))
  {
    hide ScreenFits, RowsFit, CloseRows;
  }

  lemma SimMove(known: bool, d: T, t: T, x: int, y: int)
    requires Sim(known, d, t)
    ensures Sim(known, MoveCursor(d, x, y), MoveCursor(t, x, y))
  {
    hide ScreenFits, RowsFit;
  }

  lemma SimColumn(known: bool, d: T, t: T, x: int)
    requires Sim(known, d, t)
    ensures Sim(known, SetColumn(d, x), SetColumn(t, x))
  {
    hide ScreenFits, RowsFit;
  }

  lemma SimUp(known: bool, d: T, t: T, n: nat)
    requires Sim(known, d, t)
    ensures Sim(known, CursorUp(d, n), CursorUp(t, n))
  {
    hide ScreenFits, RowsFit;
  }

  lemma SimDown(known: bool, d: T, t: T, n: nat)
    requires Sim(known, d, t)
    ensures Sim(known, CursorDown(d, n), CursorDown(t, n))
  {
    hide ScreenFits, RowsFit;
  }

  lemma SimTabForward(known: bool, d: T, t: T, n: nat)
    requires Sim(known, d, t)
    ensures Sim(known, TabForward(d, n), TabForward(t, n))
  {
    hide ScreenFits, RowsFit, StopsForward;
  }

  lemma SimTabBackward(known: bool, d: T, t: T, n: nat)
    requires Sim(known, d, t)
    ensures Sim(known, TabBackward(d, n), TabBackward(t, n))
  {
    hide ScreenFits, RowsFit, StopsBackward;
  }

  lemma SimSave(known: bool, d: T, t: T)
    requires Sim(known, d, t)
    ensures Sim(known, SaveCursor(d), SaveCursor(t))
  {
    hide ScreenFits, RowsFit;
  }

  lemma SimRestore(known: bool, d: T, t: T)
    requires Sim(known, d, t)
    ensures Sim(known, RestoreCursor(d), RestoreCursor(t))
  {
    hide ScreenFits, RowsFit;
  }

  lemma SimSoftReset(known: bool, d: T, t: T)
    requires Sim(known, d, t)
    ensures Sim(known, SoftReset(d), SoftReset(t))
  {
    hide ScreenFits, RowsFit;
  }

  lemma SimFullReset(known: bool, d: T, t: T)
    requires Sim(known, d, t)
    ensures Sim(known, FullReset(d), FullReset(t))
  {
    hide ScreenFits, RowsFit, BlankRows;
  }

  lemma SimAlign(known: bool, d: T, t: T)
    requires Sim(known, d, t)
    ensures Sim(known, Align(d), Align(t))
  {
    hide ScreenFits, RowsFit;
  }

  /** The alternate screen is wiped on the way in, so what it held is gone. */
  lemma SimEnter(known: bool, d: T, t: T, save: bool)
    requires Sim(known, d, t)
    ensures Sim(known, EnterAlt(d, save), EnterAlt(t, save))
  {
    hide RowsFit, ScreenFits, ClearRows;
    if !t.altActive {
      SimSave(known, d, t);
      SaveMain(d);
      SaveMain(t);
      Wiped(d);
      Wiped(t);
    }
  }

  lemma SaveMain(t: T)
    requires !t.altActive
    ensures var e := SaveCursor(t); e.alt == t.alt && e.pen == t.pen && e.w == t.w && e.h == t.h && !e.altActive
  {
    hide ScreenFits;
  }

  lemma Wiped(t: T)
    ensures ClearRows(t.alt.rows, 0, t.h, t.w, t.pen) == BlankRows(t.h, t.w, t.pen)
    ensures t.alt == Screen(t.alt.rows, t.alt.cur, t.alt.saved, t.alt.top, t.alt.bot, [])
  {
    var a, b := ClearRows(t.alt.rows, 0, t.h, t.w, t.pen), BlankRows(t.h, t.w, t.pen);
    forall y | 0 <= y < t.h ensures a[y] == b[y] {
    }
    assert |a| == |b|;
  }

  lemma SimLeave(known: bool, d: T, t: T, restore: bool)
    requires Sim(known, d, t)
    ensures Sim(known, LeaveAlt(d, restore), LeaveAlt(t, restore))
  {
    hide ScreenFits, RowsFit;
  }

  lemma SimEraseInDisplay(known: bool, d: T, t: T, mode: int)
    requires Sim(known, d, t)
    ensures Sim(known, EraseInDisplay(d, mode), EraseInDisplay(t, mode))
  {
    hide RowsFit, ClearRows, EraseInLine, SetRows, Sim;
    Alike(known, d, t);
    var s := Active(t);
    if mode == 0 {
      SimEraseInLine(known, d, t, 0);
      Alike(known, EraseInLine(d, 0), EraseInLine(t, 0));
      EraseKeeps(t, 0);
      SimRows(known, EraseInLine(d, 0), EraseInLine(t, 0), ClearRows(Active(EraseInLine(t, 0)).rows, s.cur.y + 1, t.h, t.w, t.pen));
    } else if mode == 1 {
      var rows := ClearRows(s.rows, 0, s.cur.y, t.w, t.pen);
      SimRows(known, d, t, rows);
      SimEraseInLine(known, SetRows(d, rows), SetRows(t, rows), 1);
    } else if mode == 2 {
      SimRows(known, d, t, ClearRows(s.rows, 0, t.h, t.w, t.pen));
    } else if mode == 3 {
      SimClearHistory(known, d, t);
    }
  }

  lemma EraseKeeps(t: T, mode: int)
    ensures EraseInLine(t, mode).w == t.w && EraseInLine(t, mode).h == t.h
  {
    hide ScreenFits, ClearCells;
  }

  lemma SimClearHistory(known: bool, d: T, t: T)
    requires Sim(known, d, t)
    ensures Sim(known, EraseInDisplay(d, 3), EraseInDisplay(t, 3))
  {
    hide ScreenFits, EraseInLine, ClearRows;
  }

  // ---------------------------------------------------------------------------
  // Printing
  // ---------------------------------------------------------------------------

  lemma SimWrap(known: bool, d: T, t: T)
    requires Sim(known, d, t)
    ensures Sim(known, WrapToNextLine(d), WrapToNextLine(t))
  {
    hide RowsFit, LineFeed, SetCur, Sim, SetRows;
    Alike(known, d, t);
    var y := Active(t).cur.y;
    SimCur(known, d, t, 0, y, false);
    var d1, t1 := LineFeed(SetCur(d, 0, y, false)), LineFeed(SetCur(t, 0, y, false));
    SimLineFeed(known, SetCur(d, 0, y, false), SetCur(t, 0, y, false));
    Alike(known, d1, t1);
    var s := Active(t1);
    WrappedFit(t1);
    SimRows(known, d1, t1, s.rows[s.cur.y := s.rows[s.cur.y].(wrapped := true)]);
  }

  lemma WrappedFit(t: T)
    ensures var s := Active(t);
      0 <= s.cur.y < |s.rows| == t.h && RowsFit(s.rows[s.cur.y := s.rows[s.cur.y].(wrapped := true)], t.w)
  {
  }

  lemma SimTakeWrap(known: bool, d: T, t: T)
    requires Sim(known, d, t)
    ensures Sim(known, TakeWrap(d), TakeWrap(t))
  {
    hide RowsFit, WrapToNextLine, SetCur, Sim;
    Alike(known, d, t);
    SimWrap(known, d, t);
    SimCur(known, d, t, t.w - 1, Active(t).cur.y, false);
  }

  lemma SimMakeRoom(known: bool, d: T, t: T, width: int)
    requires Sim(known, d, t) && !Active(t).cur.pendingWrap && 1 <= width <= 2
    ensures Active(d) == Active(t) && Sim(known, MakeRoom(d, width), MakeRoom(t, width))
  {
    hide RowsFit, WrapToNextLine, SetCur, Sim, SetLine;
    Alike(known, d, t);
    var s := Active(t);
    if width == 2 && s.cur.x >= t.w - 1 {
      var cells := Line(t)[s.cur.x := Blank(t.pen)];
      SimLine(known, d, t, cells);
      SimWrap(known, SetLine(d, cells), SetLine(t, cells));
      SimCur(known, d, t, t.w - 2, s.cur.y, false);
    }
  }

  lemma SimMoveAside(known: bool, d: T, t: T, width: int)
    requires Sim(known, d, t) && width >= 0
    ensures Sim(known, MoveAside(d, width), MoveAside(t, width))
  {
    hide ScreenFits, InsertCells, Sim;
    Alike(known, d, t);
    SimInsertCells(known, d, t, width);
  }

  lemma SimPlace(known: bool, d: T, t: T, r: Rune, width: int)
    requires Sim(known, d, t) && 1 <= width <= 2 && Active(t).cur.x + width <= t.w && !Active(t).cur.pendingWrap
    ensures Active(d) == Active(t) && d.w == t.w && Sim(known, Place(d, r, width), Place(t, r, width))
  {
    hide ScreenFits, RowsFit, PlaceInLine;
  }

  lemma SimCombine(known: bool, d: T, t: T, r: Rune)
    requires Sim(known, d, t)
    ensures Sim(known, Combine(d, r), Combine(t, r))
  {
    hide SetLine, Sim, RowsFit;
    Alike(known, d, t);
    var s := Active(t);
    var x0 := if s.cur.pendingWrap then t.w - 1 else s.cur.x - 1;
    if x0 >= 0 {
      var x := if Line(t)[x0].width == 0 && x0 > 0 then x0 - 1 else x0;
      var c := Line(t)[x];
      SimLine(known, d, t, Line(t)[x := c.(ch := (if c.ch == [] then [0x20] else c.ch) + [r])]);
    }
  }

  lemma SimLast(known: bool, d: T, t: T, g: Rune)
    requires Sim(known, d, t)
    ensures Sim(true, d.(lastPrinted := g), t.(lastPrinted := g))
  {
    hide ScreenFits;
  }

  /** A printed rune that takes a column makes the last printed rune known. */
  predicate Prints1(t: T, r: Rune) { RuneWidth(Translate(t.charsets, r)) != 0 }

  lemma SimPrint(known: bool, d: T, t: T, r: Rune)
    requires Sim(known, d, t)
    ensures Sim(known || Prints1(t, r), PrintRune(d, r), PrintRune(t, r))
  {
    hide RowsFit, ScreenFits, TakeWrap, MakeRoom, MoveAside, Place, Combine, RuneWidth, Translate, Sim;
    Alike(known, d, t);
    var g := Translate(t.charsets, r);
    var width := RuneWidth(g);
    if width == 0 {
      SimCombine(known, d, t, g);
    } else {
      SimLast(known, d, t, g);
      var d1, t1 := d.(lastPrinted := g), t.(lastPrinted := g);
      SimTakeWrap(true, d1, t1);
      var d2, t2 := TakeWrap(d1), TakeWrap(t1);
      SimMakeRoom(true, d2, t2, width);
      var d3, t3 := MakeRoom(d2, width), MakeRoom(t2, width);
      SimMoveAside(true, d3, t3, width);
      SimPlace(true, MoveAside(d3, width), MoveAside(t3, width), g, width);
    }
  }

  lemma {:induction false} SimRepeat(d: T, t: T, r: Rune, n: nat)
    requires Sim(true, d, t)
    ensures Sim(true, Repeat(d, r, n), Repeat(t, r, n))
    decreases n
  {
    hide PrintRune, ScreenFits, Sim, Prints1;
    if n > 0 {
      SimPrint(true, d, t, r);
      SimRepeat(PrintRune(d, r), PrintRune(t, r), r, n - 1);
    }
  }

  // ---------------------------------------------------------------------------
  // Dispatch
  // ---------------------------------------------------------------------------

  lemma SimExecute(known: bool, d: T, t: T, b: byte)
    requires Sim(known, d, t)
    ensures Sim(known, ApplyExecute(d, b), ApplyExecute(t, b))
  {
    hide RowsFit, LineFeed, TabForward, SetCur, Sim;
    Alike(known, d, t);
    var s := Active(t);
    SimTabForward(known, d, t, 1);
    SimLineFeed(known, d, t);
    Alike(known, LineFeed(d), LineFeed(t));
    SimCur(known, LineFeed(d), LineFeed(t), 0, Active(LineFeed(t)).cur.y, false);
    SimCur(known, d, t, 0, s.cur.y, false);
    SimCur(known, d, t, Max(s.cur.x - 1, 0), s.cur.y, false);
    SimShift(known, d, t, 0);
    SimShift(known, d, t, 1);
  }

  lemma SimShift(known: bool, d: T, t: T, gl: int)
    requires Sim(known, d, t) && 0 <= gl <= 1
    ensures Sim(known, d.(charsets := d.charsets.(gl := gl)), t.(charsets := t.charsets.(gl := gl)))
  {
    hide RowsFit;
  }

  lemma SimEscPlain(known: bool, d: T, t: T, final: byte)
    requires Sim(known, d, t)
    ensures Sim(known, ApplyEsc(d, 0, final), ApplyEsc(t, 0, final))
  {
    hide RowsFit, LineFeed, ReverseIndex, SetCur, Sim, SaveCursor, RestoreCursor, FullReset;
    Alike(known, d, t);
    SimLineFeed(known, d, t);
    Alike(known, LineFeed(d), LineFeed(t));
    SimCur(known, LineFeed(d), LineFeed(t), 0, Active(LineFeed(t)).cur.y, false);
    SimSave(known, d, t);
    SimRestore(known, d, t);
    SimReverse(known, d, t);
    SimFullReset(known, d, t);
    SimTabs(known, d, t, t.tabStops[Active(t).cur.x := true]);
  }

  lemma SimTabs(known: bool, d: T, t: T, stops: seq<bool>)
    requires Sim(known, d, t) && |stops| == t.w
    ensures d.w == t.w && Sim(known, d.(tabStops := stops), t.(tabStops := stops))
  {
    hide RowsFit;
  }

  lemma SimEsc(known: bool, d: T, t: T, inter: byte, final: byte)
    requires Sim(known, d, t)
    ensures Sim(known, ApplyEsc(d, inter, final), ApplyEsc(t, inter, final))
  {
    if inter == 0 {
      hide ApplyEsc, ScreenFits, Sim;
      SimEscPlain(known, d, t, final);
    } else {
      hide ScreenFits, Align, SaveCursor, RestoreCursor, FullReset, LineFeed, ReverseIndex;
      SimAlign(known, d, t);
    }
  }

  lemma SimRegion(known: bool, d: T, t: T, ps: seq<Param>)
    requires Sim(known, d, t)
    ensures Sim(known, SetRegion(d, ps), SetRegion(t, ps))
  {
    hide RowsFit, ParamAt;
  }

  lemma SimMotion(known: bool, d: T, t: T, ps: seq<Param>, f: byte)
    requires Sim(known, d, t)
    ensures Sim(known, ApplyMotion(d, ps, f), ApplyMotion(t, ps, f))
  {
    hide ScreenFits, Fits, CursorUp, CursorDown, SetColumn, MoveCursor, TabForward, TabBackward, Sim, ParamAt;
    Alike(known, d, t);
    var s := Active(t);
    var n := ParamAt(ps, 0, 1);
    SimUp(known, d, t, n);
    SimDown(known, d, t, n);
    SimColumn(known, CursorDown(d, n), CursorDown(t, n), 0);
    SimColumn(known, CursorUp(d, n), CursorUp(t, n), 0);
    SimColumn(known, d, t, s.cur.x + n);
    SimColumn(known, d, t, s.cur.x - n);
    SimColumn(known, d, t, n - 1);
    SimMove(known, d, t, ParamAt(ps, 1, 1) - 1, n - 1 + if t.modes.origin then s.top else 0);
    SimMove(known, d, t, s.cur.x, n - 1 + if t.modes.origin then s.top else 0);
    SimTabForward(known, d, t, n);
    SimTabBackward(known, d, t, n);
  }

  /** REP, the one sequence that looks at the last printed rune. */
  predicate IsRepeat(a: Action) {
    a.CsiDispatch? && a.inter == 0 && a.priv == 0 && a.final == 'b' as int
  }

  lemma SimInsertBlanks(known: bool, d: T, t: T, n: nat)
    requires Sim(known, d, t)
    ensures var e, u := InsertCells(d, n), InsertCells(t, n);
      Sim(known, SetCur(e, Active(e).cur.x, Active(e).cur.y, false), SetCur(u, Active(u).cur.x, Active(u).cur.y, false))
  {
    hide RowsFit, Sim, SetCur, InsertCells;
    SimInsertCells(known, d, t, n);
    var e, u := InsertCells(d, n), InsertCells(t, n);
    Alike(known, e, u);
    SimCur(known, e, u, Active(u).cur.x, Active(u).cur.y, false);
  }

  lemma SimEdit(known: bool, d: T, t: T, ps: seq<Param>, f: byte)
    requires Sim(known, d, t) && (f == 'b' as int ==> known)
    ensures Sim(known, ApplyEdit(d, ps, f), ApplyEdit(t, ps, f))
  {
    hide ScreenFits, RowsFit, InsertCells, EraseInDisplay, EraseInLine, InsertLines, DeleteLines, DeleteChars, Scroll, ScrollDown, EraseChars,
      Repeat, RawParam, SetCur;
    var n := ParamAt(ps, 0, 1);
    if f == '@' as int {
      SimInsertBlanks(known, d, t, n);
    } else if f == 'b' as int {
      if t.lastPrinted != 0 {
        SimRepeat(d, t, t.lastPrinted, n);
      }
    } else {
      SimEraseInDisplay(known, d, t, RawParam(ps, 0, 0));
      SimEraseInLine(known, d, t, RawParam(ps, 0, 0));
      SimInsertLines(known, d, t, n);
      SimDeleteLines(known, d, t, n);
      SimDeleteChars(known, d, t, n);
      SimScroll(known, d, t, n, false);
      SimScrollDown(known, d, t, n);
      SimEraseChars(known, d, t, n);
    }
  }

  lemma SimClearTabs(known: bool, d: T, t: T, mode: int)
    requires Sim(known, d, t)
    ensures Sim(known, ClearTabs(d, mode), ClearTabs(t, mode))
  {
    hide RowsFit;
  }

  lemma {:induction false} SimSetModes(known: bool, d: T, t: T, ps: seq<Param>, on: bool)
    requires Sim(known, d, t)
    ensures Sim(known, SetModes(d, ps, on), SetModes(t, ps, on))
    decreases |ps|
  {
    hide ScreenFits, SetMode, RawParam;
    if ps != [] {
      var n := RawParam(ps, 0, -1);
      SimSetModes(known, d.(modes := SetMode(d.modes, n, on)), t.(modes := SetMode(t.modes, n, on)), ps[1..], on);
    }
  }

  lemma SimModes(known: bool, d: T, t: T, m: Modes)
    requires Sim(known, d, t)
    ensures Sim(known, d.(modes := m), t.(modes := m))
  {
    hide ScreenFits;
  }

  lemma SimPrivateMode(known: bool, d: T, t: T, n: int, on: bool)
    requires Sim(known, d, t)
    ensures Sim(known, SetPrivateMode(d, n, on), SetPrivateMode(t, n, on))
  {
    hide ScreenFits, MoveCursor, EnterAlt, LeaveAlt, PrivateFlag, Sim;
    Alike(known, d, t);
    SimEnter(known, d, t, false);
    SimEnter(known, d, t, true);
    SimLeave(known, d, t, false);
    SimLeave(known, d, t, true);
    SimModes(known, d, t, PrivateFlag(t.modes, n, on));
    var m := t.modes.(origin := on);
    SimModes(known, d, t, m);
    SimMove(known, d.(modes := m), t.(modes := m), 0, 0);
  }

  lemma {:induction false} SimPrivateModes(known: bool, d: T, t: T, ps: seq<Param>, on: bool)
    requires Sim(known, d, t)
    ensures Sim(known, SetPrivateModes(d, ps, on), SetPrivateModes(t, ps, on))
    decreases |ps|
  {
    hide ScreenFits, SetPrivateMode, Sim, RawParam;
    if ps != [] {
      var n := RawParam(ps, 0, -1);
      SimPrivateMode(known, d, t, n, on);
      SimPrivateModes(known, SetPrivateMode(d, n, on), SetPrivateMode(t, n, on), ps[1..], on);
    }
  }

  lemma SimPen(known: bool, d: T, t: T, st: Style)
    requires Sim(known, d, t)
    ensures Sim(known, d.(pen := st), t.(pen := st))
  {
    hide ScreenFits;
  }

  lemma SimPlain(known: bool, d: T, t: T, ps: seq<Param>, f: byte)
    requires Sim(known, d, t) && (f == 'b' as int ==> known)
    ensures Sim(known, ApplyPlainCsi(d, ps, f), ApplyPlainCsi(t, ps, f))
  {
    hide ScreenFits, Fits, ApplyMotion, ApplyEdit, ClearTabs, SetModes, Sgr, SetRegion, SaveCursor, RestoreCursor, Sim, IsMotion, RawParam;
    Alike(known, d, t);
    SimMotion(known, d, t, ps, f);
    SimClearTabs(known, d, t, RawParam(ps, 0, 0));
    SimSetModes(known, d, t, ps, true);
    SimSetModes(known, d, t, ps, false);
    SimPen(known, d, t, Sgr(ps, t.pen));
    SimRegion(known, d, t, ps);
    SimSave(known, d, t);
    SimRestore(known, d, t);
    SimEdit(known, d, t, ps, f);
  }

  lemma SimCsi(known: bool, d: T, t: T, priv: byte, inter: byte, ps: seq<Param>, f: byte)
    requires Sim(known, d, t) && (IsRepeat(CsiDispatch(priv, inter, ps, f)) ==> known)
    ensures Sim(known, ApplyCsi(d, priv, inter, ps, f), ApplyCsi(t, priv, inter, ps, f))
  {
    hide ScreenFits, Fits, SoftReset, SetPrivateModes, ApplyPlainCsi, Sim, RawParam;
    Alike(known, d, t);
    SimModes(known, d, t, t.modes.(cursorStyle := if RawParam(ps, 0, 0) >= 0 then RawParam(ps, 0, 0) else 0));
    SimSoftReset(known, d, t);
    SimPrivateModes(known, d, t, ps, true);
    SimPrivateModes(known, d, t, ps, false);
    if inter == 0 && priv == 0 {
      SimPlain(known, d, t, ps, f);
    }
  }

  lemma SimOsc(known: bool, d: T, t: T, data: seq<byte>)
    requires Sim(known, d, t)
    ensures Sim(known, ApplyOsc(d, data), ApplyOsc(t, data))
  {
    hide ScreenFits, Semicolon, Atoi;
  }

  /** The last printed rune is known after an action. */
  predicate Knows(known: bool, t: T, a: Action) { known || (a.Print? && Prints1(t, a.r)) }

  lemma SimApply(known: bool, d: T, t: T, a: Action)
    requires Sim(known, d, t) && (IsRepeat(a) ==> known)
    ensures Sim(Knows(known, t, a), Apply(d, a), Apply(t, a))
  {
    hide ScreenFits, PrintRune, ApplyExecute, ApplyEsc, ApplyCsi, ApplyOsc, Prints1, Sim;
    match a
    case Print(r) => SimPrint(known, d, t, r);
    case Execute(b) => SimExecute(known, d, t, b);
    case EscDispatch(inter, final) => SimEsc(known, d, t, inter, final);
    case CsiDispatch(priv, inter, ps, final) => SimCsi(known, d, t, priv, inter, ps, final);
    case OscDispatch(data) => SimOsc(known, d, t, data);
  }

  /** No repeat of a rune that was printed before the run. */
  predicate RepeatsOwn(known: bool, t: T, acts: seq<Action>)
    decreases |acts|
  {
    acts == [] || ((IsRepeat(acts[0]) ==> known) && RepeatsOwn(Knows(known, t, acts[0]), Apply(t, acts[0]), acts[1..]))
  }

  /** Similar terminals stay similar. */
  lemma {:induction false} SimRun(known: bool, d: T, t: T, acts: seq<Action>) returns (k: bool)
    requires Sim(known, d, t) && RepeatsOwn(known, t, acts)
    ensures Sim(k, ApplyAll(d, acts), ApplyAll(t, acts))
    decreases |acts|
  {
    hide ScreenFits, Apply, Sim, Knows, IsRepeat;
    if acts == [] {
      k := known;
    } else {
      SimApply(known, d, t, acts[0]);
      k := SimRun(Knows(known, t, acts[0]), Apply(d, acts[0]), Apply(t, acts[0]), acts[1..]);
    }
  }
}
