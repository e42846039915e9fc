/** Output never changes the size, and what it stores is trimmed, within the limit
    and no wider than the screen. */
module Storing {
  import opened Utf8
  import opened Cells
  import opened Width
  import opened Parser
  import opened Sequences
  import opened Terminal
  import opened Dispatch
  import opened Content
  import opened History
  import opened Reachable
  import opened Exactness
  import Resizing

  // ---------------------------------------------------------------------------
  // Output never changes the size
  // ---------------------------------------------------------------------------

  predicate SameSize(d: T, t: T) { d.w == t.w && d.h == t.h && d.maxScrollback == t.maxScrollback }

  lemma ScrollSize(t: T, n: int, keep: bool)
    ensures SameSize(Scroll(t, n, keep), t) && SameSize(ScrollDown(t, n), t)
  {
    hide ScrollRows, OpenRows, PushAll;
  }

  lemma FeedSize(t: T)
    ensures SameSize(LineFeed(t), t) && SameSize(ReverseIndex(t), t)
  {
    hide Scroll, ScrollDown;
    var t1 := SetCur(t, Active(t).cur.x, Active(t).cur.y, false);
    ScrollSize(t1, 1, true);
  }

  lemma WrapSize(t: T)
    ensures SameSize(WrapToNextLine(t), t)
  {
    hide LineFeed;
    FeedSize(SetCur(t, 0, Active(t).cur.y, false));
  }

  lemma CellSize(t: T, cells: seq<Cell>, x: int, y: int, pending: bool)
    requires |cells| == t.w && 0 <= x < t.w && 0 <= y < t.h && (pending ==> x == t.w - 1)
    ensures SameSize(SetLine(t, cells), t) && SameSize(SetCur(SetLine(t, cells), x, y, pending), t)
  {
  }

  lemma CombineSize(t: T, r: Rune)
    ensures SameSize(Combine(t, r), t)
  {
    hide SetLine, Marked, Line, Combine;
    CombineIs(t, r);
    LineWide(t);
    if Target(t) >= 0 && Combines(Line(t)[Target(t)]) {
      LineSize(t, Line(t)[Target(t) := Marked(Line(t)[Target(t)], r)]);
      CellSize(t, Line(t)[Target(t) := Marked(Line(t)[Target(t)], r)], 0, 0, false);
    }
  }

  lemma TakeSize(t: T)
    ensures SameSize(TakeWrap(t), t)
  {
    hide WrapToNextLine;
    WrapSize(t);
  }

  lemma RoomSize(t: T, width: int)
    requires !Active(t).cur.pendingWrap && 1 <= width <= 2
    ensures SameSize(MakeRoom(t, width), t)
  {
    hide WrapToNextLine, SetLine, Line;
    LineWide(t);
    var s := Active(t);
    CellSize(t, Line(t)[s.cur.x := Blank(t.pen)], 0, 0, false);
    WrapSize(SetLine(t, Line(t)[s.cur.x := Blank(t.pen)]));
  }

  lemma PlaceSize(t: T, r: Rune, width: int)
    requires 1 <= width <= 2 && Active(t).cur.x + width <= t.w && !Active(t).cur.pendingWrap
    ensures SameSize(Place(t, r, width), t)
  {
    hide PlaceInLine, SetLine, Line, SetCur;
    LineWide(t);
    var s := Active(t);
    var ch := if r == 0x20 then [] else [r];
    PlacedLength(Line(t), s.cur.x, ch, width, t.pen, t.link);
    var line := PlaceInLine(Line(t), s.cur.x, ch, width, t.pen, t.link);
    LineSize(t, line);
    CellSize(t, line, t.w - 1, s.cur.y, true);
    if s.cur.x + width < t.w {
      CellSize(t, line, s.cur.x + width, s.cur.y, false);
    }
  }

  lemma AsideSize(t: T, n: int)
    requires n >= 0
    ensures SameSize(InsertCells(t, n), t) && SameSize(MoveAside(t, n), t)
  {
    hide InsertInLine;
    InsertedLength(Line(t), Active(t).cur.x, n, t.pen);
  }

  lemma PrintSize(t: T, r: Rune)
    ensures SameSize(PrintRune(t, r), t)
  {
    hide Combine, TakeWrap, MakeRoom, MoveAside, Place, RuneWidth;
    var g := Translate(t.charsets, r);
    var width := RuneWidth(g);
    WidthRange(g);
    PrintSteps(t, g, width);
    if width == 0 {
      CombineSize(t, g);
    } else {
      var t1 := t.(lastPrinted := g);
      TakeSize(t1);
      RoomSize(TakeWrap(t1), width);
      AsideSize(MakeRoom(TakeWrap(t1), width), width);
      PlaceSize(MoveAside(MakeRoom(TakeWrap(t1), width), width), g, width);
    }
  }

  lemma WidthRange(r: Rune)
    ensures 0 <= RuneWidth(r) <= 2
  {
  }

  lemma {:induction false} RepeatSize(t: T, r: Rune, n: nat)
    ensures SameSize(Repeat(t, r, n), t)
    decreases n
  {
    hide PrintRune;
    if n > 0 {
      PrintSize(t, r);
      RepeatSize(PrintRune(t, r), r, n - 1);
    }
  }

  lemma EraseSize(t: T, mode: int)
    ensures SameSize(EraseInLine(t, mode), t) && SameSize(EraseInDisplay(t, mode), t)
  {
    hide ClearCells, ClearRows;
    EraseLineSize(t, mode);
    EraseLineSize(t, 0);
    ClearedFit(Active(t).rows, t.w, t.pen);
    EraseLineSize(SetRows(t, ClearRows(Active(t).rows, 0, Active(t).cur.y, t.w, t.pen)), 1);
    hide EraseInLine;
  }

  lemma EraseLineSize(t: T, mode: int)
    ensures SameSize(EraseInLine(t, mode), t)
  {
  }

  lemma ClearedFit(rows: seq<Row>, w: nat, pen: Style)
    requires RowsFit(rows, w)
    ensures forall from, to :: |ClearRows(rows, from, to, w, pen)| == |rows| && RowsFit(ClearRows(rows, from, to, w, pen), w)
  {
  }

  lemma ShiftSize(t: T, n: nat)
    requires n >= 1
    ensures SameSize(InsertLines(t, n), t) && SameSize(DeleteLines(t, n), t)
    ensures SameSize(DeleteChars(t, n), t) && SameSize(EraseChars(t, n), t)
  {
    hide OpenRows, CloseRows, ClearCells, DeleteInLine;
    var s := Active(t);
    if s.top <= s.cur.y <= s.bot {
      ScrolledFits(s.rows, s.cur.y, s.bot, Min(n, s.bot - s.cur.y + 1), t.w, t.pen);
    }
    InsertedLength(Line(t), s.cur.x, n, t.pen);
    ClearedLength(Line(t), s.cur.x, s.cur.x + n, t.pen);
  }

  lemma MotionSize(t: T, ps: seq<Param>, f: byte)
    ensures SameSize(ApplyMotion(t, ps, f), t)
  {
    hide StopsForward, StopsBackward;
  }

  lemma EditSize(t: T, ps: seq<Param>, f: byte)
    ensures SameSize(ApplyEdit(t, ps, f), t)
  {
    hide InsertCells, EraseInDisplay, EraseInLine, InsertLines, DeleteLines, DeleteChars, Scroll, ScrollDown, EraseChars, Repeat;
    var n := ParamAt(ps, 0, 1);
    AsideSize(t, n);
    EraseSize(t, RawParam(ps, 0, 0));
    ShiftSize(t, n);
    ScrollSize(t, n, false);
    RepeatSize(t, t.lastPrinted, n);
  }

  lemma {:induction false} ModesSize(t: T, ps: seq<Param>, on: bool)
    ensures SameSize(SetModes(t, ps, on), t)
    decreases |ps|
  {
    if ps != [] {
      ModesSize(t.(modes := SetMode(t.modes, RawParam(ps, 0, -1), on)), ps[1..], on);
    }
  }

  lemma PrivateSize(t: T, n: int, on: bool)
    ensures SameSize(SetPrivateMode(t, n, on), t)
  {
    hide ClearRows, PrivateFlag;
    ClearedFit(t.alt.rows, t.w, t.pen);
  }

  lemma {:induction false} PrivatesSize(t: T, ps: seq<Param>, on: bool)
    ensures SameSize(SetPrivateModes(t, ps, on), t)
    decreases |ps|
  {
    hide SetPrivateMode;
    if ps != [] {
      PrivateSize(t, RawParam(ps, 0, -1), on);
      PrivatesSize(SetPrivateMode(t, RawParam(ps, 0, -1), on), ps[1..], on);
    }
  }

  lemma CsiSize(t: T, priv: byte, inter: byte, ps: seq<Param>, f: byte)
    ensures SameSize(ApplyCsi(t, priv, inter, ps, f), t)
  {
    hide ApplyMotion, ApplyEdit, SetModes, SetPrivateModes, Sgr;
    MotionSize(t, ps, f);
    EditSize(t, ps, f);
    ModesSize(t, ps, true);
    ModesSize(t, ps, false);
    PrivatesSize(t, ps, true);
    PrivatesSize(t, ps, false);
  }

  lemma ApplySize(t: T, a: Action)
    ensures SameSize(Apply(t, a), t)
  {
    hide PrintRune, ApplyCsi, LineFeed, ReverseIndex, StopsForward;
    FeedSize(t);
    match a
    case Print(r) => PrintSize(t, r);
    case CsiDispatch(priv, inter, ps, final) => CsiSize(t, priv, inter, ps, final);
    case _ =>
  }

  // ---------------------------------------------------------------------------
  // What the scrollback holds
  // ---------------------------------------------------------------------------

  lemma PushWide(sb: seq<Row>, r: Row, w: int, max: nat)
    requires Archived(sb, w, max) && |r.cells| <= w
    ensures Archived(Push(sb, r, max), w, max)
  {
    hide Archived, Push;
    PushArchived(sb, r, w, max);
  }

  lemma {:induction false} PushAllWide(sb: seq<Row>, rs: seq<Row>, w: int, max: nat)
    requires Archived(sb, w, max) && RowsFit(rs, w)
    ensures Archived(PushAll(sb, rs, max), w, max)
    decreases |rs|
  {
    hide Archived, Push;
    if rs != [] {
      PushWide(sb, rs[0], w, max);
      PushAllWide(Push(sb, rs[0], max), rs[1..], w, max);
    }
  }

  lemma FeedLinesWide(t: T)
    ensures RowsFit(FeedLines(t), t.w)
  {
  }

  lemma PrintLinesWide(t: T, r: Rune)
    ensures RowsFit(PrintLines(t, r), t.w)
  {
    hide FeedLines, TakeWrap, SetLine, Line, RuneWidth;
    var g := Translate(t.charsets, r);
    var width := RuneWidth(g);
    WidthRange(g);
    PrintSteps(t, g, width);
    if width > 0 {
      var t1 := t.(lastPrinted := g);
      var t2 := TakeWrap(t1);
      TakeSize(t1);
      LineWide(t2);
      FeedLinesWide(SetCur(t1, 0, Active(t1).cur.y, false));
      var room := SetLine(t2, Line(t2)[Active(t2).cur.x := Blank(t2.pen)]);
      CellSize(t2, Line(t2)[Active(t2).cur.x := Blank(t2.pen)], 0, 0, false);
      FeedLinesWide(SetCur(room, 0, Active(room).cur.y, false));
    }
  }

  lemma {:induction false} RepeatLinesWide(t: T, r: Rune, n: nat)
    ensures RowsFit(RepeatLines(t, r, n), t.w)
    decreases n
  {
    hide PrintRune, PrintLines;
    if n > 0 {
      PrintLinesWide(t, r);
      PrintSize(t, r);
      RepeatLinesWide(PrintRune(t, r), r, n - 1);
    }
  }

  lemma ActionLinesWide(t: T, a: Action)
    ensures RowsFit(ActionLines(t, a), t.w)
  {
    hide PrintLines, FeedLines, RepeatLines, RowsFit;
    FeedLinesWide(t);
    assert RowsFit([], t.w) by {
      NothingFits(t.w);
    }
    match a
    case Print(r) => PrintLinesWide(t, r);
    case CsiDispatch(_, _, ps, _) => RepeatLinesWide(t, t.lastPrinted, ParamAt(ps, 0, 1));
    case _ =>
  }

  lemma NothingFits(w: int)
    ensures RowsFit([], w)
  {
  }

  lemma ApplyStored(t: T, a: Action)
    requires Archived(t.main.scrollback, t.w, t.maxScrollback)
    ensures Archived(Apply(t, a).main.scrollback, t.w, t.maxScrollback)
  {
    hide Apply, ActionLines, Archived, PushAll;
    if Erases(a) {
      ErasedStored(t, a);
    } else {
      ActionGrew(t, a);
      ActionLinesWide(t, a);
      PushAllWide(t.main.scrollback, ActionLines(t, a), t.w, t.maxScrollback);
    }
  }

  lemma ErasedStored(t: T, a: Action)
    requires Erases(a) && Archived(t.main.scrollback, t.w, t.maxScrollback)
    ensures Archived(Apply(t, a).main.scrollback, t.w, t.maxScrollback)
  {
    ErasesIs(t, a);
    ForgetsHistory(t);
    hide LastVisible, EraseInDisplay, Apply, Erases;
  }

  lemma ErasesIs(t: T, a: Action)
    requires Erases(a)
    ensures Apply(t, a) == EraseInDisplay(t, 3)
  {
    hide EraseInDisplay, ApplyPlainCsi, ApplyEdit, RawParam, SetPrivateModes, SoftReset, ApplyCsi, PrintRune, ApplyExecute, ApplyEsc, ApplyOsc;
    PlainCsiIs(t, a.params, a.final);
    PlainErases(t, a.params);
    EditErases(t, a.params);
  }

  lemma PlainCsiIs(t: T, ps: seq<Param>, f: byte)
    ensures ApplyCsi(t, 0, 0, ps, f) == ApplyPlainCsi(t, ps, f)
  {
    hide ApplyPlainCsi;
  }

  lemma PlainErases(t: T, ps: seq<Param>)
    ensures ApplyPlainCsi(t, ps, 'J' as int) == ApplyEdit(t, ps, 'J' as int)
  {
    hide ApplyEdit, ApplyMotion, SetModes, SetRegion, Sgr;
  }

  lemma EditErases(t: T, ps: seq<Param>)
    ensures ApplyEdit(t, ps, 'J' as int) == EraseInDisplay(t, RawParam(ps, 0, 0))
  {
    hide EraseInDisplay, InsertCells, SetCur, Repeat;
  }

  lemma ForgetsHistory(t: T)
    ensures EraseInDisplay(t, 3).main.scrollback == [] || EraseInDisplay(t, 3).main.scrollback == t.main.scrollback
  {
    hide EraseInLine, ClearRows;
  }

  lemma {:induction false} RunStored(t: T, acts: seq<Action>)
    requires Archived(t.main.scrollback, t.w, t.maxScrollback)
    ensures SameSize(ApplyAll(t, acts), t) && Archived(ApplyAll(t, acts).main.scrollback, t.w, t.maxScrollback)
    decreases |acts|
  {
    hide Apply, Archived;
    if acts != [] {
      ApplyStored(t, acts[0]);
      ApplySize(t, acts[0]);
      RunStored(Apply(t, acts[0]), acts[1..]);
    }
  }

  // ---------------------------------------------------------------------------
  // Archived lines come back whole
  // ---------------------------------------------------------------------------

  lemma FeedLinesFine(t: T)
    requires Tidy(t)
    ensures RowsOk(FeedLines(t), t.w)
  {
    hide Fine, LinkOk, TextOk, ModesOk;
  }

  lemma WrapLinesFine(t: T)
    requires Tidy(t)
    ensures RowsOk(WrapLines(t), t.w)
  {
    hide FeedLines, Tidy, Fine, Line;
    LineWide(t);
    CurTidy(t, 0, Active(t).cur.y, false);
    FeedLinesFine(SetCur(t, 0, Active(t).cur.y, false));
  }

  lemma RoomLinesFine(t: T, width: int)
    requires Tidy(t) && !Active(t).cur.pendingWrap && 1 <= width <= 2
    ensures RowsOk(MakeRoomLines(t, width), t.w)
  {
    hide WrapLines, Tidy, Fine, Line, SetLine;
    var x := Active(t).cur.x;
    LineWide(t);
    ActiveTidy(t);
    BlankedTidy(Line(t), x, t.pen);
    var cells := Line(t)[x := Blank(t.pen)];
    LineTidy(t, cells);
    LineSize(t, cells);
    WrapLinesFine(SetLine(t, cells));
  }

  lemma PrintLinesFine(t: T, r: Rune)
    requires Tidy(t) && !IsControl(r)
    ensures RowsOk(PrintLines(t, r), t.w)
  {
    hide WrapLines, MakeRoomLines, TakeWrap, RuneWidth, Tidy, Fine;
    var g := Translate(t.charsets, r);
    var width := RuneWidth(g);
    WidthRange(g);
    PrintSteps(t, g, width);
    if width > 0 {
      LastTidy(t, g);
      var t1 := t.(lastPrinted := g);
      TakeWrapTidy(t1);
      TakeSize(t1);
      WrapLinesFine(t1);
      RoomLinesFine(TakeWrap(t1), width);
    }
  }

  lemma {:induction false} RepeatLinesFine(t: T, r: Rune, n: nat)
    requires Tidy(t) && !IsControl(r)
    ensures RowsOk(RepeatLines(t, r, n), t.w)
    decreases n
  {
    hide PrintRune, PrintLines, Tidy, Fine;
    if n > 0 {
      PrintLinesFine(t, r);
      PrintSize(t, r);
      PrintTidy(t, r);
      RepeatLinesFine(PrintRune(t, r), r, n - 1);
    }
  }

  lemma ActionLinesFine(t: T, a: Action)
    requires Tidy(t) && ActionClean(a)
    ensures RowsOk(ActionLines(t, a), t.w)
  {
    hide PrintLines, FeedLines, RepeatLines, RowsOk, Tidy;
    FeedLinesFine(t);
    NoRowsTidy(t.w);
    match a
    case Print(r) => PrintLinesFine(t, r);
    case CsiDispatch(_, _, ps, _) =>
      if t.lastPrinted != 0 {
        LastSeen(t);
        RepeatLinesFine(t, t.lastPrinted, ParamAt(ps, 0, 1));
      }
    case _ =>
  }

  lemma PushWhole(sb: seq<Row>, r: Row, w: int, max: nat)
    requires w >= 1 && Resizing.AllStorable(sb, w) && Fine(r.cells, w)
    ensures Resizing.AllStorable(Push(sb, r, max), w)
  {
    hide CellsOk, Trimmed;
    TrimTidy(r, w);
  }

  /** Lines stored from a tidy screen come back whole. */
  lemma {:induction false} PushAllWhole(sb: seq<Row>, rs: seq<Row>, w: int, max: nat)
    requires w >= 1 && Resizing.AllStorable(sb, w) && RowsOk(rs, w)
    ensures Resizing.AllStorable(PushAll(sb, rs, max), w)
    decreases |rs|
  {
    hide Fine, Push, Resizing.AllStorable;
    if rs != [] {
      PushWhole(sb, rs[0], w, max);
      PushAllWhole(Push(sb, rs[0], max), rs[1..], w, max);
    }
  }

  lemma ApplyWhole(t: T, a: Action)
    requires Tidy(t) && ActionClean(a) && t.w >= 1 && Resizing.AllStorable(t.main.scrollback, t.w)
    ensures Resizing.AllStorable(Apply(t, a).main.scrollback, t.w)
  {
    hide Apply, ActionLines, Resizing.Storable, PushAll, Tidy, RowsOk, ActionClean;
    if Erases(a) {
      ErasesIs(t, a);
      ForgetsHistory(t);
    } else {
      ActionGrew(t, a);
      ActionLinesFine(t, a);
      PushAllWhole(t.main.scrollback, ActionLines(t, a), t.w, t.maxScrollback);
    }
  }

  lemma {:induction false} RunWhole(t: T, acts: seq<Action>)
    requires Tidy(t) && AllOk(acts) && AllClean(acts) && t.w >= 1 && Resizing.AllStorable(t.main.scrollback, t.w)
    ensures ApplyAll(t, acts).w == t.w && Resizing.AllStorable(ApplyAll(t, acts).main.scrollback, t.w)
    decreases |acts|
  {
    hide Apply, Resizing.AllStorable, Tidy, ActionOk, ActionClean;
    if acts != [] {
      ApplyWhole(t, acts[0]);
      ApplyTidy(t, acts[0]);
      ApplySize(t, acts[0]);
      RunWhole(Apply(t, acts[0]), acts[1..]);
    }
  }
}
