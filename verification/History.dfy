/** The scrollback is the end of what scrolled off. */
module History {
  import opened Utf8
  import opened Cells
  import opened Width
  import opened Parser
  import opened Terminal
  import opened Dispatch

  // ---------------------------------------------------------------------------
  // Storing lines
  // ---------------------------------------------------------------------------

  /** The fewest lines kept once the limit was passed: an eighth is dropped at a time. */
  function Least(max: nat): int { max + 1 - Max(1, max / 8) }

  lemma PushOne(sb: seq<Row>, r: Row, max: nat) returns (k: nat)
    requires |sb| <= max
    ensures var sb' := Push(sb, r, max);
      && k <= |sb| + 1 && |sb'| <= max && (max > 0 ==> sb' == (sb + [Trimmed(r)])[k..])
      && (|sb| < max ==> k == 0) && (|sb| == max ==> |sb'| >= Least(max))
  {
    hide Trimmed;
    k := if |sb| < max then 0 else if max == 0 then 0 else Max(1, max / 8);
  }

  /** Pushed lines: the store is the end of everything stored and pushed, never
      longer than the limit, and after an overflow never shorter than the least. */
  lemma {:induction false} PushAllSuffix(sb: seq<Row>, rs: seq<Row>, max: nat) returns (k: nat)
    requires |sb| <= max
    ensures k <= |sb| + |rs| && PushAll(sb, rs, max) == (sb + Trims(rs))[k..]
    ensures |PushAll(sb, rs, max)| <= max
    ensures |sb| + |rs| <= max ==> k == 0
    ensures |sb| + |rs| > max || |sb| >= Least(max) ==> |PushAll(sb, rs, max)| >= Least(max)
    decreases |rs|
  {
    hide Push, Trimmed, Trims;
    if rs == [] {
      k := 0;
      assert Trims(rs) == [];
      assert sb + [] == sb;
    } else {
      var j := PushOne(sb, rs[0], max);
      TrimsFirst(rs);
      Joined(sb, [Trimmed(rs[0])], Trims(rs[1..]));
      if max == 0 {
        NothingKept(rs);
        k := |rs|;
        assert |(sb + Trims(rs))[k..]| == 0;
      } else {
        var i := PushAllSuffix(Push(sb, rs[0], max), rs[1..], max);
        k := i + j;
        SuffixTwice(sb, Trimmed(rs[0]), Trims(rs[1..]), j, i);
      }
    }
  }

  lemma Joined(a: seq<Row>, b: seq<Row>, c: seq<Row>)
    ensures a + (b + c) == (a + b) + c
  {
  }

  lemma SuffixTwice(sb: seq<Row>, r: Row, rest: seq<Row>, j: nat, i: nat)
    requires j <= |sb| + 1 && i <= |sb| + 1 - j + |rest|
    ensures ((sb + [r])[j..] + rest)[i..] == ((sb + [r]) + rest)[i + j..]
  {
  }

  lemma {:induction false} NothingKept(rs: seq<Row>)
    ensures PushAll([], rs, 0) == []
    decreases |rs|
  {
    if rs != [] {
      NothingKept(rs[1..]);
    }
  }

  // ---------------------------------------------------------------------------
  // What each operation stores
  // ---------------------------------------------------------------------------

  /** History and its limit are as they were. */
  predicate Still(d: T, t: T) { d.main.scrollback == t.main.scrollback && d.maxScrollback == t.maxScrollback }

  /** History grew by these lines. */
  predicate Grew(d: T, t: T, rs: seq<Row>) {
    d.main.scrollback == PushAll(t.main.scrollback, rs, t.maxScrollback) && d.maxScrollback == t.maxScrollback
  }

  lemma {:induction false} PushAllConcat(sb: seq<Row>, a: seq<Row>, b: seq<Row>, max: nat)
    ensures PushAll(sb, a + b, max) == PushAll(PushAll(sb, a, max), b, max)
    decreases |a|
  {
    hide Push;
    if a == [] {
      assert a + b == b;
    } else {
      assert (a + b)[1..] == a[1..] + b;
      PushAllConcat(Push(sb, a[0], max), a[1..], b, max);
    }
  }

  lemma GrewTwice(a: T, b: T, c: T, rs: seq<Row>, rs': seq<Row>)
    requires Grew(b, a, rs) && Grew(c, b, rs')
    ensures Grew(c, a, rs + rs')
  {
    hide PushAll;
    PushAllConcat(a.main.scrollback, rs, rs', a.maxScrollback);
  }

  lemma StillGrew(d: T, t: T)
    ensures Grew(d, t, []) <==> Still(d, t)
  {
  }

  /** The line a line feed scrolls off: the top one, when the cursor is at the
      bottom of a region that starts at the top of the main screen. */
  function FeedLines(t: T): seq<Row> {
    if !t.altActive && t.main.cur.y == t.main.bot && t.main.top == 0 then [t.main.rows[0]] else []
  }

  function WrapLines(t: T): seq<Row> { FeedLines(SetCur(t, 0, Active(t).cur.y, false)) }

  function TakeWrapLines(t: T): seq<Row> {
    if Active(t).cur.pendingWrap && t.modes.autowrap then WrapLines(t) else []
  }

  function MakeRoomLines(t: T, width: int): seq<Row>
    requires !Active(t).cur.pendingWrap && 1 <= width <= 2
  {
    if width == 1 || Active(t).cur.x < t.w - 1 || !t.modes.autowrap then []
    else WrapLines(SetLine(t, Line(t)[Active(t).cur.x := Blank(t.pen)]))
  }

  /** The lines a printed rune scrolls off. */
  function PrintLines(t: T, r: Rune): seq<Row> {
    var g := Translate(t.charsets, r);
    var width := RuneWidth(g);
    if width == 0 then []
    else
      var t1 := t.(lastPrinted := g);
      TakeWrapLines(t1) + MakeRoomLines(TakeWrap(t1), width)
  }

  function RepeatLines(t: T, r: Rune, n: nat): seq<Row>
    decreases n
  {
    if n == 0 then [] else PrintLines(t, r) + RepeatLines(PrintRune(t, r), r, n - 1)
  }

  /** The lines an action scrolls off. */
  function ActionLines(t: T, a: Action): seq<Row> {
    match a
    case Print(r) => PrintLines(t, r)
    case Execute(b) => if 0x0a <= b <= 0x0c then FeedLines(t) else []
    case EscDispatch(inter, final) => if inter == 0 && (final == 'D' as int || final == 'E' as int) then FeedLines(t) else []
    case CsiDispatch(priv, inter, ps, final) =>
      if priv == 0 && inter == 0 && final == 'b' as int && t.lastPrinted != 0 then RepeatLines(t, t.lastPrinted, ParamAt(ps, 0, 1)) else []
    case OscDispatch(_) => []
  }

  /** ED 3, which throws the history away. */
  predicate Erases(a: Action) {
    a.CsiDispatch? && a.priv == 0 && a.inter == 0 && a.final == 'J' as int && RawParam(a.params, 0, 0) == 3
  }

  lemma StillCur(t: T, x: int, y: int, p: bool)
    requires 0 <= x < t.w && 0 <= y < t.h && (p ==> x == t.w - 1)
    ensures Still(SetCur(t, x, y, p), t)
  {
    hide ScreenFits, RowsFit;
  }

  lemma StillLine(t: T, cells: seq<Cell>)
    requires |cells| == t.w
    ensures Still(SetLine(t, cells), t)
  {
    hide ScreenFits, RowsFit;
  }

  lemma StillScrollDown(t: T, n: int)
    ensures Still(ScrollDown(t, n), t)
  {
    hide ScreenFits, RowsFit, OpenRows;
  }

  lemma StillInsertCells(t: T, n: nat)
    ensures Still(InsertCells(t, n), t)
  {
    hide ScreenFits, RowsFit, InsertInLine;
  }

  lemma StillDeleteChars(t: T, n: nat)
    ensures Still(DeleteChars(t, n), t)
  {
    hide ScreenFits, RowsFit, DeleteInLine;
  }

  lemma StillEraseChars(t: T, n: nat)
    ensures Still(EraseChars(t, n), t)
  {
    hide ScreenFits, RowsFit, ClearCells;
  }

  lemma StillEraseInLine(t: T, mode: int)
    ensures Still(EraseInLine(t, mode), t)
  {
    hide ScreenFits, RowsFit, ClearCells;
  }

  lemma StillInsertLines(t: T, n: int)
    requires n >= 1
    ensures Still(InsertLines(t, n), t)
  {
    hide ScreenFits, RowsFit, OpenRows;
  }

  lemma StillDeleteLines(t: T, n: int)
    requires n >= 1
    ensures Still(DeleteLines(t, n), t)
  {
    hide ScreenFits, RowsFit, CloseRows;
  }

  lemma StillMove(t: T, x: int, y: int)
    ensures Still(MoveCursor(t, x, y), t)
  {
    hide ScreenFits, RowsFit;
  }

  lemma StillColumn(t: T, x: int)
    ensures Still(SetColumn(t, x), t)
  {
    hide ScreenFits, RowsFit;
  }

  lemma StillUp(t: T, n: nat)
    ensures Still(CursorUp(t, n), t)
  {
    hide ScreenFits, RowsFit;
  }

  lemma StillDown(t: T, n: nat)
    ensures Still(CursorDown(t, n), t)
  {
    hide ScreenFits, RowsFit;
  }

  lemma StillTabForward(t: T, n: nat)
    ensures Still(TabForward(t, n), t)
  {
    hide ScreenFits, RowsFit, StopsForward;
  }

  lemma StillTabBackward(t: T, n: nat)
    ensures Still(TabBackward(t, n), t)
  {
    hide ScreenFits, RowsFit, StopsBackward;
  }

  lemma StillSave(t: T)
    ensures Still(SaveCursor(t), t)
  {
    hide ScreenFits, RowsFit;
  }

  lemma StillRestore(t: T)
    ensures Still(RestoreCursor(t), t)
  {
    hide ScreenFits, RowsFit;
  }

  lemma StillSoftReset(t: T)
    ensures Still(SoftReset(t), t)
  {
    hide ScreenFits, RowsFit;
  }

  lemma StillFullReset(t: T)
    ensures Still(FullReset(t), t)
  {
    hide ScreenFits, RowsFit, BlankRows;
  }

  lemma StillAlign(t: T)
    ensures Still(Align(t), t)
  {
    hide ScreenFits, RowsFit;
  }

  lemma StillEnter(t: T, save: bool)
    ensures Still(EnterAlt(t, save), t)
  {
    hide ScreenFits, RowsFit, ClearRows;
  }

  lemma StillLeave(t: T, restore: bool)
    ensures Still(LeaveAlt(t, restore), t)
  {
    hide ScreenFits, RowsFit;
  }

  lemma StillReverse(t: T)
    ensures Still(ReverseIndex(t), t)
  {
    hide ScreenFits, RowsFit, OpenRows;
  }

  lemma StillCombine(t: T, r: Rune)
    ensures Still(Combine(t, r), t)
  {
    hide ScreenFits, RowsFit;
  }

  lemma StillMoveAside(t: T, width: int)
    requires width >= 0
    ensures Still(MoveAside(t, width), t)
  {
    hide ScreenFits, RowsFit, InsertInLine;
  }

  lemma StillPlace(t: T, r: Rune, width: int)
    requires 1 <= width <= 2 && Active(t).cur.x + width <= t.w && !Active(t).cur.pendingWrap
    ensures Still(Place(t, r, width), t)
  {
    hide ScreenFits, RowsFit, PlaceInLine;
  }

  lemma StillScroll(t: T, n: int)
    ensures Still(Scroll(t, n, false), t)
  {
    hide ScreenFits, RowsFit, ScrollRows;
  }

  lemma StillRegion(t: T, ps: seq<Param>)
    ensures Still(SetRegion(t, ps), t)
  {
    hide ScreenFits, RowsFit, ParamAt;
  }

  lemma StillClearTabs(t: T, mode: int)
    ensures Still(ClearTabs(t, mode), t)
  {
    hide ScreenFits, RowsFit;
  }

  lemma StillOsc(t: T, data: seq<byte>)
    ensures Still(ApplyOsc(t, data), t)
  {
    hide ScreenFits, RowsFit, Semicolon, Atoi;
  }

  lemma StillErase(t: T, mode: int)
    requires mode != 3
    ensures Still(EraseInDisplay(t, mode), t)
  {
    hide RowsFit, ClearRows, ClearCells;
  }

  lemma FeedGrew(t: T)
    ensures Grew(LineFeed(t), t, FeedLines(t))
  {
    hide RowsFit, ScrollRows, Push;
    if FeedLines(t) != [] {
      var top := t.main.rows[..1];
      assert top == [t.main.rows[0]];
    }
  }

  lemma WrapGrew(t: T)
    ensures Grew(WrapToNextLine(t), t, WrapLines(t))
  {
    hide RowsFit, LineFeed, SetCur, PushAll, FeedLines;
    var t1 := SetCur(t, 0, Active(t).cur.y, false);
    StillCur(t, 0, Active(t).cur.y, false);
    FeedGrew(t1);
    MarkStill(LineFeed(t1));
  }

  lemma MarkStill(t: T)
    ensures var s := Active(t);
      0 <= s.cur.y < |s.rows| == t.h
      && RowsFit(s.rows[s.cur.y := s.rows[s.cur.y].(wrapped := true)], t.w)
      && Still(SetRows(t, s.rows[s.cur.y := s.rows[s.cur.y].(wrapped := true)]), t)
  {
  }

  lemma TakeWrapGrew(t: T)
    ensures Grew(TakeWrap(t), t, TakeWrapLines(t))
  {
    hide RowsFit, WrapToNextLine, SetCur, PushAll, WrapLines, Grew;
    WrapGrew(t);
    StillCur(t, t.w - 1, Active(t).cur.y, false);
    StillGrew(SetCur(t, t.w - 1, Active(t).cur.y, false), t);
    StillGrew(t, t);
  }

  lemma MakeRoomGrew(t: T, width: int)
    requires !Active(t).cur.pendingWrap && 1 <= width <= 2
    ensures Grew(MakeRoom(t, width), t, MakeRoomLines(t, width))
  {
    hide RowsFit, WrapToNextLine, SetCur, SetLine, PushAll, WrapLines, Grew;
    var x, y := Active(t).cur.x, Active(t).cur.y;
    StillGrew(t, t);
    StillCur(t, t.w - 2, y, false);
    StillGrew(SetCur(t, t.w - 2, y, false), t);
    var t1 := SetLine(t, Line(t)[x := Blank(t.pen)]);
    StillLine(t, Line(t)[x := Blank(t.pen)]);
    StillGrew(t1, t);
    WrapGrew(t1);
    GrewTwice(t, t1, WrapToNextLine(t1), [], WrapLines(t1));
    assert [] + WrapLines(t1) == WrapLines(t1);
  }

  lemma GrewStill(a: T, b: T, c: T, rs: seq<Row>)
    requires Grew(b, a, rs) && Still(c, b)
    ensures Grew(c, a, rs)
  {
    hide PushAll;
  }

  lemma LastStill(t: T, g: Rune, d: T, rs: seq<Row>)
    requires Grew(d, t.(lastPrinted := g), rs)
    ensures Grew(d, t, rs)
  {
    hide PushAll, ScreenFits;
  }

  lemma PrintGrew(t: T, r: Rune)
    ensures Grew(PrintRune(t, r), t, PrintLines(t, r))
  {
    hide ScreenFits, TakeWrap, MakeRoom, MoveAside, Place, Combine, RuneWidth, Translate, TakeWrapLines, MakeRoomLines, Grew, Still;
    var g := Translate(t.charsets, r);
    var width := RuneWidth(g);
    if width == 0 {
      StillCombine(t, g);
      StillGrew(Combine(t, g), t);
    } else {
      var t1 := t.(lastPrinted := g);
      TakeWrapGrew(t1);
      var t2 := TakeWrap(t1);
      MakeRoomGrew(t2, width);
      var t3 := MakeRoom(t2, width);
      GrewTwice(t1, t2, t3, TakeWrapLines(t1), MakeRoomLines(t2, width));
      StillMoveAside(t3, width);
      var t4 := MoveAside(t3, width);
      StillPlace(t4, g, width);
      GrewStill(t1, t3, t4, TakeWrapLines(t1) + MakeRoomLines(t2, width));
      GrewStill(t1, t4, Place(t4, g, width), TakeWrapLines(t1) + MakeRoomLines(t2, width));
      LastStill(t, g, Place(t4, g, width), TakeWrapLines(t1) + MakeRoomLines(t2, width));
    }
  }

  lemma {:induction false} RepeatGrew(t: T, r: Rune, n: nat)
    ensures Grew(Repeat(t, r, n), t, RepeatLines(t, r, n))
    decreases n
  {
    hide ScreenFits, PrintRune, PrintLines, Grew;
    if n == 0 {
      StillGrew(t, t);
    } else {
      PrintGrew(t, r);
      RepeatGrew(PrintRune(t, r), r, n - 1);
      GrewTwice(t, PrintRune(t, r), Repeat(t, r, n), PrintLines(t, r), RepeatLines(PrintRune(t, r), r, n - 1));
    }
  }

  // ---------------------------------------------------------------------------
  // Dispatch
  // ---------------------------------------------------------------------------

  lemma StillExecute(t: T, b: byte)
    requires !(0x0a <= b <= 0x0c)
    ensures Still(ApplyExecute(t, b), t)
  {
    hide RowsFit, LineFeed, TabForward, SetCur;
    var s := Active(t);
    StillCur(t, Max(s.cur.x - 1, 0), s.cur.y, false);
    StillCur(t, 0, s.cur.y, false);
    StillTabForward(t, 1);
  }

  lemma FeedAndReturn(t: T)
    ensures var t1 := LineFeed(t); Grew(SetCur(t1, 0, Active(t1).cur.y, false), t, FeedLines(t))
  {
    hide RowsFit, LineFeed, SetCur, FeedLines, PushAll;
    FeedGrew(t);
    var t1 := LineFeed(t);
    StillCur(t1, 0, Active(t1).cur.y, false);
  }

  lemma ExecuteFeeds(t: T, b: byte)
    requires 0x0a <= b <= 0x0c
    ensures Grew(ApplyExecute(t, b), t, FeedLines(t))
  {
    hide RowsFit, LineFeed, SetCur, FeedLines, Grew, TabForward;
    FeedGrew(t);
    FeedAndReturn(t);
  }

  lemma StillEsc(t: T, inter: byte, final: byte)
    requires !(inter == 0 && (final == 'D' as int || final == 'E' as int))
    ensures Still(ApplyEsc(t, inter, final), t)
  {
    hide RowsFit, LineFeed, ReverseIndex, SetCur, SaveCursor, RestoreCursor, FullReset, Align;
    StillSave(t);
    StillRestore(t);
    StillReverse(t);
    StillFullReset(t);
    StillAlign(t);
  }

  lemma EscFeeds(t: T, final: byte)
    requires final == 'D' as int || final == 'E' as int
    ensures Grew(ApplyEsc(t, 0, final), t, FeedLines(t))
  {
    hide RowsFit, LineFeed, ReverseIndex, SetCur, FeedLines, Grew, SaveCursor, RestoreCursor, FullReset, Align;
    FeedGrew(t);
    FeedAndReturn(t);
  }

  lemma StillMotion(t: T, ps: seq<Param>, f: byte)
    ensures Still(ApplyMotion(t, ps, f), t)
  {
    hide ScreenFits, Fits, CursorUp, CursorDown, SetColumn, MoveCursor, TabForward, TabBackward, Still, ParamAt;
    var s := Active(t);
    var n := ParamAt(ps, 0, 1);
    StillUp(t, n);
    StillDown(t, n);
    StillColumn(CursorDown(t, n), 0);
    StillColumn(CursorUp(t, n), 0);
    StillTwice(SetColumn(CursorDown(t, n), 0), CursorDown(t, n), t);
    StillTwice(SetColumn(CursorUp(t, n), 0), CursorUp(t, n), t);
    StillColumn(t, s.cur.x + n);
    StillColumn(t, s.cur.x - n);
    StillColumn(t, n - 1);
    StillMove(t, ParamAt(ps, 1, 1) - 1, n - 1 + if t.modes.origin then s.top else 0);
    StillMove(t, s.cur.x, n - 1 + if t.modes.origin then s.top else 0);
    StillTabForward(t, n);
    StillTabBackward(t, n);
    StillTwice(t, t, t);
  }

  lemma StillTwice(a: T, b: T, c: T)
    ensures Still(a, b) && Still(b, c) ==> Still(a, c)
    ensures Still(c, c)
  {
  }

  lemma StillBlanks(t: T, n: nat)
    ensures var e := InsertCells(t, n); Still(SetCur(e, Active(e).cur.x, Active(e).cur.y, false), t)
  {
    hide RowsFit, SetCur, InsertCells;
    StillInsertCells(t, n);
    var e := InsertCells(t, n);
    StillCur(e, Active(e).cur.x, Active(e).cur.y, false);
  }

  lemma StillEdit(t: T, ps: seq<Param>, f: byte)
    requires f != 'b' as int && !(f == 'J' as int && RawParam(ps, 0, 0) == 3)
    ensures Still(ApplyEdit(t, ps, f), t)
  {
    hide ScreenFits, RowsFit, InsertCells, EraseInDisplay, EraseInLine, InsertLines, DeleteLines, DeleteChars, Scroll, ScrollDown, EraseChars,
      RawParam, SetCur, Repeat, Still;
    var n := ParamAt(ps, 0, 1);
    StillTwice(t, t, t);
    if f == '@' as int {
      StillBlanks(t, n);
    } else if f == 'J' as int {
      StillErase(t, RawParam(ps, 0, 0));
    } else {
      StillEraseInLine(t, RawParam(ps, 0, 0));
      StillInsertLines(t, n);
      StillDeleteLines(t, n);
      StillDeleteChars(t, n);
      StillScroll(t, n);
      StillScrollDown(t, n);
      StillEraseChars(t, n);
    }
  }

  /** Plain control sequences other than REP and ED 3. */
  lemma StillPlain(t: T, ps: seq<Param>, f: byte)
    requires f != 'b' as int && !(f == 'J' as int && RawParam(ps, 0, 0) == 3)
    ensures Still(ApplyPlainCsi(t, ps, f), t)
  {
    hide ScreenFits, ApplyMotion, ApplyEdit, ClearTabs, SetModes, Sgr, SetRegion, SaveCursor, RestoreCursor, IsMotion, RawParam, Still;
    StillMotion(t, ps, f);
    StillClearTabs(t, RawParam(ps, 0, 0));
    StillSetModes(t, ps, true);
    StillSetModes(t, ps, false);
    StillPen(t, Sgr(ps, t.pen));
    StillRegion(t, ps);
    StillSave(t);
    StillRestore(t);
    StillEdit(t, ps, f);
  }

  lemma RepeatsGrew(t: T, ps: seq<Param>)
    ensures Grew(ApplyPlainCsi(t, ps, 'b' as int), t, if t.lastPrinted != 0 then RepeatLines(t, t.lastPrinted, ParamAt(ps, 0, 1)) else [])
  {
    hide ScreenFits, ApplyMotion, ClearTabs, SetModes, Sgr, SetRegion, SaveCursor, RestoreCursor, IsMotion, RawParam, Grew, Repeat, RepeatLines, ParamAt,
      InsertCells, EraseInDisplay, EraseInLine, InsertLines, DeleteLines, DeleteChars, Scroll, ScrollDown, EraseChars, SetCur;
    RepeatNoMotion();
    StillTwice(t, t, t);
    StillGrew(t, t);
    RepeatGrew(t, t.lastPrinted, ParamAt(ps, 0, 1));
  }

  lemma {:induction false} StillSetModes(t: T, ps: seq<Param>, on: bool)
    ensures Still(SetModes(t, ps, on), t)
    decreases |ps|
  {
    hide ScreenFits, SetMode, RawParam;
    if ps != [] {
      StillSetModes(t.(modes := SetMode(t.modes, RawParam(ps, 0, -1), on)), ps[1..], on);
    }
  }

  lemma StillPrivate(t: T, n: int, on: bool)
    ensures Still(SetPrivateMode(t, n, on), t)
  {
    hide ScreenFits, MoveCursor, EnterAlt, LeaveAlt, PrivateFlag;
    StillEnter(t, false);
    StillEnter(t, true);
    StillLeave(t, false);
    StillLeave(t, true);
    StillMove(t.(modes := t.modes.(origin := on)), 0, 0);
  }

  lemma {:induction false} StillPrivateModes(t: T, ps: seq<Param>, on: bool)
    ensures Still(SetPrivateModes(t, ps, on), t)
    decreases |ps|
  {
    hide ScreenFits, SetPrivateMode, RawParam;
    if ps != [] {
      StillPrivate(t, RawParam(ps, 0, -1), on);
      StillPrivateModes(SetPrivateMode(t, RawParam(ps, 0, -1), on), ps[1..], on);
    }
  }

  lemma RepeatNoMotion()
    ensures !IsMotion('b' as int)
  {
  }

  lemma StillPen(t: T, st: Style)
    ensures Still(t.(pen := st), t)
  {
    hide ScreenFits;
  }

  lemma StillCsi(t: T, priv: byte, inter: byte, ps: seq<Param>, f: byte)
    requires priv != 0 || inter != 0 || (f != 'b' as int && !(f == 'J' as int && RawParam(ps, 0, 0) == 3))
    ensures Still(ApplyCsi(t, priv, inter, ps, f), t)
  {
    hide ScreenFits, SoftReset, SetPrivateModes, ApplyPlainCsi, RawParam;
    if priv == 0 && inter == 0 {
      StillPlain(t, ps, f);
    } else {
      StillSoftReset(t);
      StillPrivateModes(t, ps, true);
      StillPrivateModes(t, ps, false);
    }
  }

  /** Actions that scroll nothing off. */
  predicate Quiet(a: Action) {
    match a
    case Print(_) => false
    case Execute(b) => !(0x0a <= b <= 0x0c)
    case EscDispatch(inter, final) => !(inter == 0 && (final == 'D' as int || final == 'E' as int))
    case CsiDispatch(priv, inter, ps, final) =>
      priv != 0 || inter != 0 || (final != 'b' as int && !(final == 'J' as int && RawParam(ps, 0, 0) == 3))
    case OscDispatch(_) => true
  }

  lemma QuietStill(t: T, a: Action)
    requires Quiet(a)
    ensures Still(Apply(t, a), t)
  {
    hide ScreenFits, PrintRune, ApplyExecute, ApplyEsc, ApplyCsi, ApplyOsc, RawParam, Still;
    match a
    case Execute(b) => StillExecute(t, b);
    case EscDispatch(inter, final) => StillEsc(t, inter, final);
    case CsiDispatch(priv, inter, ps, final) => StillCsi(t, priv, inter, ps, final);
    case OscDispatch(data) => StillOsc(t, data);
  }

  lemma QuietLines(t: T, a: Action)
    requires Quiet(a)
    ensures ActionLines(t, a) == []
  {
    hide ScreenFits, PrintLines, FeedLines, RepeatLines, RawParam, ParamAt;
  }

  /** An action stores exactly the lines it scrolls off. */
  lemma ActionGrew(t: T, a: Action)
    requires !Erases(a)
    ensures Grew(Apply(t, a), t, ActionLines(t, a))
  {
    hide ScreenFits, PrintRune, PrintLines, ApplyExecute, ApplyEsc, ApplyPlainCsi, ApplyOsc, Grew, FeedLines, RepeatLines, Still, ParamAt, RawParam,
      SetPrivateModes, SoftReset;
    if Quiet(a) {
      QuietStill(t, a);
      QuietLines(t, a);
      StillGrew(Apply(t, a), t);
    } else {
      hide Quiet;
      NotQuiet(a);
      match a
      case Print(r) => PrintGrew(t, r);
      case Execute(b) => ExecuteFeeds(t, b);
      case EscDispatch(_, final) => EscFeeds(t, final);
      case CsiDispatch(_, _, ps, _) => RepeatsGrew(t, ps);
    }
  }

  lemma NotQuiet(a: Action)
    requires !Quiet(a) && !Erases(a)
    ensures !a.OscDispatch?
    ensures a.Execute? ==> 0x0a <= a.b <= 0x0c
    ensures a.EscDispatch? ==> a.inter == 0 && (a.final == 'D' as int || a.final == 'E' as int)
    ensures a.CsiDispatch? ==> a.priv == 0 && a.inter == 0 && a.final == 'b' as int
  {
  }

  /** All lines a run scrolls off, in order. */
  function RunLines(t: T, acts: seq<Action>): seq<Row>
    decreases |acts|
  {
    if acts == [] then [] else ActionLines(t, acts[0]) + RunLines(Apply(t, acts[0]), acts[1..])
  }

  predicate NoErase(acts: seq<Action>) { forall i :: 0 <= i < |acts| ==> !Erases(acts[i]) }

  lemma {:induction false} RunGrew(t: T, acts: seq<Action>)
    requires NoErase(acts)
    ensures Grew(ApplyAll(t, acts), t, RunLines(t, acts))
    decreases |acts|
  {
    hide ScreenFits, Apply, ActionLines, Grew, Erases;
    if acts == [] {
      StillTwice(t, t, t);
      StillGrew(t, t);
    } else {
      ActionGrew(t, acts[0]);
      RunGrew(Apply(t, acts[0]), acts[1..]);
      GrewTwice(t, Apply(t, acts[0]), ApplyAll(t, acts), ActionLines(t, acts[0]), RunLines(Apply(t, acts[0]), acts[1..]));
    }
  }

  /** Scrollback is a bounded suffix of history. After any run that does not erase
      it, it is the end, in order, of what it was followed by the trimmed lines
      that scrolled off; it never exceeds the limit, and once it has overflowed it
      keeps the least. */
  lemma ScrollbackIsSuffix(t: T, acts: seq<Action>) returns (k: nat)
    requires NoErase(acts) && |t.main.scrollback| <= t.maxScrollback
    ensures var all := t.main.scrollback + Trims(RunLines(t, acts)); var d := ApplyAll(t, acts);
      && k <= |all| && d.main.scrollback == all[k..] && |d.main.scrollback| <= t.maxScrollback
      && (|all| <= t.maxScrollback ==> k == 0)
      && (|all| > t.maxScrollback ==> |d.main.scrollback| >= Least(t.maxScrollback))
  {
    hide ApplyAll, RunLines, PushAll, Trims, ScreenFits;
    RunGrew(t, acts);
    k := PushAllSuffix(t.main.scrollback, RunLines(t, acts), t.maxScrollback);
  }
}
