/** The alternate screen reacts to what a snapshot writes on it as a main screen
    does, but for the scrollback. */
module Twins {
  import opened Utf8
  import opened Cells
  import opened Width
  import opened Parser
  import opened Sequences
  import opened Terminal
  import opened Dispatch
  import opened Snapshots
  import opened Paint
  import opened Receiving
  import opened Restore
  import opened Cursors

  /** `a` shows on its alternate screen what `m` shows on its main one; `kept` is
      the main screen of `a`. */
  predicate Twin(kept: Screen, max: nat, a: T, m: T) {
    !m.altActive && a == m.(altActive := true, main := kept, alt := m.main.(scrollback := []), maxScrollback := max)
  }

  lemma Like(kept: Screen, max: nat, a: T, m: T)
    requires Twin(kept, max, a, m)
    ensures Active(m) == m.main && Active(a) == m.main.(scrollback := []) && a.w == m.w && a.h == m.h
    ensures a.pen == m.pen && a.link == m.link && a.modes == m.modes && a.charsets == m.charsets && a.title == m.title
    ensures Line(a) == Line(m)
  {
    hide ScreenFits;
  }

  lemma TwinCur(kept: Screen, max: nat, a: T, m: T, x: int, y: int, pending: bool)
    requires Twin(kept, max, a, m) && 0 <= x < m.w && 0 <= y < m.h && (pending ==> x == m.w - 1)
    ensures a.w == m.w && a.h == m.h && Twin(kept, max, SetCur(a, x, y, pending), SetCur(m, x, y, pending))
  {
    hide ScreenFits;
  }

  lemma TwinRows(kept: Screen, max: nat, a: T, m: T, rows: seq<Row>)
    requires Twin(kept, max, a, m) && |rows| == m.h && RowsFit(rows, m.w)
    ensures a.w == m.w && a.h == m.h && Twin(kept, max, SetRows(a, rows), SetRows(m, rows))
  {
    hide ScreenFits, RowsFit;
  }

  lemma TwinLine(kept: Screen, max: nat, a: T, m: T, cells: seq<Cell>)
    requires Twin(kept, max, a, m) && |cells| == m.w
    ensures a.w == m.w && Twin(kept, max, SetLine(a, cells), SetLine(m, cells))
  {
    hide ScreenFits, RowsFit;
  }

  lemma TwinScroll(kept: Screen, max: nat, a: T, m: T)
    requires Twin(kept, max, a, m)
    ensures Twin(kept, max, Scroll(a, 1, true), Scroll(m, 1, true))
  {
    hide ScreenFits, RowsFit, ScrollRows, PushAll;
  }

  lemma CurKeeps(t: T, x: int, y: int)
    requires 0 <= x < t.w && 0 <= y < t.h
    ensures var e := SetCur(t, x, y, false); e.w == t.w && e.h == t.h
  {
    hide ScreenFits;
  }

  lemma TwinLineFeed(kept: Screen, max: nat, a: T, m: T)
    requires Twin(kept, max, a, m)
    ensures Twin(kept, max, LineFeed(a), LineFeed(m))
  {
    hide RowsFit, Scroll, SetCur, Twin;
    Like(kept, max, a, m);
    var s := Active(m);
    TwinCur(kept, max, a, m, s.cur.x, s.cur.y, false);
    CurKeeps(m, s.cur.x, s.cur.y);
    var a1, m1 := SetCur(a, s.cur.x, s.cur.y, false), SetCur(m, s.cur.x, s.cur.y, false);
    if s.cur.y == s.bot {
      TwinScroll(kept, max, a1, m1);
    } else if s.cur.y < m.h - 1 {
      TwinCur(kept, max, a1, m1, s.cur.x, s.cur.y + 1, false);
    }
  }

  // ---------------------------------------------------------------------------
  // Printing
  // ---------------------------------------------------------------------------

  lemma WrappedFit(t: T)
    ensures var s := Active(t);
      0 <= s.cur.y < |s.rows| == t.h && RowsFit(s.rows[s.cur.y := s.rows[s.cur.y].(wrapped := true)], t.w)
  {
  }

  lemma TwinWrap(kept: Screen, max: nat, a: T, m: T)
    requires Twin(kept, max, a, m)
    ensures Twin(kept, max, WrapToNextLine(a), WrapToNextLine(m))
  {
    hide RowsFit, LineFeed, SetCur, Twin, SetRows;
    Like(kept, max, a, m);
    var y := Active(m).cur.y;
    TwinCur(kept, max, a, m, 0, y, false);
    var a1, m1 := LineFeed(SetCur(a, 0, y, false)), LineFeed(SetCur(m, 0, y, false));
    TwinLineFeed(kept, max, SetCur(a, 0, y, false), SetCur(m, 0, y, false));
    Like(kept, max, a1, m1);
    var s := Active(m1);
    WrappedFit(m1);
    TwinRows(kept, max, a1, m1, s.rows[s.cur.y := s.rows[s.cur.y].(wrapped := true)]);
  }

  lemma TwinTakeWrap(kept: Screen, max: nat, a: T, m: T)
    requires Twin(kept, max, a, m)
    ensures Twin(kept, max, TakeWrap(a), TakeWrap(m))
  {
    hide RowsFit, WrapToNextLine, SetCur, Twin;
    Like(kept, max, a, m);
    TwinWrap(kept, max, a, m);
    TwinCur(kept, max, a, m, m.w - 1, Active(m).cur.y, false);
  }

  lemma TwinMakeRoom(kept: Screen, max: nat, a: T, m: T, width: int)
    requires Twin(kept, max, a, m) && !Active(m).cur.pendingWrap && 1 <= width <= 2
    ensures !Active(a).cur.pendingWrap && Twin(kept, max, MakeRoom(a, width), MakeRoom(m, width))
  {
    hide RowsFit, WrapToNextLine, SetCur, Twin, SetLine;
    Like(kept, max, a, m);
    var s := Active(m);
    if width == 2 && s.cur.x >= m.w - 1 {
      var cells := Line(m)[s.cur.x := Blank(m.pen)];
      TwinLine(kept, max, a, m, cells);
      TwinWrap(kept, max, SetLine(a, cells), SetLine(m, cells));
      TwinCur(kept, max, a, m, m.w - 2, s.cur.y, false);
    }
  }

  lemma TwinMoveAside(kept: Screen, max: nat, a: T, m: T, width: int)
    requires Twin(kept, max, a, m) && width >= 0
    ensures Twin(kept, max, MoveAside(a, width), MoveAside(m, width))
  {
    hide RowsFit, SetLine, Twin;
    Like(kept, max, a, m);
    if m.modes.insert {
      TwinLine(kept, max, a, m, InsertInLine(Line(m), Active(m).cur.x, width, m.pen));
    }
  }

  lemma TwinPlace(kept: Screen, max: nat, a: T, m: T, r: Rune, width: int)
    requires Twin(kept, max, a, m) && 1 <= width <= 2 && Active(m).cur.x + width <= m.w && !Active(m).cur.pendingWrap
    ensures Active(a).cur == Active(m).cur && a.w == m.w && Twin(kept, max, Place(a, r, width), Place(m, r, width))
  {
    hide ScreenFits, RowsFit, PlaceInLine;
  }

  lemma TwinCombine(kept: Screen, max: nat, a: T, m: T, r: Rune)
    requires Twin(kept, max, a, m)
    ensures Twin(kept, max, Combine(a, r), Combine(m, r))
  {
    hide SetLine, Twin, RowsFit;
    Like(kept, max, a, m);
    var s := Active(m);
    var x0 := if s.cur.pendingWrap then m.w - 1 else s.cur.x - 1;
    if x0 >= 0 {
      var x := if Line(m)[x0].width == 0 && x0 > 0 then x0 - 1 else x0;
      var c := Line(m)[x];
      TwinLine(kept, max, a, m, Line(m)[x := c.(ch := (if c.ch == [] then [0x20] else c.ch) + [r])]);
    }
  }

  lemma TwinLast(kept: Screen, max: nat, a: T, m: T, g: Rune)
    requires Twin(kept, max, a, m)
    ensures Twin(kept, max, a.(lastPrinted := g), m.(lastPrinted := g))
  {
    hide ScreenFits;
  }

  lemma TwinPrint(kept: Screen, max: nat, a: T, m: T, r: Rune)
    requires Twin(kept, max, a, m)
    ensures Twin(kept, max, PrintRune(a, r), PrintRune(m, r))
  {
    hide RowsFit, ScreenFits, TakeWrap, MakeRoom, MoveAside, Place, Combine, RuneWidth, Translate, Twin;
    Like(kept, max, a, m);
    var g := Translate(m.charsets, r);
    var width := RuneWidth(g);
    if width == 0 {
      TwinCombine(kept, max, a, m, g);
    } else {
      TwinLast(kept, max, a, m, g);
      var a1, m1 := a.(lastPrinted := g), m.(lastPrinted := g);
      TwinTakeWrap(kept, max, a1, m1);
      var a2, m2 := TakeWrap(a1), TakeWrap(m1);
      TwinMakeRoom(kept, max, a2, m2, width);
      var a3, m3 := MakeRoom(a2, width), MakeRoom(m2, width);
      TwinMoveAside(kept, max, a3, m3, width);
      TwinPlace(kept, max, MoveAside(a3, width), MoveAside(m3, width), g, width);
    }
  }

  lemma {:induction false} TwinPrints(kept: Screen, max: nat, a: T, m: T, rs: seq<Rune>)
    requires Twin(kept, max, a, m)
    ensures Twin(kept, max, ApplyAll(a, Prints(rs)), ApplyAll(m, Prints(rs)))
    decreases |rs|
  {
    hide PrintRune, Twin, ApplyAll;
    if rs == [] {
      assert Prints(rs) == [];
      ApplyNothing(a);
      ApplyNothing(m);
    } else {
      TwinPrint(kept, max, a, m, rs[0]);
      PrintsCons(rs);
      ApplyAppend(a, [Print(rs[0])], Prints(rs[1..]));
      ApplyAppend(m, [Print(rs[0])], Prints(rs[1..]));
      Apply1(a, Print(rs[0]));
      Apply1(m, Print(rs[0]));
      TwinPrints(kept, max, PrintRune(a, rs[0]), PrintRune(m, rs[0]), rs[1..]);
    }
  }

  // ---------------------------------------------------------------------------
  // The other pieces
  // ---------------------------------------------------------------------------

  lemma TwinBrush(kept: Screen, max: nat, a: T, m: T, b: Brush)
    requires Twin(kept, max, a, m)
    ensures Twin(kept, max, WithBrush(a, b), WithBrush(m, b))
  {
    hide ScreenFits;
  }

  lemma TwinModes(kept: Screen, max: nat, a: T, m: T, ms: Modes)
    requires Twin(kept, max, a, m)
    ensures Twin(kept, max, WithModes(a, ms), WithModes(m, ms))
  {
    hide ScreenFits;
  }

  lemma TwinTitle(kept: Screen, max: nat, a: T, m: T, title: seq<byte>)
    requires Twin(kept, max, a, m)
    ensures Twin(kept, max, WithTitle(a, title), WithTitle(m, title))
  {
    hide ScreenFits;
  }

  lemma TwinSets(kept: Screen, max: nat, a: T, m: T, cs: Charsets)
    requires Twin(kept, max, a, m) && 0 <= cs.gl <= 1
    ensures Twin(kept, max, WithSets(a, cs), WithSets(m, cs))
  {
    hide ScreenFits;
  }

  lemma TwinSave(kept: Screen, max: nat, a: T, m: T)
    requires Twin(kept, max, a, m)
    ensures Twin(kept, max, SaveCursor(a), SaveCursor(m))
  {
    hide ScreenFits;
  }

  lemma TwinMove(kept: Screen, max: nat, a: T, m: T, x: int, y: int)
    requires Twin(kept, max, a, m)
    ensures Twin(kept, max, MoveCursor(a, x, y), MoveCursor(m, x, y))
  {
    hide ScreenFits, RowsFit;
  }

  lemma TwinRegion(kept: Screen, max: nat, a: T, m: T, ps: seq<Param>)
    requires Twin(kept, max, a, m)
    ensures Twin(kept, max, SetRegion(a, ps), SetRegion(m, ps))
  {
    hide RowsFit, ParamAt;
  }

  lemma DoRegionPiece(d: T, ps: seq<Param>)
    ensures Do(d, Csi(0, ps, 0, 'r' as int)) == SetRegion(d, ps)
  {
    hide Apply, ScreenFits, ApplyMotion, ApplyEdit, ClearTabs, SetRegion, SaveCursor, RestoreCursor, Sgr, SetModes, IsMotion;
    Apply1(d, CsiDispatch(0, 0, ps, 'r' as int));
    ApplyPlain(d, ps, 'r' as int);
    NoMotion('r' as int);
  }

  lemma DoCupPiece(d: T, n: nat, m: nat)
    requires m >= 1
    ensures Do(d, Csi(0, [P(n), P(m)], 0, 'H' as int))
      == MoveCursor(d, m - 1, Max(n, 1) - 1 + if d.modes.origin then Active(d).top else 0)
  {
    hide Apply, ScreenFits, MoveCursor;
    Apply1(d, CsiDispatch(0, 0, [P(n), P(m)], 'H' as int));
    ApplyCup(d, n, m);
  }

  lemma TwinExecute(kept: Screen, max: nat, a: T, m: T, b: byte)
    requires Twin(kept, max, a, m) && (b == 0x0d || b == 0x0a)
    ensures Twin(kept, max, ApplyExecute(a, b), ApplyExecute(m, b))
  {
    hide RowsFit, LineFeed, TabForward, SetCur, Twin;
    Like(kept, max, a, m);
    TwinLineFeed(kept, max, a, m);
    Like(kept, max, LineFeed(a), LineFeed(m));
    TwinCur(kept, max, LineFeed(a), LineFeed(m), 0, Active(LineFeed(m)).cur.y, false);
    TwinCur(kept, max, a, m, 0, Active(m).cur.y, false);
  }

  lemma TwinOrigin(kept: Screen, max: nat, a: T, m: T)
    requires Twin(kept, max, a, m)
    ensures Twin(kept, max, SetPrivateMode(a, 6, true), SetPrivateMode(m, 6, true))
  {
    hide ScreenFits, MoveCursor, EnterAlt, LeaveAlt, PrivateFlag, Twin;
    Like(kept, max, a, m);
    var ms := m.modes.(origin := true);
    TwinModes(kept, max, a, m, ms);
    TwinMove(kept, max, WithModes(a, ms), WithModes(m, ms), 0, 0);
  }

  /** The piece does the same on both screens. */
  ghost predicate Quiet(p: Piece) {
    forall kept, max, a, m :: Twin(kept, max, a, m) ==> Twin(kept, max, Do(a, p), Do(m, p))
  }

  lemma QuietSgr(st: Style)
    ensures Quiet(SgrPiece(st)) && Quiet(RESET)
  {
    hide Twin, Do, SgrPiece;
    forall kept, max, a, m | Twin(kept, max, a, m)
      ensures Twin(kept, max, Do(a, SgrPiece(st)), Do(m, SgrPiece(st))) && Twin(kept, max, Do(a, RESET), Do(m, RESET))
    {
      Like(kept, max, a, m);
      DoSgr(a, st);
      DoSgr(m, st);
      DoReset(a);
      DoReset(m);
      TwinBrush(kept, max, a, m, Brush(st, m.link));
      TwinBrush(kept, max, a, m, Brush(PLAIN, m.link));
    }
  }

  lemma QuietOsc(text: seq<byte>)
    ensures Quiet(LinkPiece(text)) && Quiet(TitlePiece(text))
  {
    hide Twin, Do, LinkPiece, TitlePiece;
    forall kept, max, a, m | Twin(kept, max, a, m)
      ensures Twin(kept, max, Do(a, LinkPiece(text)), Do(m, LinkPiece(text)))
      ensures Twin(kept, max, Do(a, TitlePiece(text)), Do(m, TitlePiece(text)))
    {
      Like(kept, max, a, m);
      DoLink(a, text);
      DoLink(m, text);
      DoTitle(a, text);
      DoTitle(m, text);
      TwinBrush(kept, max, a, m, Brush(m.pen, text));
      TwinTitle(kept, max, a, m, text);
    }
  }

  lemma QuietText(rs: seq<Rune>)
    ensures Quiet(Text(rs))
  {
    hide Twin, ApplyAll;
    forall kept, max, a, m | Twin(kept, max, a, m) ensures Twin(kept, max, Do(a, Text(rs)), Do(m, Text(rs))) {
      TwinPrints(kept, max, a, m, rs);
    }
  }

  lemma QuietControl(b: byte)
    requires b == 0x0d || b == 0x0a
    ensures Quiet(Control(b))
  {
    hide Twin, Do, ApplyExecute;
    forall kept, max, a, m | Twin(kept, max, a, m) ensures Twin(kept, max, Do(a, Control(b)), Do(m, Control(b))) {
      DoControl(a, b);
      DoControl(m, b);
      TwinExecute(kept, max, a, m, b);
    }
  }

  lemma QuietSave()
    ensures Quiet(Esc(0, '7' as int))
  {
    hide Twin, Do, SaveCursor;
    forall kept, max, a, m | Twin(kept, max, a, m)
      ensures Twin(kept, max, Do(a, Esc(0, '7' as int)), Do(m, Esc(0, '7' as int)))
    {
      DoSave(a);
      DoSave(m);
      TwinSave(kept, max, a, m);
    }
  }

  lemma SetsFit(t: T)
    ensures 0 <= t.charsets.gl <= 1
  {
  }

  lemma QuietSets()
    ensures Quiet(Esc('(' as int, '0' as int)) && Quiet(Esc(')' as int, '0' as int)) && Quiet(Control(0x0e))
  {
    hide Twin, Do, WithSets, Fits;
    forall kept, max, a, m | Twin(kept, max, a, m)
      ensures Twin(kept, max, Do(a, Esc('(' as int, '0' as int)), Do(m, Esc('(' as int, '0' as int)))
      ensures Twin(kept, max, Do(a, Esc(')' as int, '0' as int)), Do(m, Esc(')' as int, '0' as int)))
      ensures Twin(kept, max, Do(a, Control(0x0e)), Do(m, Control(0x0e)))
    {
      Like(kept, max, a, m);
      SetsFit(m);
      DoDesignate(a);
      DoDesignate(m);
      TwinSets(kept, max, a, m, m.charsets.(g0 := Graphics));
      TwinSets(kept, max, a, m, m.charsets.(g1 := Graphics));
      TwinSets(kept, max, a, m, m.charsets.(gl := 1));
    }
  }

  lemma QuietRegion(ps: seq<Param>)
    ensures Quiet(Csi(0, ps, 0, 'r' as int))
  {
    hide Twin, Do, SetRegion;
    forall kept, max, a, m | Twin(kept, max, a, m)
      ensures Twin(kept, max, Do(a, Csi(0, ps, 0, 'r' as int)), Do(m, Csi(0, ps, 0, 'r' as int)))
    {
      DoRegionPiece(a, ps);
      DoRegionPiece(m, ps);
      TwinRegion(kept, max, a, m, ps);
    }
  }

  lemma QuietCup(x: nat, y: int)
    ensures Quiet(CupPiece(x, y))
  {
    hide Twin, Do, MoveCursor;
    var p := CupPiece(x, y);
    forall kept, max, a, m | Twin(kept, max, a, m) ensures Twin(kept, max, Do(a, p), Do(m, p)) {
      Like(kept, max, a, m);
      if y + 1 >= 0 {
        DoCupPiece(a, y + 1, x + 1);
        DoCupPiece(m, y + 1, x + 1);
        TwinMove(kept, max, a, m, x, Max(y + 1, 1) - 1 + if m.modes.origin then Active(m).top else 0);
      } else {
        DoIgnored(a, x, y);
        DoIgnored(m, x, y);
      }
    }
  }

  lemma DoIgnored(d: T, x: nat, y: int)
    requires y + 1 < 0
    ensures Do(d, CupPiece(x, y)) == d
  {
    hide ScreenFits, Itoa, ApplyAll;
    ApplyNothing(d);
  }

  lemma QuietModes(n: nat)
    ensures Quiet(Csi(0, [P(n)], 0, 'h' as int)) && Quiet(Csi(0, [P(n)], ' ' as int, 'q' as int))
    ensures Simple(n) ==> Quiet(SetPiece(n)) && Quiet(ResetPiece(n))
  {
    hide Twin, Do, WithModes, SetMode, PrivateFlag, SetPiece, ResetPiece;
    forall kept, max, a, m | Twin(kept, max, a, m)
      ensures Twin(kept, max, Do(a, Csi(0, [P(n)], 0, 'h' as int)), Do(m, Csi(0, [P(n)], 0, 'h' as int)))
      ensures Twin(kept, max, Do(a, Csi(0, [P(n)], ' ' as int, 'q' as int)), Do(m, Csi(0, [P(n)], ' ' as int, 'q' as int)))
      ensures Simple(n) ==> Twin(kept, max, Do(a, SetPiece(n)), Do(m, SetPiece(n)))
      ensures Simple(n) ==> Twin(kept, max, Do(a, ResetPiece(n)), Do(m, ResetPiece(n)))
    {
      Like(kept, max, a, m);
      DoAnsi(a, n);
      DoAnsi(m, n);
      TwinModes(kept, max, a, m, SetMode(m.modes, n, true));
      DoStyle(a, n);
      DoStyle(m, n);
      TwinModes(kept, max, a, m, m.modes.(cursorStyle := n));
      if Simple(n) {
        DoSimple(a, n, true);
        DoSimple(m, n, true);
        TwinModes(kept, max, a, m, PrivateFlag(m.modes, n, true));
        DoSimple(a, n, false);
        DoSimple(m, n, false);
        TwinModes(kept, max, a, m, PrivateFlag(m.modes, n, false));
      }
    }
  }

  lemma QuietOrigin()
    ensures Quiet(SetPiece(6))
  {
    hide Twin, Do, SetPrivateMode;
    forall kept, max, a, m | Twin(kept, max, a, m) ensures Twin(kept, max, Do(a, SetPiece(6)), Do(m, SetPiece(6))) {
      DoPrivate(a, 6, true);
      DoPrivate(m, 6, true);
      TwinOrigin(kept, max, a, m);
    }
  }

  // ---------------------------------------------------------------------------
  // Lists of pieces
  // ---------------------------------------------------------------------------

  ghost predicate AllQuiet(ps: seq<Piece>) { forall i :: 0 <= i < |ps| ==> Quiet(ps[i]) }

  lemma {:induction false} TwinRun(kept: Screen, max: nat, a: T, m: T, ps: seq<Piece>)
    requires Twin(kept, max, a, m) && AllQuiet(ps)
    ensures Twin(kept, max, Run(a, ps), Run(m, ps))
    decreases |ps|
  {
    hide Twin, Do, Quiet;
    if ps != [] {
      QuietDo(kept, max, a, m, ps[0]);
      TwinRun(kept, max, Do(a, ps[0]), Do(m, ps[0]), ps[1..]);
    }
  }

  lemma QuietDo(kept: Screen, max: nat, a: T, m: T, p: Piece)
    requires Twin(kept, max, a, m) && Quiet(p)
    ensures Twin(kept, max, Do(a, p), Do(m, p))
  {
    hide Twin, Do;
  }

  lemma QuietConcat(a: seq<Piece>, b: seq<Piece>)
    requires AllQuiet(a) && AllQuiet(b)
    ensures AllQuiet(a + b)
  {
    hide Quiet;
  }

  lemma QuietWhen(c: bool, p: Piece)
    requires c ==> Quiet(p)
    ensures AllQuiet(When(c, p))
  {
    hide Quiet;
  }

  lemma QuietCell(c: Cell, brush: Brush)
    ensures AllQuiet(CellPieces(c, brush))
  {
    hide Quiet, SgrPiece, LinkPiece;
    QuietSgr(c.style);
    QuietOsc(c.link);
    QuietText(CellText(c));
  }

  lemma {:induction false} QuietRow(cells: seq<Cell>, brush: Brush)
    ensures AllQuiet(RowPieces(cells, brush))
    decreases |cells|
  {
    hide CellPieces, AllQuiet;
    if cells == [] {
      QuietNothing();
    } else {
      QuietCell(cells[0], brush);
      QuietRow(cells[1..], Dip(brush, cells[0]));
      QuietConcat(CellPieces(cells[0], brush), RowPieces(cells[1..], Dip(brush, cells[0])));
    }
  }

  lemma QuietNothing()
    ensures AllQuiet([])
  {
  }

  lemma QuietBreak(lines: seq<Row>, k: nat)
    ensures AllQuiet(Break(lines, k))
  {
    hide Quiet;
    QuietControl(0x0d);
    QuietControl(0x0a);
  }

  lemma {:induction false} QuietLines(lines: seq<Row>, k: nat, brush: Brush)
    ensures AllQuiet(LinesPieces(lines, k, brush))
    decreases |lines| - k
  {
    hide RowPieces, AllQuiet, Emitted, DipAll, Break;
    if k >= |lines| {
      QuietNothing();
    } else {
      var row, brk := RowPieces(Emitted(lines, k), brush), Break(lines, k);
      QuietRow(Emitted(lines, k), brush);
      QuietBreak(lines, k);
      QuietLines(lines, k + 1, DipAll(brush, Emitted(lines, k)));
      QuietConcat(row, brk);
      QuietConcat(row + brk, LinesPieces(lines, k + 1, DipAll(brush, Emitted(lines, k))));
    }
  }

  lemma QuietWipe(b: Brush)
    ensures AllQuiet(WipePieces(b))
  {
    hide Quiet, LinkPiece;
    QuietSgr(PLAIN);
    QuietOsc([]);
  }
}
