/** The snapshot of a terminal on its main screen, from bytes to state. */
module Fidelity {
  import opened Utf8
  import opened Cells
  import opened Parser
  import opened Sequences
  import opened Renditions
  import opened Terminal
  import opened Dispatch
  import opened Snapshots
  import opened Content
  import opened Paint
  import opened Typewriter
  import opened Receiving
  import opened Restore
  import opened Cursors
  import opened RoundTrip

  // ---------------------------------------------------------------------------
  // Pen, link, charsets, modes and title
  // ---------------------------------------------------------------------------

  /** The receiver in the end, on whose screen and in whose scrollback the given
      lines were drawn: t but for what the snapshot does not carry. */
  predicate Rebuilt(d: T, t: T, max: nat, rows: seq<Row>, sb: seq<Row>)
    requires !t.altActive && |rows| == t.h && RowsFit(rows, t.w)
  {
    && d.w == t.w && d.h == t.h && !d.altActive && d.main.scrollback == sb
    && (if Reaches(t) then d.main.rows == Back(t, rows) && d.main.cur == Cursor(t.main.cur.x, t.main.cur.y, Redrawn(t))
        else d.main.cur.y == Nearest(t))
    && d.main.saved == Kept(t.main.saved) && d.main.top == t.main.top && d.main.bot == t.main.bot
    && d.pen == t.pen && d.link == t.link && d.modes == t.modes && d.title == t.title && d.charsets == t.charsets
    && d.maxScrollback == max && d.tabStops == DefaultTabStops(t.w) && d.alt == NewScreen(t.w, t.h)
  }

  /** Pen, link, charsets, modes and title of t. */
  function Dressed(d: T, t: T): T {
    WithModes(WithTitle(WithSets(WithBrush(d, BrushOf(t)), t.charsets), t.title), t.modes)
  }

  lemma SetsOk(t: T)
    ensures 0 <= t.charsets.gl <= 1
  {
    hide ScreenFits;
  }

  lemma DressedParts(d: T, t: T, max: nat, rows: seq<Row>, sb: seq<Row>, saved: Saved, top: int, bot: int)
    requires Shows(d, t, max, rows, sb, saved, top, bot, t.modes.origin)
    ensures 0 <= t.charsets.gl <= 1
    ensures var e1 := WithBrush(d, Brush(t.pen, [])); var e2 := WithBrush(d, BrushOf(t));
      var e3 := WithSets(e2, t.charsets); var m := t.modes.(cursorVisible := false);
      && e1.link == [] && WithBrush(e1, Brush(e1.pen, t.link)) == e2
      && e2.charsets == ASCII_SETS && e3.modes == Opening(t.modes.origin) && WithModes(e3, m).title == []
      && WithTitle(WithModes(e3, m), []) == WithModes(e3, m)
      && WithTitle(WithModes(e3, m), t.title).modes == m
      && PrivateFlag(m, 25, true) == t.modes.(cursorVisible := true)
      && WithModes(WithTitle(WithModes(e3, m), t.title), t.modes) == Dressed(d, t)
  {
    hide ScreenFits;
    SetsOk(t);
  }

  lemma StateStage(d: T, t: T, max: nat, rows: seq<Row>, sb: seq<Row>, saved: Saved, top: int, bot: int)
    requires Shows(d, t, max, rows, sb, saved, top, bot, t.modes.origin) && MouseOk(t.modes.mouse) && MouseEncOk(t.modes.mouseEnc)
    ensures Run(d, StatePieces(t)) == Dressed(d, t)
  {
    hide Run, Do, ScreenFits, Shows, SgrPiece, LinkPiece, CharsetPieces, ModePieces, TitlePiece, SetPiece, When, MouseOk, MouseEncOk,
      WithModes, WithTitle, WithSets, WithBrush, Dressed, PrivateFlag;
    DressedParts(d, t, max, rows, sb, saved, top, bot);
    DressedBrush(d, t, max, rows, sb, saved, top, bot);
    var e1 := WithBrush(d, Brush(t.pen, []));
    var e2 := WithBrush(d, BrushOf(t));
    var e3 := WithSets(e2, t.charsets);
    var m := t.modes.(cursorVisible := false);
    var e4 := WithModes(e3, m);
    var e5 := WithTitle(e4, t.title);
    var last := When(t.modes.cursorVisible, SetPiece(25));
    var r4 := When(t.title != [], TitlePiece(t.title)) + last;
    var r3 := ModePieces(t.modes) + r4;
    var r2 := CharsetPieces(t.charsets) + r3;
    StateParts(t);
    DoSgr(d, t.pen);
    RunCons(d, SgrPiece(t.pen), When(t.link != [], LinkPiece(t.link)) + r2);
    DoLink(e1, t.link);
    DoWhen(e1, t.link != [], LinkPiece(t.link), r2, e2);
    SetsRestored(e2, t.charsets);
    RunAppend(e2, CharsetPieces(t.charsets), r3);
    ModesRestored(e3, t.modes);
    RunAppend(e3, ModePieces(t.modes), r4);
    DoTitle(e4, t.title);
    DoWhen(e4, t.title != [], TitlePiece(t.title), last, e5);
    ShowCursor(e5, t.modes);
  }

  lemma DressedBrush(d: T, t: T, max: nat, rows: seq<Row>, sb: seq<Row>, saved: Saved, top: int, bot: int)
    requires Shows(d, t, max, rows, sb, saved, top, bot, t.modes.origin)
    ensures d.link == [] && (t.link == [] ==> WithBrush(d, Brush(t.pen, [])) == WithBrush(d, BrushOf(t)))
    ensures BrushOf(t) == Brush(t.pen, t.link) && WithBrush(d, Brush(t.pen, [])).pen == t.pen
  {
    hide ScreenFits;
  }

  lemma StateParts(t: T)
    ensures StatePieces(t) == [SgrPiece(t.pen)]
      + (When(t.link != [], LinkPiece(t.link))
      + (CharsetPieces(t.charsets)
      + (ModePieces(t.modes)
      + (When(t.title != [], TitlePiece(t.title)) + When(t.modes.cursorVisible, SetPiece(25))))))
  {
    hide When, CharsetPieces, ModePieces, ScreenFits;
  }

  lemma ShowCursor(d: T, m: Modes)
    requires d.modes == m.(cursorVisible := false)
    ensures Run(d, When(m.cursorVisible, SetPiece(25))) == WithModes(d, m)
  {
    hide Run, Do, ScreenFits, When;
    ModesSame(d);
    DoSimple(d, 25, true);
    DoWhen(d, m.cursorVisible, SetPiece(25), [], WithModes(d, m));
  }

  /** The lines are drawn and the cursor is set. */
  predicate Placed(d: T, t: T, max: nat, rows: seq<Row>, sb: seq<Row>)
    requires !t.altActive && |rows| == t.h && RowsFit(rows, t.w)
  {
    && Shows(d, t, max, d.main.rows, sb, Kept(t.main.saved), t.main.top, t.main.bot, t.modes.origin)
    && (if Reaches(t) then d.main.rows == Back(t, rows) && d.main.cur == Cursor(t.main.cur.x, t.main.cur.y, Redrawn(t))
        else d.main.cur.y == Nearest(t))
  }

  lemma DressedRebuilt(d: T, t: T, max: nat, rows: seq<Row>, sb: seq<Row>)
    requires !t.altActive && |rows| == t.h && RowsFit(rows, t.w) && Placed(d, t, max, rows, sb)
    ensures Rebuilt(Dressed(d, t), t, max, rows, sb)
  {
    hide ScreenFits, Back, Redrawn, Reaches;
  }

  // ---------------------------------------------------------------------------
  // All pieces in turn
  // ---------------------------------------------------------------------------

  /** Saved cursor, region, cursor and pending wrap. */
  function TailPieces(t: T): seq<Piece>
    requires !t.altActive
  {
    SavedPieces(t.main.saved) + (RegionPieces(t.main, t.h) + (CursorPieces(t.main, t.modes.origin) + PendingOf(t)))
  }

  lemma MainPieces(t: T)
    requires !t.altActive
    ensures Pieces(t) == PROLOGUE + (LinePieces(AllLines(t)) + (TailPieces(t) + StatePieces(t)))
  {
    hide LinesPieces, WipePieces, SavedPieces, RegionPieces, CursorPieces, PendingPieces, StatePieces, RowsFit, LinesBrush;
    assert [] + StatePieces(t) == StatePieces(t);
  }

  lemma TailRestored(d: T, t: T, max: nat, rows: seq<Row>, sb: seq<Row>)
    requires !t.altActive && CellOk(Line(t)[t.w - 1]) && |rows| == t.h && RowsFit(rows, t.w)
    requires Shows(d, t, max, rows, sb, NO_SAVED, 0, t.h - 1, false)
    ensures Placed(Run(d, TailPieces(t)), t, max, rows, sb)
  {
    hide Run, SavedPieces, RegionPieces, CursorPieces, PendingOf, Shows, Back, Redrawn, RowsFit, CellOk, Reaches;
    var p2, p3, p4, p5 := SavedPieces(t.main.saved), RegionPieces(t.main, t.h), CursorPieces(t.main, t.modes.origin), PendingOf(t);
    var d2 := Run(d, p2);
    var d3 := Run(d2, p3);
    var d4 := Run(d3, p4);
    SavedStage(d, t, max, rows, sb);
    RegionStage(d2, t, max, rows, sb, Kept(t.main.saved));
    CursorStage(d3, t, max, rows, sb, Kept(t.main.saved));
    PendingStage(d4, t, max, rows, sb, Kept(t.main.saved));
    RunAppend(d, p2, p3 + (p4 + p5));
    RunAppend(d2, p3, p4 + p5);
    RunAppend(d3, p4, p5);
  }

  lemma PlacedShows(d: T, t: T, max: nat, rows: seq<Row>, sb: seq<Row>)
    requires !t.altActive && |rows| == t.h && RowsFit(rows, t.w) && Placed(d, t, max, rows, sb)
    ensures Shows(d, t, max, d.main.rows, sb, Kept(t.main.saved), t.main.top, t.main.bot, t.modes.origin)
  {
    hide ScreenFits, Back, Redrawn, Reaches, Shows;
  }

  /** From lines that are drawn to the whole state. */
  lemma TailRebuilds(d: T, t: T, max: nat, rows: seq<Row>, sb: seq<Row>)
    requires !t.altActive && CellOk(Line(t)[t.w - 1]) && |rows| == t.h && RowsFit(rows, t.w)
    requires MouseOk(t.modes.mouse) && MouseEncOk(t.modes.mouseEnc)
    requires Shows(d, t, max, rows, sb, NO_SAVED, 0, t.h - 1, false)
    ensures Rebuilt(Run(d, TailPieces(t) + StatePieces(t)), t, max, rows, sb)
  {
    hide Run, TailPieces, Shows, StatePieces, Dressed, Placed, RowsFit, Rebuilt, MouseOk, MouseEncOk, CellOk;
    TailRestored(d, t, max, rows, sb);
    var e := Run(d, TailPieces(t));
    PlacedShows(e, t, max, rows, sb);
    StateStage(e, t, max, e.main.rows, sb, Kept(t.main.saved), t.main.top, t.main.bot);
    DressedRebuilt(e, t, max, rows, sb);
    RunAppend(d, TailPieces(t), StatePieces(t));
  }

  lemma StateSame(t: T, u: T)
    requires u.pen == t.pen && u.link == t.link && u.charsets == t.charsets && u.modes == t.modes && u.title == t.title
    ensures StatePieces(u) == StatePieces(t)
  {
    hide ScreenFits, When, CharsetPieces, ModePieces;
  }

  lemma MainActive(t: T)
    requires Presentable(t)
    ensures !t.altActive && MouseOk(t.modes.mouse) && MouseEncOk(t.modes.mouseEnc) && AllCellsOk(AllLines(t))
  {
    hide AllCellsOk, MouseOk, MouseEncOk, ScreenFits, LinkOk, TextOk;
  }

  lemma LastOk(t: T)
    requires !t.altActive && AllCellsOk(AllLines(t))
    ensures CellOk(Line(t)[t.w - 1])
  {
    hide CellOk;
    var k := |t.main.scrollback| + t.main.cur.y;
    assert AllLines(t)[k] == t.main.rows[t.main.cur.y];
    assert CellsOk(AllLines(t)[k].cells);
  }

  /** The tape that the snapshot's lines leave. */
  function Retyped(t: T): (u: Tape)
    requires AllCellsOk(AllLines(t))
    ensures u.w == t.w && u.h == t.h
  {
    TapeAt(FreshTape(t.w, t.h, 0, 0), AllLines(t), |AllLines(t)|)
  }

  /** The opening and the lines. */
  lemma LinesDrawn(t: T, max: nat)
    requires AllCellsOk(AllLines(t))
    ensures var u := Retyped(t); var d := Run(Base(t.w, t.h, max), LinePieces(AllLines(t)));
      && |ScreenOf(u)| == t.h && RowsFit(ScreenOf(u), t.w)
      && Shows(d, t, max, ScreenOf(u), HistoryOf(u, max), NO_SAVED, 0, t.h - 1, false)
  {
    hide Run, ScreenFits, Sound, LinePieces, Base, Shows, On, Plain, HistoryOf, AllCellsOk, TapeAt;
    BaseOn(t.w, t.h, max);
    LinesShown(t, max, FreshTape(t.w, t.h, 0, 0), 0, AllLines(t));
  }

  /** The pieces of the snapshot rebuild the terminal with its lines as they are drawn. */
  lemma PiecesRebuild(t: T, max: nat)
    requires Presentable(t) && !t.altActive && AllCellsOk(AllLines(t))
    ensures var u := Retyped(t);
      && |ScreenOf(u)| == t.h && RowsFit(ScreenOf(u), t.w)
      && Rebuilt(Run(New(t.w, t.h, max), Pieces(t)), t, max, ScreenOf(u), HistoryOf(u, max))
  {
    hide Run, LinePieces, TailPieces, Presentable, Shows, StatePieces, Base, RowsFit, Pieces, New, Rebuilt, Retyped,
      MouseOk, MouseEncOk, CellOk, ScreenOf, HistoryOf, AllCellsOk;
    MainActive(t);
    LastOk(t);
    var lines, u := AllLines(t), Retyped(t);
    var d0, d1 := New(t.w, t.h, max), Base(t.w, t.h, max);
    var d2 := Run(d1, LinePieces(lines));
    MainPieces(t);
    OpeningWritten(t.w, t.h, max);
    LinesDrawn(t, max);
    TailRebuilds(d2, t, max, ScreenOf(u), HistoryOf(u, max));
    RunAppend(d0, PROLOGUE, LinePieces(lines) + (TailPieces(t) + StatePieces(t)));
    RunAppend(d1, LinePieces(lines), TailPieces(t) + StatePieces(t));
  }

  // ---------------------------------------------------------------------------
  // The bytes of the snapshot are its pieces
  // ---------------------------------------------------------------------------

  lemma OkConcat(a: seq<Piece>, b: seq<Piece>)
    requires PiecesOk(a) && PiecesOk(b)
    ensures PiecesOk(a + b)
  {
    hide PieceOk;
  }

  lemma OkWhen(c: bool, p: Piece)
    requires c ==> PieceOk(p)
    ensures PiecesOk(When(c, p))
  {
    hide PieceOk;
  }

  lemma SgrOk(st: Style)
    ensures PieceOk(SgrPiece(st))
  {
    hide SgrParams;
    SgrWritable(st);
  }

  lemma OscCons(b: byte, s: seq<byte>, used: nat)
    requires b < 0x80 && used < MAX_OSC_BYTES && OscFits(s, used + 1)
    ensures OscFits([b] + s, used)
  {
    hide OscFits;
    assert ([b] + s)[1..] == s;
    OscFitsCons([b] + s, used);
  }

  lemma LinkPieceOk(link: seq<byte>)
    requires LinkOk(link)
    ensures PieceOk(LinkPiece(link))
  {
    hide OscFits;
    OscCons(0x3b, link, 2);
    OscCons(0x3b, [0x3b] + link, 1);
    OscCons(0x38, [0x3b] + ([0x3b] + link), 0);
    assert [0x38] + ([0x3b] + ([0x3b] + link)) == [0x38, 0x3b, 0x3b] + link;
  }

  lemma TitlePieceOk(title: seq<byte>)
    requires TextOk(title, 2)
    ensures PieceOk(TitlePiece(title))
  {
    hide OscFits;
    OscCons(0x3b, title, 1);
    OscCons(0x30, [0x3b] + title, 0);
    assert [0x30] + ([0x3b] + title) == [0x30, 0x3b] + title;
  }

  lemma CellPiecesOk(c: Cell, brush: Brush)
    requires CellOk(c)
    ensures PiecesOk(CellPieces(c, brush))
  {
    hide SgrPiece, LinkPiece, OscFits, LinkOk;
    SgrOk(c.style);
    LinkPieceOk(c.link);
  }

  lemma {:induction false} RowPiecesOk(cells: seq<Cell>, brush: Brush)
    requires CellsOk(cells)
    ensures PiecesOk(RowPieces(cells, brush))
    decreases |cells|
  {
    hide CellOk, CellPieces, PieceOk;
    if cells != [] {
      CellPiecesOk(cells[0], brush);
      RowPiecesOk(cells[1..], Dip(brush, cells[0]));
    }
  }

  lemma {:induction false} LinesPiecesOk(lines: seq<Row>, k: nat, brush: Brush)
    requires AllCellsOk(lines)
    ensures PiecesOk(LinesPieces(lines, k, brush))
    decreases |lines| - k
  {
    hide CellOk, RowPieces, PieceOk, CellsOk, Emitted, DipAll;
    if k < |lines| {
      EmittedCellsOk(lines, k);
      RowPiecesOk(Emitted(lines, k), brush);
      BreakOk(lines, k);
      LinesPiecesOk(lines, k + 1, DipAll(brush, Emitted(lines, k)));
    }
  }

  lemma BreakOk(lines: seq<Row>, k: nat)
    ensures PiecesOk(Break(lines, k))
  {
  }

  lemma CsiOk(ps: seq<Param>, priv: byte, inter: byte, f: byte)
    requires |ps| <= 2 && Writable(ps) && ValidCsi(priv, inter, f)
    ensures PieceOk(Csi(priv, ps, inter, f))
  {
  }

  lemma SavedOk(t: T)
    requires Presentable(t)
    ensures PiecesOk(SavedPieces(t.main.saved))
  {
    hide RowsFit, AllCellsOk, SgrPiece, MouseOk, MouseEncOk, TextOk;
    SgrOk(t.main.saved.pen);
  }

  lemma RegionOk(t: T)
    requires Presentable(t)
    ensures PiecesOk(RegionPieces(t.main, t.h)) && PiecesOk(CursorPieces(t.main, t.modes.origin))
  {
    hide RowsFit, AllCellsOk, MouseOk, MouseEncOk, TextOk, CupPiece, PieceOk;
    CsiOk([P(t.main.top + 1), P(t.main.bot + 1)], 0, 0, 'r' as int);
    CupOk(t.main.cur.x, t.main.cur.y);
    CupOk(t.main.cur.x, t.main.cur.y - t.main.top);
    SetOk(6);
  }

  lemma CupOk(x: nat, y: int)
    requires x < MAX_VALUE && y < MAX_VALUE
    ensures PieceOk(CupPiece(x, y))
  {
    if y + 1 >= 0 {
      CsiOk([P(y + 1), P(x + 1)], 0, 0, 'H' as int);
    } else {
      SignedOk(-(y + 1), x + 1);
    }
  }

  lemma SignedOk(n: nat, m: nat)
    ensures Ignored([ESC, '[' as int, '-' as int] + Itoa(n) + [0x3b] + Itoa(m) + ['H' as int])
  {
    hide Itoa;
    DigitsOnly(n);
    DigitsOnly(m);
  }

  lemma DigitsOnly(n: nat)
    ensures Itoa(n) != [] && forall i :: 0 <= i < |Itoa(n)| ==> 0x30 <= Itoa(n)[i] <= 0x39
  {
  }

  lemma PendingOk(t: T)
    requires Presentable(t)
    ensures !t.altActive && PiecesOk(PendingOf(t))
  {
    hide RowsFit, Presentable, SgrPiece, PendingPieces, CellOk, PendingOf, AllCellsOk;
    MainActive(t);
    if Redrawn(t) {
      LastOk(t);
      RedrawnOk(Line(t)[t.w - 1]);
      PendingIs(t);
    } else {
      NotRedrawn(t, t.main.rows);
    }
  }

  lemma RedrawnOk(c: Cell)
    requires CellOk(c) && c.width == 1 && c.ch != []
    ensures PiecesOk([SgrPiece(c.style), Text(c.ch), RESET])
  {
    hide SgrPiece;
    SgrOk(c.style);
  }

  lemma CharsetPiecesOk(cs: Charsets)
    ensures PiecesOk(CharsetPieces(cs))
  {
    hide When, PiecesOk;
    OkWhen(cs.g0.Graphics?, Esc('(' as int, '0' as int));
    OkWhen(cs.g1.Graphics?, Esc(')' as int, '0' as int));
    OkWhen(cs.gl == 1, Control(0x0e));
    OkConcat(When(cs.g1.Graphics?, Esc(')' as int, '0' as int)), When(cs.gl == 1, Control(0x0e)));
    OkConcat(When(cs.g0.Graphics?, Esc('(' as int, '0' as int)),
             When(cs.g1.Graphics?, Esc(')' as int, '0' as int)) + When(cs.gl == 1, Control(0x0e)));
  }

  lemma OkStep(c: bool, p: Piece, rest: seq<Piece>)
    requires (c ==> PieceOk(p)) && PiecesOk(rest)
    ensures PiecesOk(When(c, p) + rest)
  {
    hide PieceOk;
  }

  lemma SetOk(n: nat)
    requires n <= MAX_VALUE
    ensures PieceOk(SetPiece(n)) && PieceOk(ResetPiece(n))
  {
  }

  lemma MousePiecesOk(m: Modes)
    requires MouseOk(m.mouse) && MouseEncOk(m.mouseEnc) && m.cursorStyle <= MAX_VALUE
    ensures PiecesOk(MousePieces(m))
  {
    hide PieceOk, PiecesOk, When;
    SetOk(m.mouse);
    SetOk(m.mouseEnc);
    CsiOk([P(m.cursorStyle)], 0, ' ' as int, 'q' as int);
    var r2 := When(m.cursorStyle != 0, Csi(0, [P(m.cursorStyle)], ' ' as int, 'q' as int));
    OkWhen(m.cursorStyle != 0, Csi(0, [P(m.cursorStyle)], ' ' as int, 'q' as int));
    OkStep(m.mouseEnc != 0, SetPiece(m.mouseEnc), r2);
    OkStep(m.mouse != 0, SetPiece(m.mouse), When(m.mouseEnc != 0, SetPiece(m.mouseEnc)) + r2);
  }

  lemma ModePiecesOk(m: Modes)
    requires MouseOk(m.mouse) && MouseEncOk(m.mouseEnc) && m.cursorStyle <= MAX_VALUE
    ensures PiecesOk(ModePieces(m))
  {
    hide PieceOk, PiecesOk, When, MousePieces, MouseOk, MouseEncOk, LatePieces, ModePieces, SetPiece, ResetPiece;
    MousePiecesOk(m);
    ModeParts(m);
    LateParts(m);
    CsiOk([P(4)], 0, 0, 'h' as int);
    CsiOk([P(20)], 0, 0, 'h' as int);
    SetOk(1);
    SetOk(7);
    SetOk(2004);
    SetOk(1004);
    var r5 := When(m.focusEvents, SetPiece(1004)) + MousePieces(m);
    var r3 := When(!m.autowrap, ResetPiece(7)) + LatePieces(m);
    var r2 := When(m.cursorKeys, SetPiece(1)) + r3;
    var r1 := When(m.lineFeedNewline, Csi(0, [P(20)], 0, 'h' as int)) + r2;
    OkStep(m.focusEvents, SetPiece(1004), MousePieces(m));
    OkStep(m.bracketedPaste, SetPiece(2004), r5);
    OkStep(!m.autowrap, ResetPiece(7), LatePieces(m));
    OkStep(m.cursorKeys, SetPiece(1), r3);
    OkStep(m.lineFeedNewline, Csi(0, [P(20)], 0, 'h' as int), r2);
    OkStep(m.insert, Csi(0, [P(4)], 0, 'h' as int), r1);
  }

  lemma LateParts(m: Modes)
    ensures LatePieces(m) == When(m.bracketedPaste, SetPiece(2004)) + (When(m.focusEvents, SetPiece(1004)) + MousePieces(m))
  {
    hide When, MousePieces;
  }

  lemma StatePiecesOk(t: T)
    requires Presentable(t)
    ensures PiecesOk(StatePieces(t))
  {
    hide PieceOk, PiecesOk, When, CharsetPieces, ModePieces, RowsFit, AllCellsOk, SgrPiece, LinkPiece, TitlePiece, SetPiece,
      LinkOk, TextOk, StatePieces;
    StateParts(t);
    SgrOk(t.pen);
    LinkPieceOk(t.link);
    CharsetPiecesOk(t.charsets);
    ModePiecesOk(t.modes);
    TitlePieceOk(t.title);
    SetOk(25);
    var r5 := When(t.modes.cursorVisible, SetPiece(25));
    var r4 := When(t.title != [], TitlePiece(t.title)) + r5;
    OkWhen(t.modes.cursorVisible, SetPiece(25));
    OkStep(t.title != [], TitlePiece(t.title), r5);
    OkConcat(ModePieces(t.modes), r4);
    OkConcat(CharsetPieces(t.charsets), ModePieces(t.modes) + r4);
    OkStep(t.link != [], LinkPiece(t.link), CharsetPieces(t.charsets) + (ModePieces(t.modes) + r4));
    OkOne(SgrPiece(t.pen));
    OkConcat([SgrPiece(t.pen)], When(t.link != [], LinkPiece(t.link)) + (CharsetPieces(t.charsets) + (ModePieces(t.modes) + r4)));
  }

  lemma OkOne(p: Piece)
    requires PieceOk(p)
    ensures PiecesOk([p])
  {
    hide PieceOk;
  }

  lemma WipeOk(b: Brush)
    ensures PiecesOk(WipePieces(b)) && PiecesOk(PROLOGUE)
  {
    hide LinkPiece;
    LinkPieceOk([]);
  }

  lemma TailOk(t: T)
    requires Presentable(t)
    ensures !t.altActive && PiecesOk(TailPieces(t))
  {
    hide PieceOk, PiecesOk, SavedPieces, RegionPieces, CursorPieces, PendingOf, Presentable, RowsFit;
    MainActive(t);
    var p2, p3, p4, p5 := SavedPieces(t.main.saved), RegionPieces(t.main, t.h), CursorPieces(t.main, t.modes.origin), PendingOf(t);
    SavedOk(t);
    RegionOk(t);
    PendingOk(t);
    OkConcat(p4, p5);
    OkConcat(p3, p4 + p5);
    OkConcat(p2, p3 + (p4 + p5));
  }

  lemma LinePiecesOk(lines: seq<Row>)
    requires AllCellsOk(lines)
    ensures PiecesOk(LinePieces(lines))
  {
    hide PieceOk, PiecesOk, LinesPieces, WipePieces, LinesBrush, AllCellsOk;
    LinesPiecesOk(lines, 0, DRY);
    WipeOk(LinesBrush(lines, 0, DRY));
    OkConcat(LinesPieces(lines, 0, DRY), WipePieces(LinesBrush(lines, 0, DRY)));
  }

  lemma SnapshotOk(t: T)
    requires Presentable(t)
    ensures PiecesOk(Pieces(t))
  {
    hide PieceOk, PiecesOk, LinePieces, TailPieces, StatePieces, Presentable, RowsFit, Pieces;
    MainActive(t);
    MainPieces(t);
    LinePiecesOk(AllLines(t));
    TailOk(t);
    StatePiecesOk(t);
    WipeOk(DRY);
    OkConcat(TailPieces(t), StatePieces(t));
    OkConcat(LinePieces(AllLines(t)), TailPieces(t) + StatePieces(t));
    OkConcat(PROLOGUE, LinePieces(AllLines(t)) + (TailPieces(t) + StatePieces(t)));
  }

  /** The snapshot's bytes rebuild the terminal with its lines as they are drawn, and
      leave the parser at rest. */
  lemma SnapshotRebuilds(t: T, max: nat)
    requires Presentable(t)
    ensures !t.altActive && AllCellsOk(AllLines(t))
    ensures var u := Retyped(t); |ScreenOf(u)| == t.h && RowsFit(ScreenOf(u), t.w)
    ensures var u := Retyped(t); var e := Write(NewEmulator(t.w, t.h, max), Snapshot(t));
      Ready(e.p) && Rebuilt(e.t, t, max, ScreenOf(u), HistoryOf(u, max))
  {
    hide ParseLoop, ApplyAll, Run, Bytes, Acts, Pieces, Presentable, Rebuilt, RowsFit, New, Retyped, ScreenOf, HistoryOf, AllCellsOk;
    MainActive(t);
    SnapshotOk(t);
    PiecesRead(INIT, Pieces(t));
    PiecesRebuild(t, max);
    RunIs(New(t.w, t.h, max), Pieces(t));
  }

  lemma WrapIs(t: T)
    requires !t.altActive
    ensures WrapDrawn(t) <==> t.main.cur.pendingWrap == Redrawn(t) && (Redrawn(t) ==> Line(t)[t.w - 1].link == [])
  {
    hide ScreenFits;
  }

  lemma KeptSame(t: T)
    ensures SameSaved(Kept(t.main.saved), t.main.saved) <==> SavedPlain(t)
  {
    hide ScreenFits;
  }

  /** The lines come back as they were. */
  predicate LinesSame(t: T, max: nat)
    requires !t.altActive && AllCellsOk(AllLines(t))
  {
    var u := Retyped(t);
    Back(t, ScreenOf(u)) == t.main.rows && HistoryOf(u, max) == t.main.scrollback
  }

  /** What was rebuilt is the state itself exactly when origin mode reaches the cursor,
      the saved cursor is plain, the wrap comes back pending and the lines are the same. */
  lemma RebuiltExact(d: T, t: T, max: nat)
    requires Presentable(t) && !t.altActive && AllCellsOk(AllLines(t))
    requires var u := Retyped(t); |ScreenOf(u)| == t.h && RowsFit(ScreenOf(u), t.w) && Rebuilt(d, t, max, ScreenOf(u), HistoryOf(u, max))
    ensures SameState(d, t) <==>
              Reaches(t) && SavedPlain(t) && t.main.cur.pendingWrap == Redrawn(t) && LinesSame(t, max)
  {
    hide ScreenFits, Back, Retyped, ScreenOf, HistoryOf, Presentable, Redrawn, Kept, SavedPlain, Reaches, AllCellsOk, Nearest;
    KeptSame(t);
    NearestDiffers(t);
  }
}
