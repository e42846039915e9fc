/** Output after which the lines do not come back, one for each condition, and output
    after which a continuation on the only row does. */
module Shortfalls {
  import opened Utf8
  import opened Cells
  import opened Width
  import opened Sequences
  import opened Terminal
  import opened Dispatch
  import opened Snapshots
  import opened Content
  import opened Paint
  import opened Typewriter
  import opened Receiving
  import opened Alignment
  import opened Restore
  import opened RoundTrip
  import opened Fidelity
  import opened Exactness
  import opened Samples

  const AB := Row([Plainly(A), Plainly(B)], false)
  const CONTINUED := Row([Plainly(C), BLANK], true)
  const EMPTY := Row([], false)
  const ERASED := BlankRow(2, PLAIN).(wrapped := true)

  const ABC := [Text([A]), Text([B]), Text([C])]

  function AbcCells(): seq<Cell> { [Plainly(A), Plainly(B), Plainly(C)] }

  lemma AbcPieces()
    ensures PiecesOk(ABC) && CellsOk(AbcCells()) && RowPieces(AbcCells(), DRY) == ABC && DipAll(DRY, AbcCells()) == DRY
  {
    hide RowPieces, DipAll, PieceOk, CellOk, Plainly;
    PlainlyOk(A);
    PlainlyOk(B);
    PlainlyOk(C);
    RowOne(A, [Plainly(B), Plainly(C)]);
    RowOne(B, [Plainly(C)]);
    RowOne(C, []);
    NoCells(DRY);
    assert [Plainly(A)] + [Plainly(B), Plainly(C)] == AbcCells();
    assert [Plainly(B)] + [Plainly(C)] == [Plainly(B), Plainly(C)];
    assert [Plainly(C)] + [] == [Plainly(C)];
  }

  lemma LinesFine()
    ensures CellsOk(AB.cells) && CellsOk(CONTINUED.cells) && CellsOk(ERASED.cells) && CellsOk(EMPTY.cells) && CellsOk([Plainly(C)])
  {
    hide CellOk;
    PlainlyOk(A);
    PlainlyOk(B);
    PlainlyOk(C);
  }

  /** "ab" from the first column. */
  lemma AbTape(t: Tape)
    requires t.w == 2 && t.col == 0
    ensures var u := Type(Type(t, Plainly(A)), Plainly(B)); var n := |t.lines| - 1;
      u.w == 2 && u.h == t.h && u.col == 2 && u.lines == t.lines[n := t.lines[n].(cells := AB.cells)]
  {
    hide Sound;
    TapeShape(t);
    var n := |t.lines| - 1;
    var a := Strike(t, Plainly(A));
    assert Type(t, Plainly(A)) == a && Last(a)[0] == Plainly(A) && a.col == 1 && a.lines == t.lines[n := a.lines[n]];
    var b := Strike(a, Plainly(B));
    assert Type(a, Plainly(B)) == b && b.lines == a.lines[n := b.lines[n]];
    assert Last(b) == AB.cells;
  }

  /** A letter that does not fit on the line. */
  lemma WrapTape(t: Tape, c: Cell)
    requires t.w == 2 && t.col == 2 && c.width == 1 && c.style == PLAIN
    ensures var u, v := Type(t, c), NewLine(t, PLAIN, true); var n := |t.lines|;
      && u.w == 2 && u.h == t.h && u.col == 1 && |u.lines| == n + 1 && |v.lines| == n + 1
      && u.lines[..n] == v.lines[..n] && u.lines[n] == Row([c, BLANK], true)
  {
    hide Sound;
    var v := NewLine(t, PLAIN, true);
    FeedIs(t, PLAIN, true, |t.lines|);
    assert Last(v) == [BLANK, BLANK];
    assert Stored(Last(v), 0, c) == [c, BLANK];
  }

  lemma AbcSteps(t: Tape)
    requires t.w == 2 && t.col == 0 && CellsOk(AbcCells())
    ensures 1 <= Plainly(C).width <= 2 && TypeAll(t, AbcCells()) == Type(Type(Type(t, Plainly(A)), Plainly(B)), Plainly(C))
  {
    hide Sound, Type, CellOk;
    var cells := AbcCells();
    assert cells[1..] == [Plainly(B), Plainly(C)];
    assert cells[1..][1..] == [Plainly(C)];
  }

  /** A letter that wraps leaves the lines above as they were, or unmarked. */
  lemma WrapKeeps(t: Tape, c: Cell, k: nat)
    requires t.w == 2 && t.col == 2 && c.width == 1 && c.style == PLAIN && k < |t.lines|
    ensures var u := Type(t, c); |u.lines| > k && u.lines[k].cells == t.lines[k].cells && (!t.lines[k].wrapped ==> !u.lines[k].wrapped)
  {
    hide Sound, Type, NewLine;
    WrapTape(t, c);
    var u, v := Type(t, c), NewLine(t, PLAIN, true);
    FeedIs(t, PLAIN, true, k);
    assert u.lines[k] == u.lines[..|t.lines|][k] == v.lines[..|t.lines|][k] == v.lines[k];
  }

  /** "abc" from the first column of the last line on two columns. */
  lemma AbcTape(t: Tape)
    requires t.w == 2 && t.col == 0 && CellsOk(AbcCells())
    ensures var u := TypeAll(t, AbcCells()); var n := |t.lines| - 1;
      && u.w == 2 && u.h == t.h && u.col == 1 && |u.lines| == n + 2
      && u.lines[n].cells == AB.cells && (!t.lines[n].wrapped ==> !u.lines[n].wrapped) && u.lines[n + 1] == CONTINUED
      && forall k :: 0 <= k < n ==> u.lines[k].cells == t.lines[k].cells && (!t.lines[k].wrapped ==> !u.lines[k].wrapped)
  {
    hide Sound, Type, NewLine, Plainly, TypeAll, AbcCells;
    var n := |t.lines| - 1;
    TapeShape(t);
    Narrow();
    AbcSteps(t);
    AbTape(t);
    var t2 := Type(Type(t, Plainly(A)), Plainly(B));
    var u := Type(t2, Plainly(C));
    WrapTape(t2, Plainly(C));
    forall k | 0 <= k <= n
      ensures u.lines[k].cells == t2.lines[k].cells && (!t2.lines[k].wrapped ==> !u.lines[k].wrapped)
    {
      WrapKeeps(t2, Plainly(C), k);
    }
    assert t2.lines[n].cells == AB.cells && t2.lines[n].wrapped == t.lines[n].wrapped;
  }

  lemma Narrow()
    ensures forall r :: Plainly(r).width == 1 && Plainly(r).style == PLAIN
  {
  }

  /** "abc" on a fresh terminal of two columns. */
  lemma FreshAbc(h: nat, max: nat) returns (r: Rune, u: Tape)
    requires h >= 1
    ensures u.w == 2 && u.h == h && u.col == 1 && u.lines == [AB, CONTINUED]
    ensures Run(New(2, h, max), ABC) == Small(2, h, max, ScreenOf(u), HistoryOf(u, max), CursorOf(u), DRY, r)
  {
    hide New, Run, Sound, TypeAll, On, Plainly, ScreenOf, HistoryOf, CursorOf, AbcCells, Small, FreshTape, RowPieces, DipAll, PiecesOk,
      CellsOk, Takes;
    AbcPieces();
    r := TextTyped(2, h, max, AbcCells());
    u := TypeAll(FreshTape(2, h, 0, 0), AbcCells());
    FreshLine(h);
    AbcTape(FreshTape(2, h, 0, 0));
    SmallOn(u, max, DRY, r);
    assert u.lines[0] == AB;
  }

  lemma AbcTyped(max: nat) returns (r: Rune)
    ensures Run(New(2, 2, max), ABC) == Small(2, 2, max, [AB, CONTINUED], [], Cursor(1, 1, false), DRY, r)
  {
    hide New, Run, Sound, PushAll, Plainly, Small;
    var u;
    r, u := FreshAbc(2, max);
    assert ScreenOf(u) == [AB, CONTINUED];
    PushNothing(max);
    assert u.lines[..0] == [];
  }

  lemma PushNothing(max: nat)
    ensures PushAll([], [], max) == []
  {
  }

  lemma FreshLine(h: nat)
    requires h >= 1
    ensures var t := FreshTape(2, h, 0, 0); |t.lines| == 1 && !t.lines[0].wrapped && t.col == 0 && t.w == 2 && t.h == h
  {
  }

  // ---------------------------------------------------------------------------
  // A continuation becomes the first line
  // ---------------------------------------------------------------------------

  /** "abc", then the first line is deleted. */
  const DELETED := ABC + ([CupPiece(0, 0)] + [Csi(0, [P(1)], 0, 'M' as int)])

  /** And the screen scrolls. */
  const STORED := DELETED + ([CupPiece(0, 1)] + [Control(0x0a)])

  lemma DeletedOk()
    ensures PiecesOk(DELETED) && PiecesOk(STORED)
  {
    hide PieceOk, PiecesOk, CupPiece;
    AbcPieces();
    CupOk(0, 0);
    CupOk(0, 1);
    EditOk(1, 'M' as int);
    BreakOk();
    OkOne(CupPiece(0, 0));
    OkOne(CupPiece(0, 1));
    OkOne(Csi(0, [P(1)], 0, 'M' as int));
    OkOne(Control(0x0a));
    OkConcat([CupPiece(0, 0)], [Csi(0, [P(1)], 0, 'M' as int)]);
    OkConcat(ABC, [CupPiece(0, 0)] + [Csi(0, [P(1)], 0, 'M' as int)]);
    OkConcat([CupPiece(0, 1)], [Control(0x0a)]);
    OkConcat(DELETED, [CupPiece(0, 1)] + [Control(0x0a)]);
  }

  lemma BreakOk()
    ensures PieceOk(Control(0x0a)) && PieceOk(Control(0x0d)) && PiecesOk(NEWLINE)
  {
  }

  lemma DeletedTyped(max: nat) returns (r: Rune)
    ensures Run(New(2, 2, max), DELETED) == Small(2, 2, max, [CONTINUED, BlankRow(2, PLAIN)], [], Cursor(0, 0, false), DRY, r)
  {
    hide New, Run, Small, Do, CupPiece;
    var b := New(2, 2, max);
    r := AbcTyped(max);
    var d := Run(b, ABC);
    SmallCup(d, 2, 2, max, [AB, CONTINUED], [], Cursor(1, 1, false), r, 0, 0);
    SmallDelete(Do(d, CupPiece(0, 0)), 2, max, AB, CONTINUED, r);
    RunAppend(b, ABC, [CupPiece(0, 0)] + [Csi(0, [P(1)], 0, 'M' as int)]);
    RunCons(d, CupPiece(0, 0), [Csi(0, [P(1)], 0, 'M' as int)]);
    Run1(Do(d, CupPiece(0, 0)), Csi(0, [P(1)], 0, 'M' as int));
  }

  lemma StoredTyped(max: nat) returns (r: Rune)
    requires max >= 1
    ensures Run(New(2, 2, max), STORED)
      == Small(2, 2, max, BlankRows(2, 2, PLAIN), [Row([Plainly(C)], true)], Cursor(0, 1, false), DRY, r)
  {
    hide New, Run, Do, CupPiece, Small, ScrollRows, Push;
    var b := New(2, 2, max);
    r := DeletedTyped(max);
    var d := Run(b, DELETED);
    var rows := [CONTINUED, BlankRow(2, PLAIN)];
    SmallCup(d, 2, 2, max, rows, [], Cursor(0, 0, false), r, 0, 1);
    var e := Do(d, CupPiece(0, 1));
    ScrollTwo();
    SmallFeed(e, 2, 2, max, rows, [], r);
    PushContinued(max);
    RunAppend(b, DELETED, [CupPiece(0, 1)] + [Control(0x0a)]);
    RunCons(d, CupPiece(0, 1), [Control(0x0a)]);
    Run1(e, Control(0x0a));
  }

  lemma ScrollTwo()
    ensures RowsFit([CONTINUED, BlankRow(2, PLAIN)], 2)
    ensures ScrollRows([CONTINUED, BlankRow(2, PLAIN)], 0, 1, 1, 2, PLAIN) == BlankRows(2, 2, PLAIN)
  {
    var rows := [CONTINUED, BlankRow(2, PLAIN)];
    var got, want := ScrollRows(rows, 0, 1, 1, 2, PLAIN), BlankRows(2, 2, PLAIN);
    assert got[0] == want[0] && got[1] == want[1];
  }

  lemma PushContinued(max: nat)
    requires max >= 1
    ensures Push([], CONTINUED, max) == [Row([Plainly(C)], true)]
  {
    hide IsBlank, LastVisible;
    PlainlyOk(C);
    VisibleOne(Plainly(C), [BLANK]);
    assert CONTINUED.cells == [Plainly(C)] + [BLANK];
  }

  /** That the oldest line, on the screen or stored, continues another is nowhere in
      the snapshot. */
  lemma FirstFlagLost(t: T)
    requires Presentable(t) && AllLines(t) != [] && AllLines(t)[0].wrapped
    ensures !t.altActive && !Survives(t)
  {
    hide Presentable, Survives, NoBleed, SavedPlain, WrapDrawn, Reaches, ScreenFits;
    SurvivesExactly(t);
  }

  /** A first row that continues a line deleted above it. */
  lemma FirstRowContinued(max: nat)
    ensures var t := Output(2, 2, max, DELETED);
      !t.altActive && t.main.scrollback == [] && t.main.rows[0].wrapped && !Survives(t)
  {
    hide New, Run, Output, Survives, Presentable, ScreenFits, Plainly, PiecesOk, BlankRow, CellsOk, Small;
    DeletedOk();
    OutputIs(2, 2, max, DELETED);
    var r := DeletedTyped(max);
    var t := Output(2, 2, max, DELETED);
    LinesFine();
    BlankRowOk(2);
    SmallPresents(t, 2, 2, max, [CONTINUED, BlankRow(2, PLAIN)], [], Cursor(0, 0, false), r);
    FirstFlagLost(t);
  }

  /** A stored line that continues a line deleted above it. */
  lemma StoredContinuation(max: nat)
    requires max >= 1
    ensures var t := Output(2, 2, max, STORED);
      !t.altActive && t.main.scrollback == [Row([Plainly(C)], true)] && !Survives(t)
  {
    hide New, Run, Output, Survives, Presentable, ScreenFits, Plainly, PiecesOk, BlankRow, CellsOk, Small;
    DeletedOk();
    OutputIs(2, 2, max, STORED);
    var r := StoredTyped(max);
    var t := Output(2, 2, max, STORED);
    LinesFine();
    BlankRowOk(2);
    SmallPresents(t, 2, 2, max, BlankRows(2, 2, PLAIN), [Row([Plainly(C)], true)], Cursor(0, 1, false), r);
    FirstFlagLost(t);
  }

  // ---------------------------------------------------------------------------
  // A continuation is erased
  // ---------------------------------------------------------------------------

  const ERASED_PIECES := (NEWLINE + ABC) + [Csi(0, [P(2)], 0, 'K' as int)]

  /** An empty line and "abc" on two columns and two rows. */
  lemma ScrolledAbc(max: nat) returns (r: Rune, u: Tape)
    ensures u.w == 2 && u.h == 2 && u.col == 1 && u.lines == [BlankRow(2, PLAIN), AB, CONTINUED]
    ensures Run(New(2, 2, max), NEWLINE + ABC) == Small(2, 2, max, ScreenOf(u), HistoryOf(u, max), CursorOf(u), DRY, r)
  {
    hide New, Run, Sound, TypeAll, On, Plainly, ScreenOf, HistoryOf, CursorOf, AbcCells, Small, FreshTape, RowPieces, DipAll, PiecesOk,
      CellsOk, Takes, NewLine;
    var b, t := New(2, 2, max), FreshTape(2, 2, 0, 0);
    var v := NewLine(t, PLAIN, false);
    AbcPieces();
    FreshOn(2, 2, max);
    OnBreak(b, t, DRY, 0);
    BreakTape();
    r := OnRow(b, v, DRY, 0, AbcCells());
    u := TypeAll(v, AbcCells());
    AbcTape(v);
    SmallOn(u, max, DRY, r);
    RunAppend(b, NEWLINE, ABC);
    assert u.lines[0] == BlankRow(2, PLAIN) && u.lines[1] == AB;
  }

  lemma BreakTape()
    ensures var v := NewLine(FreshTape(2, 2, 0, 0), PLAIN, false);
      v.w == 2 && v.h == 2 && v.col == 0 && v.lines == [BlankRow(2, PLAIN), BlankRow(2, PLAIN)] && !BlankRow(2, PLAIN).wrapped
  {
    hide Sound;
    FeedIs(FreshTape(2, 2, 0, 0), PLAIN, false, 0);
    FeedIs(FreshTape(2, 2, 0, 0), PLAIN, false, 1);
  }

  lemma ScrolledTyped(max: nat) returns (r: Rune)
    requires max >= 1
    ensures Run(New(2, 2, max), NEWLINE + ABC) == Small(2, 2, max, [AB, CONTINUED], [EMPTY], Cursor(1, 1, false), DRY, r)
  {
    hide New, Run, Sound, Plainly, Small, PushAll, BlankRow;
    var u;
    r, u := ScrolledAbc(max);
    assert ScreenOf(u) == [AB, CONTINUED];
    assert u.lines[..1] == [BlankRow(2, PLAIN)];
    BlankPushed(max);
  }

  lemma BlankPushed(max: nat)
    requires max >= 1
    ensures PushAll([], [BlankRow(2, PLAIN)], max) == [EMPTY]
  {
    hide LastVisible, IsBlank;
    BlankRowOk(2);
    assert [BlankRow(2, PLAIN)][1..] == [];
    assert Trimmed(BlankRow(2, PLAIN)) == EMPTY;
  }

  lemma SmallErase(d: T, max: nat, r: Rune)
    requires d == Small(2, 2, max, [AB, CONTINUED], [EMPTY], Cursor(1, 1, false), DRY, r)
    ensures Do(d, Csi(0, [P(2)], 0, 'K' as int)) == Small(2, 2, max, [AB, ERASED], [EMPTY], Cursor(1, 1, false), DRY, r)
  {
    hide Do, ApplyEdit, ClearCells, BlankRow;
    DoEdit(d, 2, 'K' as int);
    EditErase(d);
    ClearTwo(d);
    assert [AB, CONTINUED][1 := ERASED] == [AB, ERASED];
  }

  lemma ClearTwo(d: T)
    requires d.pen == PLAIN
    ensures ClearCells(CONTINUED.cells, 0, 2, d.pen) == ERASED.cells && ERASED.wrapped
  {
    var got, want := ClearCells(CONTINUED.cells, 0, 2, d.pen), ERASED.cells;
    assert got[0] == want[0] && got[1] == want[1];
  }

  lemma ErasedTyped(max: nat) returns (r: Rune)
    requires max >= 1
    ensures PiecesOk(ERASED_PIECES)
    ensures Run(New(2, 2, max), ERASED_PIECES) == Small(2, 2, max, [AB, ERASED], [EMPTY], Cursor(1, 1, false), DRY, r)
  {
    hide New, Run, Small, Do, PiecesOk, PieceOk;
    var b := New(2, 2, max);
    r := ScrolledTyped(max);
    var d := Run(b, NEWLINE + ABC);
    SmallErase(d, max, r);
    RunAppend(b, NEWLINE + ABC, [Csi(0, [P(2)], 0, 'K' as int)]);
    Run1(d, Csi(0, [P(2)], 0, 'K' as int));
    AbcPieces();
    BreakOk();
    OkConcat(NEWLINE, ABC);
    EditOk(2, 'K' as int);
    OkOne(Csi(0, [P(2)], 0, 'K' as int));
    OkConcat(NEWLINE + ABC, [Csi(0, [P(2)], 0, 'K' as int)]);
  }

  lemma ErasedEmits(lines: seq<Row>)
    requires |lines| == 3 && lines[2] == ERASED
    ensures Emitted(lines, 2) == [] && lines[2].wrapped
  {
    hide LastVisible;
    BlankRowOk(2);
  }

  /** A continuation that shows nothing. */
  lemma BlankContinuation(t: T, k: nat)
    requires Presentable(t) && k < |AllLines(t)| && AllLines(t)[k].wrapped && Emitted(AllLines(t), k) == []
    ensures !t.altActive && !Survives(t)
  {
    hide Presentable, Survives, NoBleed, SavedPlain, WrapDrawn, Reaches, ScreenFits, Emitted;
    SurvivesExactly(t);
  }

  /** A continuation that was erased: the receiver gets one line less. */
  lemma ErasedContinuation(max: nat)
    requires max >= 1
    ensures var t := Output(2, 2, max, ERASED_PIECES);
      !t.altActive && t.main.rows == [AB, ERASED] && t.main.scrollback == [EMPTY] && !Survives(t)
  {
    hide New, Run, Output, Survives, Presentable, ScreenFits, Plainly, PiecesOk, BlankRow, CellsOk, Small, Emitted;
    var r := ErasedTyped(max);
    OutputIs(2, 2, max, ERASED_PIECES);
    var t := Output(2, 2, max, ERASED_PIECES);
    LinesFine();
    SmallPresents(t, 2, 2, max, [AB, ERASED], [EMPTY], Cursor(1, 1, false), r);
    assert AllLines(t)[2] == ERASED;
    ErasedEmits(AllLines(t));
    BlankContinuation(t, 2);
  }

  // ---------------------------------------------------------------------------
  // Half a wide character is erased
  // ---------------------------------------------------------------------------

  function WideLine(r: Rune): seq<Cell> { [Wide(r), Half(Wide(r)), Plainly(B)] }
  function HalvedLine(r: Rune): seq<Cell> { [BLANK, Half(Wide(r)), Plainly(B)] }

  /** A wide character and 'b'; the first half of the wide one is erased. */
  function HalvedPieces(r: Rune): seq<Piece> {
    [Text([r]), Text([B])] + ([CupPiece(0, 0)] + [Csi(0, [P(1)], 0, 'X' as int)])
  }

  lemma WideLineOk(r: Rune)
    requires RuneWidth(r) == 2
    ensures LineOk(WideLine(r)) && CellsOk(HalvedLine(r)) && |WideLine(r)| == 3
  {
    hide CellOk, RuneWidth;
    WideOk(r);
    PlainlyOk(B);
  }

  lemma WideRow(r: Rune)
    ensures RowPieces(WideLine(r), DRY) == [Text([r]), Text([B])] && DipAll(DRY, WideLine(r)) == DRY
  {
    var cells := WideLine(r);
    assert cells[1..] == [Half(Wide(r)), Plainly(B)];
    assert cells[1..][1..] == [Plainly(B)];
    assert CellPieces(Wide(r), DRY) == [Text([r])] && Dip(DRY, Wide(r)) == DRY;
    HalfSilent(Half(Wide(r)), DRY);
    RowOne(B, []);
    NoCells(DRY);
    assert [Plainly(B)] + [] == [Plainly(B)];
  }

  /** A line that fills the screen's width, typed on a fresh terminal. */
  lemma LineTyped(w: nat, h: nat, max: nat, cells: seq<Cell>) returns (r: Rune)
    requires w >= 2 && h >= 1 && LineOk(cells) && |cells| == w && DipAll(DRY, cells) == DRY
    ensures Run(New(w, h, max), RowPieces(cells, DRY))
      == Small(w, h, max, BlankRows(h, w, PLAIN)[0 := Row(cells, false)], [], Cursor(w - 1, 0, true), DRY, r)
  {
    hide New, Run, RowPieces, DipAll, CellOk, Small, On, Sound, TypeAll, Plain, CellsOk, Paired;
    LineCells(cells);
    r := TextTyped(w, h, max, cells);
    var t := FreshTape(w, h, 0, 0);
    InkAll(t, cells);
    LineInked(w, h, max, cells);
    SmallOn(TypeAll(t, cells), max, DRY, r);
  }

  lemma LineInked(w: nat, h: nat, max: nat, cells: seq<Cell>)
    requires w >= 2 && h >= 1 && Paired(cells) && |cells| == w
    ensures var t := FreshTape(w, h, 0, 0); t.col + |cells| <= t.w
    ensures var u := Inked(FreshTape(w, h, 0, 0), cells);
      && u.w == w && u.h == h && ScreenOf(u) == BlankRows(h, w, PLAIN)[0 := Row(cells, false)]
      && HistoryOf(u, max) == [] && CursorOf(u) == Cursor(w - 1, 0, true)
  {
    hide Sound, Paired;
    var u := Inked(FreshTape(w, h, 0, 0), cells);
    assert u.lines[0].cells == cells;
    var got, want := ScreenOf(u), BlankRows(h, w, PLAIN)[0 := Row(cells, false)];
    forall y | 0 <= y < h ensures got[y] == want[y] {
    }
    assert got == want;
  }

  lemma SmallHalve(d: T, max: nat, r: Rune, last: Rune)
    requires d == Small(3, 1, max, [Row(WideLine(r), false)], [], Cursor(0, 0, false), DRY, last)
    ensures Do(d, Csi(0, [P(1)], 0, 'X' as int)) == Small(3, 1, max, [Row(HalvedLine(r), false)], [], Cursor(0, 0, false), DRY, last)
  {
    hide Do, ApplyEdit, ClearCells, WideLine, HalvedLine;
    DoEdit(d, 1, 'X' as int);
    EditEraseChars(d);
    ClearHalf(r, d);
    assert [Row(WideLine(r), false)][0 := Row(HalvedLine(r), false)] == [Row(HalvedLine(r), false)];
  }

  lemma ClearHalf(r: Rune, d: T)
    requires d.pen == PLAIN
    ensures ClearCells(WideLine(r), 0, 1, d.pen) == HalvedLine(r)
  {
    var got, want := ClearCells(WideLine(r), 0, 1, d.pen), HalvedLine(r);
    assert got[0] == want[0] && got[1] == want[1] && got[2] == want[2];
  }

  lemma HalvedOk(r: Rune)
    requires RuneWidth(r) == 2
    ensures PiecesOk(HalvedPieces(r))
  {
    hide PieceOk, PiecesOk, CupPiece, RuneWidth;
    WideOk(r);
    PlainlyOk(B);
    CupOk(0, 0);
    EditOk(1, 'X' as int);
    OkOne(Text([r]));
    OkOne(Text([B]));
    OkOne(CupPiece(0, 0));
    OkOne(Csi(0, [P(1)], 0, 'X' as int));
    OkConcat([Text([r])], [Text([B])]);
    OkConcat([CupPiece(0, 0)], [Csi(0, [P(1)], 0, 'X' as int)]);
    OkConcat([Text([r])] + [Text([B])], [CupPiece(0, 0)] + [Csi(0, [P(1)], 0, 'X' as int)]);
    assert [Text([r])] + [Text([B])] == [Text([r]), Text([B])];
  }

  lemma HalvedTyped(max: nat, r: Rune) returns (last: Rune)
    requires RuneWidth(r) == 2
    ensures Run(New(3, 1, max), HalvedPieces(r)) == Small(3, 1, max, [Row(HalvedLine(r), false)], [], Cursor(0, 0, false), DRY, last)
  {
    hide New, Run, Small, Do, CupPiece, WideLine, HalvedLine, RuneWidth;
    var b := New(3, 1, max);
    WideRow(r);
    WideLineOk(r);
    last := LineTyped(3, 1, max, WideLine(r));
    assert BlankRows(1, 3, PLAIN)[0 := Row(WideLine(r), false)] == [Row(WideLine(r), false)];
    var ps := [Text([r]), Text([B])];
    var d := Run(b, ps);
    SmallCup(d, 3, 1, max, [Row(WideLine(r), false)], [], Cursor(2, 0, true), last, 0, 0);
    SmallHalve(Do(d, CupPiece(0, 0)), max, r, last);
    RunAppend(b, ps, [CupPiece(0, 0)] + [Csi(0, [P(1)], 0, 'X' as int)]);
    RunCons(d, CupPiece(0, 0), [Csi(0, [P(1)], 0, 'X' as int)]);
    Run1(Do(d, CupPiece(0, 0)), Csi(0, [P(1)], 0, 'X' as int));
  }

  lemma HalvedUnpaired(r: Rune)
    ensures !Paired(HalvedLine(r))
  {
    var cells := HalvedLine(r);
    assert cells[1].width == 0 && cells[0].width == 1;
  }

  /** Half a wide character is left: it writes nothing, so what follows it moves. */
  lemma HalvedCharacter(max: nat, r: Rune)
    requires RuneWidth(r) == 2
    ensures var t := Output(3, 1, max, HalvedPieces(r));
      !t.altActive && t.main.rows == [Row(HalvedLine(r), false)] && t.main.scrollback == [] && !Survives(t)
  {
    hide New, Run, Output, Survives, Presentable, ScreenFits, PiecesOk, CellsOk, Small, HalvedPieces, HalvedLine, RuneWidth, Paired,
      NoBleed, SavedPlain, WrapDrawn, Reaches, Chained, Archived;
    HalvedOk(r);
    OutputIs(3, 1, max, HalvedPieces(r));
    var last := HalvedTyped(max, r);
    var t := Output(3, 1, max, HalvedPieces(r));
    WideLineOk(r);
    SmallPresents(t, 3, 1, max, [Row(HalvedLine(r), false)], [], Cursor(0, 0, false), last);
    HalvedUnpaired(r);
    assert t.main.rows[0].cells == HalvedLine(r);
    SurvivesExactly(t);
  }

  // ---------------------------------------------------------------------------
  // A continuation on the only row
  // ---------------------------------------------------------------------------

  lemma KeptLines()
    ensures var lines := [AB, CONTINUED];
      && Emitted(lines, 0) == AB.cells && Emitted(lines, 1) == [Plainly(C)] && Archived([AB], 2, 1)
      && AllPaired([AB]) && AllPaired([CONTINUED]) && Trimmed(AB) == AB
  {
    hide IsBlank, LastVisible;
    PlainlyOk(B);
    PlainlyOk(C);
    VisibleAll(AB.cells);
    VisibleOne(Plainly(C), [BLANK]);
    assert CONTINUED.cells == [Plainly(C)] + [BLANK];
    assert AB.cells[..2] == AB.cells;
  }

  lemma PushedAb(max: nat)
    requires max >= 1
    ensures PushAll([], [AB], max) == [AB]
  {
    hide LastVisible;
    KeptLines();
    assert [AB][1..] == [];
  }

  lemma KeptDry()
    ensures DipAll(DRY, AB.cells) == DRY
  {
    hide DipAll;
    RowOne(A, [Plainly(B)]);
    RowOne(B, []);
    NoCells(DRY);
    assert [Plainly(A)] + [Plainly(B)] == AB.cells;
    assert [Plainly(B)] + [] == [Plainly(B)];
  }

  lemma KeptLaid(t: T, max: nat)
    requires max >= 1 && !t.altActive && t.w == 2 && t.h == 1 && t.main.rows == [CONTINUED] && t.main.scrollback == [AB]
    ensures Laid(t, max)
  {
    hide Emitted, Plainly, LastVisible, ScreenFits, Paired;
    KeptLines();
    var lines := AllLines(t);
    assert lines == [AB, CONTINUED];
    assert Filled(lines, 0, 2);
    assert Continues(lines, 1, 2);
    assert !lines[0].wrapped;
    assert Archived([AB], 2, max);
  }

  lemma KeptPens(t: T)
    requires t.w == 2 && t.h == 1 && t.main.rows == [CONTINUED] && t.main.scrollback == [AB]
    ensures NoBleed(t)
  {
    hide Emitted, LastVisible, DipAll, ScreenFits, Paired;
    KeptLines();
    KeptDry();
    var lines := AllLines(t);
    assert lines == [AB, CONTINUED];
    assert BrushAt(lines, 0) == DRY;
    assert BrushAt(lines, 1) == DipAll(BrushAt(lines, 0), Emitted(lines, 0)) == DRY;
    assert PenAt(lines, 0).bg == Default && PenAt(lines, 1).bg == Default;
  }

  /** "abc" on two columns and one row: the mark is set after the scroll that would
      have cleared it, here as in the terminal that reads the snapshot. */
  lemma ContinuationKept(max: nat)
    requires max >= 1
    ensures var t := Output(2, 1, max, ABC);
      !t.altActive && t.main.rows == [CONTINUED] && t.main.scrollback == [AB] && Survives(t)
  {
    hide New, Run, Output, Survives, Presentable, ScreenFits, Plainly, PiecesOk, CellsOk, Small, Laid, NoBleed, LastVisible, Sound;
    AbcPieces();
    OutputIs(2, 1, max, ABC);
    var r, u := FreshAbc(1, max);
    var t := Output(2, 1, max, ABC);
    KeptLines();
    assert ScreenOf(u) == [CONTINUED];
    assert u.lines[..1] == [AB];
    PushedAb(max);
    LinesFine();
    SmallPresents(t, 2, 1, max, [CONTINUED], [AB], Cursor(1, 0, false), r);
    KeptLaid(t, max);
    KeptPens(t);
    KeptState(t, max, r);
    SurvivesExactly(t);
  }

  lemma KeptState(t: T, max: nat, r: Rune)
    requires t == Small(2, 1, max, [CONTINUED], [AB], Cursor(1, 0, false), DRY, r)
    ensures !t.altActive && SavedPlain(t) && WrapDrawn(t) && Reaches(t)
  {
    hide RowsFit, Plainly;
  }
}
