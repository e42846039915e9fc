/** Output whose state the snapshot loses though its lines are laid right: a saved
    charset, a wrap after a blank, a background that scrolled, a cursor outside the
    region. */
module Losses {
  import opened Utf8
  import opened Cells
  import opened Parser
  import opened Sequences
  import opened Terminal
  import opened Dispatch
  import opened Snapshots
  import opened Content
  import opened Paint
  import opened Typewriter
  import opened Receiving
  import opened Restore
  import opened Cursors
  import opened RoundTrip
  import opened Bleeding
  import opened Fidelity
  import opened Exactness
  import opened Samples
  import Shortfalls
  import Twins
  import AltRoundTrip

  // ---------------------------------------------------------------------------
  // A saved charset
  // ---------------------------------------------------------------------------

  /** Line drawing is designated, and the cursor saved. */
  const SAVED_SETS: seq<byte> := [ESC, '(' as int, '0' as int, ESC, '7' as int]

  lemma SavedSetsBytes()
    ensures Bytes([Esc('(' as int, '0' as int), Esc(0, '7' as int)]) == SAVED_SETS
    ensures PiecesOk([Esc('(' as int, '0' as int), Esc(0, '7' as int)])
  {
    var p, q := Esc('(' as int, '0' as int), Esc(0, '7' as int);
    BytesCons(q, []);
    BytesCons(p, [q]);
    assert [q] + [] == [q] && [p] + [q] == [p, q];
    assert PieceBytes(p) + (PieceBytes(q) + []) == SAVED_SETS;
  }

  lemma BytesCons(p: Piece, rest: seq<Piece>)
    ensures Bytes([p] + rest) == PieceBytes(p) + Bytes(rest) && Bytes([]) == []
  {
    hide PieceBytes;
    assert ([p] + rest)[1..] == rest;
  }

  lemma SavedSetsTyped(w: nat, h: nat, max: nat)
    requires w >= 2 && h >= 1
    ensures var b := New(w, h, max); var ps := [Esc('(' as int, '0' as int), Esc(0, '7' as int)];
      Run(b, ps) == SaveCursor(WithSets(b, ASCII_SETS.(g0 := Graphics)))
  {
    hide Run, Do, SaveCursor, New;
    var b := New(w, h, max);
    FreshSets(w, h, max);
    DoDesignate(b);
    DoSave(WithSets(b, ASCII_SETS.(g0 := Graphics)));
    var p, q := Esc('(' as int, '0' as int), Esc(0, '7' as int);
    assert [p, q] == [p] + [q];
    RunCons(b, p, [q]);
    Run1(WithSets(b, ASCII_SETS.(g0 := Graphics)), q);
  }

  lemma FreshSets(w: nat, h: nat, max: nat)
    requires w >= 2 && h >= 1
    ensures New(w, h, max).charsets == ASCII_SETS
  {
  }

  lemma SavedSetsPresent(w: nat, h: nat, max: nat)
    requires 2 <= w <= MAX_VALUE && 1 <= h <= MAX_VALUE
    ensures var t := SaveCursor(WithSets(New(w, h, max), ASCII_SETS.(g0 := Graphics)));
      && Presentable(t) && !t.altActive && !SavedPlain(t) && t.main.saved.charsets.g0.Graphics?
  {
    hide RowsFit, CellsOk;
    NothingText();
    BlankRowOk(w);
  }

  /** A saved cursor comes back without its charsets. */
  lemma SavedCharsetLost(w: nat, h: nat, max: nat)
    requires 2 <= w <= MAX_VALUE && 1 <= h <= MAX_VALUE
    ensures var t := Write(NewEmulator(w, h, max), SAVED_SETS).t; !t.altActive && t.main.saved.charsets.g0.Graphics? && !Survives(t)
  {
    hide New, Run, Presentable, SavedPlain, Survives, Laid, NoBleed, WrapDrawn, Reaches, ApplyAll, ParseLoop;
    SavedSetsBytes();
    OutputIs(w, h, max, [Esc('(' as int, '0' as int), Esc(0, '7' as int)]);
    SavedSetsTyped(w, h, max);
    SavedSetsPresent(w, h, max);
    SurvivesExactly(Write(NewEmulator(w, h, max), SAVED_SETS).t);
  }

  // ---------------------------------------------------------------------------
  // A pending wrap after a blank
  // ---------------------------------------------------------------------------

  /** A row of spaces. */
  function Spaces(w: nat): seq<byte> { seq(w, i => 0x20) }

  lemma BlankFirst(rest: seq<Cell>)
    ensures RowPieces([BLANK] + rest, DRY) == [Text([0x20])] + RowPieces(rest, DRY) && DipAll(DRY, [BLANK] + rest) == DipAll(DRY, rest)
  {
    assert ([BLANK] + rest)[1..] == rest;
  }

  lemma {:induction false} SpacesBytes(w: nat)
    ensures Bytes(RowPieces(Blanks(w, PLAIN), DRY)) == Spaces(w) && DipAll(DRY, Blanks(w, PLAIN)) == DRY
    ensures PiecesOk(RowPieces(Blanks(w, PLAIN), DRY))
    decreases w
  {
    if w == 0 {
      assert Blanks(0, PLAIN) == [];
    } else {
      assert Blanks(w, PLAIN) == [BLANK] + Blanks(w - 1, PLAIN);
      BlankFirst(Blanks(w - 1, PLAIN));
      SpacesBytes(w - 1);
      SpaceFirst(RowPieces(Blanks(w - 1, PLAIN), DRY));
      assert [0x20] + Spaces(w - 1) == Spaces(w);
    }
  }

  lemma SpaceFirst(ps: seq<Piece>)
    ensures Bytes([Text([0x20])] + ps) == [0x20] + Bytes(ps) && (PiecesOk(ps) ==> PiecesOk([Text([0x20])] + ps))
  {
    assert ([Text([0x20])] + ps)[1..] == ps;
    assert [0x20][1..] == [];
    assert EncodeAll([0x20]) == [0x20];
  }

  /** A wrap pending after a blank last cell is not written. */
  lemma BlankWrapLost(w: nat, h: nat, max: nat)
    requires 2 <= w <= MAX_VALUE && 1 <= h <= MAX_VALUE
    ensures var t := Write(NewEmulator(w, h, max), Spaces(w)).t; !t.altActive && t.main.cur.pendingWrap && !Survives(t)
  {
    hide New, Run, Presentable, SavedPlain, WrapDrawn, Survives, Laid, NoBleed, Reaches, ApplyAll, ParseLoop, Small, RowPieces, DipAll,
      BlankRow, CellsOk, Paired;
    SpacesBytes(w);
    OutputIs(w, h, max, RowPieces(Blanks(w, PLAIN), DRY));
    BlankRowOk(w);
    BlankCells(w);
    var r := Shortfalls.LineTyped(w, h, max, Blanks(w, PLAIN));
    var t := Write(NewEmulator(w, h, max), Spaces(w)).t;
    BlankRowsSame(w, h);
    BlankRowsOk(w, h);
    SmallPresents(t, w, h, max, BlankRows(h, w, PLAIN), [], Cursor(w - 1, 0, true), r);
    BlankWrap(t, w, h);
    SurvivesExactly(t);
  }

  lemma BlankCells(w: nat)
    ensures BlankRow(w, PLAIN).cells == Blanks(w, PLAIN) && |Blanks(w, PLAIN)| == w
  {
  }

  lemma BlankRowsSame(w: nat, h: nat)
    requires h >= 1
    ensures BlankRows(h, w, PLAIN)[0 := Row(Blanks(w, PLAIN), false)] == BlankRows(h, w, PLAIN)
  {
  }

  lemma BlankRowsOk(w: nat, h: nat)
    ensures AllCellsOk(BlankRows(h, w, PLAIN)) && AllCellsOk([])
  {
    hide CellsOk;
    BlankRowOk(w);
  }

  lemma BlankWrap(t: T, w: nat, h: nat)
    requires !t.altActive && t.w == w >= 2 && t.h == h >= 1 && t.main.rows == BlankRows(h, w, PLAIN) && t.main.cur == Cursor(w - 1, 0, true)
    ensures !WrapDrawn(t)
  {
    hide ScreenFits;
  }

  // ---------------------------------------------------------------------------
  // A background that scrolled
  // ---------------------------------------------------------------------------

  const RED := PLAIN.(bg := Indexed(1))
  const RED_A := Cell([A], 1, RED, [])

  /** A letter on red, reset, a new line and a letter. */
  const RED_PIECES := [SgrPiece(RED), Text([A])] + ([RESET] + (NEWLINE + [Text([B])]))

  lemma RedAOk()
    ensures CellOk(RED_A) && !IsBlank(RED_A) && CellText(RED_A) == [A] && CellPieces(RED_A, DRY) == [SgrPiece(RED), Text([A])]
    ensures RED != PLAIN && Dip(DRY, RED_A).pen.bg != Default
  {
    hide SgrPiece;
  }

  lemma RedOk()
    ensures PiecesOk(RED_PIECES)
  {
    hide PieceOk, PiecesOk, SgrPiece;
    SgrOk(RED);
    PlainlyOk(A);
    PlainlyOk(B);
    OkOne(SgrPiece(RED));
    OkOne(Text([A]));
    OkOne(Text([B]));
    ResetOk();
    OkOne(RESET);
    Shortfalls.BreakOk();
    OkConcat([SgrPiece(RED)], [Text([A])]);
    OkConcat(NEWLINE, [Text([B])]);
    OkConcat([RESET], NEWLINE + [Text([B])]);
    OkConcat([SgrPiece(RED)] + [Text([A])], [RESET] + (NEWLINE + [Text([B])]));
    assert [SgrPiece(RED)] + [Text([A])] == [SgrPiece(RED), Text([A])];
  }

  lemma ResetOk()
    ensures PieceOk(RESET)
  {
  }

  /** The red letter, on a tape that is then as dry as before. */
  lemma RedTyped(max: nat) returns (r: Rune, u: Tape)
    ensures u.w == 2 && u.h == 1 && u.lines == [Row([RED_A, BLANK], false), Row([Plainly(B), BLANK], false)] && u.col == 1
    ensures Run(New(2, 1, max), RED_PIECES) == Small(2, 1, max, ScreenOf(u), HistoryOf(u, max), CursorOf(u), DRY, r)
  {
    hide New, Run, Small, Do, CellPieces, SgrPiece, CellOk, On, Sound, Type, NewLine, ScreenOf, HistoryOf, CursorOf, FreshTape, Takes, Plainly;
    var b, t := New(2, 1, max), FreshTape(2, 1, 0, 0);
    r := B;
    RedAOk();
    PlainlyOk(B);
    LetterPieces(B);
    FreshOn(2, 1, max);
    OnCell(b, t, DRY, 0, RED_A);
    var t1 := Type(t, RED_A);
    var d1 := Run(b, CellPieces(RED_A, DRY));
    DoReset(d1);
    RedBrush(b, t1);
    var d2 := Do(d1, RESET);
    OnBreak(b, t1, DRY, A);
    var t2 := NewLine(t1, PLAIN, false);
    OnCell(b, t2, DRY, A, Plainly(B));
    u := Type(t2, Plainly(B));
    RedTape();
    SmallOn(u, max, DRY, B);
    RunAppend(b, CellPieces(RED_A, DRY), [RESET] + (NEWLINE + [Text([B])]));
    RunCons(d1, RESET, NEWLINE + [Text([B])]);
    RunAppend(d2, NEWLINE, [Text([B])]);
  }

  lemma LetterPieces(r: Rune)
    ensures CellPieces(Plainly(r), DRY) == [Text([r])] && CellText(Plainly(r)) == [r] && Brush(Plainly(r).style, Plainly(r).link) == DRY
    ensures Plainly(r).width == 1
  {
  }

  /** The reset leaves the pen plain; there was no link. */
  lemma RedBrush(b: T, t: Tape)
    requires Takes(b, t)
    ensures var d := On(b, t, Brush(RED, []), A); WithBrush(d, Brush(PLAIN, d.link)) == On(b, t, DRY, A)
  {
    hide Sound, ScreenOf, HistoryOf, RowsFit;
  }

  lemma RedTape()
    ensures var t1 := Type(FreshTape(2, 1, 0, 0), RED_A); var u := Type(NewLine(t1, PLAIN, false), Plainly(B));
      u.w == 2 && u.h == 1 && u.lines == [Row([RED_A, BLANK], false), Row([Plainly(B), BLANK], false)] && u.col == 1
  {
    hide Sound;
    var t := FreshTape(2, 1, 0, 0);
    assert Last(t) == [BLANK, BLANK];
    var t1 := Type(t, RED_A);
    assert Last(t1) == [RED_A, BLANK] && t1.lines == [Row([RED_A, BLANK], false)];
    FeedIs(t1, PLAIN, false, 0);
    FeedIs(t1, PLAIN, false, 1);
    var t2 := NewLine(t1, PLAIN, false);
    assert Last(t2) == [BLANK, BLANK];
    var u := Type(t2, Plainly(B));
    assert Last(u) == [Plainly(B), BLANK];
  }

  lemma RedLines()
    ensures CellsOk([Plainly(B), BLANK]) && CellsOk([RED_A]) && Trimmed(Row([RED_A, BLANK], false)) == Row([RED_A], false)
    ensures var lines := [Row([RED_A], false), Row([Plainly(B), BLANK], false)];
      Emitted(lines, 0) == [RED_A] && Emitted(lines, 1) == [Plainly(B)]
  {
    hide CellOk, IsBlank, LastVisible;
    RedAOk();
    PlainlyOk(B);
    VisibleOne(RED_A, []);
    VisibleOne(RED_A, [BLANK]);
    VisibleOne(Plainly(B), [BLANK]);
    assert [RED_A] + [] == [RED_A] && [RED_A] + [BLANK] == [RED_A, BLANK] && [Plainly(B)] + [BLANK] == [Plainly(B), BLANK];
  }

  lemma RedPushed(max: nat)
    requires max >= 1
    ensures PushAll([], [Row([RED_A, BLANK], false)], max) == [Row([RED_A], false)]
  {
    hide LastVisible, Trimmed;
    RedLines();
    assert [Row([RED_A, BLANK], false)][1..] == [];
  }

  /** The second line scrolls in under the red pen and does not reach the edge. */
  lemma RedBleeds(t: T)
    requires t.w == 2 && t.h == 1 && AllLines(t) == [Row([RED_A], false), Row([Plainly(B), BLANK], false)]
    ensures !NoBleed(t)
  {
    hide IsBlank, LastVisible, ScreenFits, Plainly, Emitted, CellPieces;
    RedAOk();
    RedLines();
    var lines := AllLines(t);
    assert [RED_A][1..] == [];
    assert DipAll(DRY, [RED_A]) == Dip(DRY, RED_A);
    assert BrushAt(lines, 0) == DRY;
    assert BrushAt(lines, 1) == DipAll(DRY, Emitted(lines, 0));
    assert Bleeds(t.h, lines, 1, 0, t.w);
  }

  /** The row that scrolls in under the red pen of the snapshot stays red. */
  lemma BackgroundBleeds(max: nat)
    requires max >= 1
    ensures var t := Output(2, 1, max, RED_PIECES);
      && !t.altActive && t.main.rows == [Row([Plainly(B), BLANK], false)] && t.main.scrollback == [Row([RED_A], false)]
      && !Survives(t)
  {
    hide Output, New, Run, Presentable, SavedPlain, WrapDrawn, NoBleed, Survives, Laid, Reaches, Small, Plainly, PiecesOk, ScreenFits,
      Sound, PushAll, CellsOk;
    RedOk();
    OutputIs(2, 1, max, RED_PIECES);
    var r, u := RedTyped(max);
    var t := Output(2, 1, max, RED_PIECES);
    assert ScreenOf(u) == [Row([Plainly(B), BLANK], false)];
    assert u.lines[..1] == [Row([RED_A, BLANK], false)];
    RedPushed(max);
    RedLines();
    SmallPresents(t, 2, 1, max, [Row([Plainly(B), BLANK], false)], [Row([RED_A], false)], Cursor(1, 0, false), r);
    RedBleeds(t);
    SurvivesExactly(t);
  }

  // ---------------------------------------------------------------------------
  // A cursor outside the region in origin mode
  // ---------------------------------------------------------------------------

  /** In origin mode a cursor outside the region comes back on the region's nearest line. */
  lemma OutsideRegion(t: T)
    requires Presentable(t) && !Reaches(t)
    ensures !t.altActive && !Survives(t)
    ensures Write(NewEmulator(t.w, t.h, t.maxScrollback), Snapshot(t)).t.main.cur.y == Clamp(t.main.cur.y, t.main.top, t.main.bot)
  {
    hide Write, Snapshot, Presentable, Laid, NoBleed, SavedPlain, WrapDrawn, Survives, Reaches, RowsFit, Retyped, ScreenOf, HistoryOf,
      AllCellsOk, Back;
    SurvivesExactly(t);
    SnapshotRebuilds(t, t.maxScrollback);
  }

  /** A region on the main screen; on the alternate one, origin mode and the last row. */
  const BELOW_PIECES := [Csi(0, [P(1), P(2)], 0, 'r' as int)] + ([SetPiece(47)]
    + ([SetPiece(6)] + ([CupPiece(0, 2)] + [ResetPiece(47)])))

  /** A fresh terminal of three rows with a region of two and the cursor below it. */
  function Below(max: nat, alt: Screen): Term {
    var b := New(2, 3, max);
    b.(main := b.main.(cur := Cursor(0, 2, false), bot := 1), modes := INIT_MODES.(origin := true), alt := alt)
  }

  function Beside(max: nat, alt: Screen, origin: bool): Term {
    var b := New(2, 3, max);
    b.(main := b.main.(bot := 1), altActive := true, alt := alt, modes := INIT_MODES.(origin := origin))
  }

  predicate AltFresh(alt: Screen, y: int) {
    alt == Screen(BlankRows(3, 2, PLAIN), Cursor(0, y, false), NO_SAVED, 0, 2, [])
  }

  lemma RegionTyped(max: nat)
    ensures var b := New(2, 3, max);
      Do(b, Csi(0, [P(1), P(2)], 0, 'r' as int)) == b.(main := b.main.(bot := 1))
  {
    hide Do, RowsFit;
    DoRegion(New(2, 3, max), 0, 1);
  }

  lemma EnterTyped(d: T, max: nat)
    requires var b := New(2, 3, max); d == b.(main := b.main.(bot := 1))
    ensures var e := Do(d, SetPiece(47)); AltFresh(e.alt, 0) && e == Beside(max, e.alt, false)
  {
    hide Do, RowsFit, ClearRows;
    DoPrivate(d, 47, true);
    AltRoundTrip.ClearedRows(3, 2);
  }

  lemma OriginTyped(d: T, max: nat)
    requires AltFresh(d.alt, 0) && d == Beside(max, d.alt, false)
    ensures var e := Do(d, SetPiece(6)); AltFresh(e.alt, 0) && e == Beside(max, e.alt, true)
  {
    hide Do, RowsFit;
    DoPrivate(d, 6, true);
  }

  lemma LastTyped(d: T, max: nat)
    requires AltFresh(d.alt, 0) && d == Beside(max, d.alt, true)
    ensures var e := Do(d, CupPiece(0, 2)); AltFresh(e.alt, 2) && e == Beside(max, e.alt, true)
  {
    hide Do, RowsFit;
    Twins.DoCupPiece(d, 3, 1);
  }

  lemma LeaveTyped(d: T, max: nat)
    requires AltFresh(d.alt, 2) && d == Beside(max, d.alt, true)
    ensures var e := Do(d, ResetPiece(47)); e == Below(max, e.alt)
  {
    hide Do, RowsFit;
    DoPrivate(d, 47, false);
  }

  lemma BelowTyped(max: nat)
    ensures var t := Run(New(2, 3, max), BELOW_PIECES); t == Below(max, t.alt)
  {
    hide Do, Run, New, SetPiece, ResetPiece, CupPiece, Beside, Below, AltFresh;
    var b := New(2, 3, max);
    var p1, p2, p3, p4, p5 := Csi(0, [P(1), P(2)], 0, 'r' as int), SetPiece(47), SetPiece(6), CupPiece(0, 2), ResetPiece(47);
    var d1 := Do(b, p1);
    var d2 := Do(d1, p2);
    var d3 := Do(d2, p3);
    var d4 := Do(d3, p4);
    RegionTyped(max);
    EnterTyped(d1, max);
    OriginTyped(d2, max);
    LastTyped(d3, max);
    LeaveTyped(d4, max);
    RunCons(b, p1, [p2] + ([p3] + ([p4] + [p5])));
    RunCons(d1, p2, [p3] + ([p4] + [p5]));
    RunCons(d2, p3, [p4] + [p5]);
    RunCons(d3, p4, [p5]);
    Run1(d4, p5);
  }

  lemma BelowPiecesOk()
    ensures PiecesOk(BELOW_PIECES)
  {
    hide PieceOk, PiecesOk, SetPiece, ResetPiece, CupPiece;
    CsiOk([P(1), P(2)], 0, 0, 'r' as int);
    OkOne(Csi(0, [P(1), P(2)], 0, 'r' as int));
    SetOk(47);
    SetOk(6);
    OkOne(SetPiece(47));
    OkOne(SetPiece(6));
    OkOne(ResetPiece(47));
    CupOk(0, 2);
    OkOne(CupPiece(0, 2));
    OkConcat([CupPiece(0, 2)], [ResetPiece(47)]);
    OkConcat([SetPiece(6)], [CupPiece(0, 2)] + [ResetPiece(47)]);
    OkConcat([SetPiece(47)], [SetPiece(6)] + ([CupPiece(0, 2)] + [ResetPiece(47)]));
    OkConcat([Csi(0, [P(1), P(2)], 0, 'r' as int)], [SetPiece(47)] + ([SetPiece(6)] + ([CupPiece(0, 2)] + [ResetPiece(47)])));
  }

  lemma BelowPresents(t: T, max: nat)
    requires t == Below(max, t.alt)
    ensures Presentable(t) && !t.altActive && !Reaches(t)
    ensures t.modes.origin && t.main.cur == Cursor(0, 2, false) && t.main.bot == 1
  {
    hide RowsFit, CellsOk;
    NothingText();
    BlankRowOk(2);
  }

  /** A cursor that left the alternate screen below the main screen's region. */
  lemma CursorBelowRegion(max: nat)
    ensures var t := Output(2, 3, max, BELOW_PIECES);
      !t.altActive && t.modes.origin && t.main.cur == Cursor(0, 2, false) && t.main.bot == 1 && !Survives(t)
  {
    hide Output, New, Run, Presentable, Survives, Reaches;
    BelowPiecesOk();
    OutputIs(2, 3, max, BELOW_PIECES);
    BelowTyped(max);
    var t := Output(2, 3, max, BELOW_PIECES);
    BelowPresents(t, max);
    OutsideRegion(t);
  }
}
