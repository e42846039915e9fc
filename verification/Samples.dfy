/** Small terminals and what simple output leaves of them. */
module Samples {
  import opened Utf8
  import opened Cells
  import opened Width
  import opened Parser
  import opened Sequences
  import opened Terminal
  import opened Dispatch
  import opened Snapshots
  import opened Content
  import opened Paint
  import opened Typewriter
  import opened Receiving
  import opened Cursors
  import opened RoundTrip
  import opened Fidelity
  import opened Exactness

  /** A terminal after the pieces were written to a fresh one. */
  function Output(w: nat, h: nat, max: nat, ps: seq<Piece>): T
    requires w >= 2 && h >= 1
  {
    Write(NewEmulator(w, h, max), Bytes(ps)).t
  }

  lemma OutputIs(w: nat, h: nat, max: nat, ps: seq<Piece>)
    requires w >= 2 && h >= 1 && PiecesOk(ps)
    ensures Output(w, h, max, ps) == Run(New(w, h, max), ps)
  {
    hide ParseLoop, ApplyAll, Run, Bytes, Acts, New;
    PiecesRead(INIT, ps);
    RunIs(New(w, h, max), ps);
  }

  /** A fresh terminal reproduces t from its snapshot. */
  predicate Survives(t: T)
    requires !t.altActive
  {
    SameState(Write(NewEmulator(t.w, t.h, t.maxScrollback), Snapshot(t)).t, t)
  }

  lemma SurvivesExactly(t: T)
    requires Presentable(t)
    ensures !t.altActive
    ensures Survives(t) <==> Laid(t, t.maxScrollback) && NoBleed(t) && SavedPlain(t) && WrapDrawn(t) && Reaches(t)
  {
    hide Write, Snapshot, SameState, Presentable, Laid, NoBleed, SavedPlain, WrapDrawn, Reaches;
    SnapshotRoundTrip(t, t.maxScrollback);
  }

  // ---------------------------------------------------------------------------
  // Characters
  // ---------------------------------------------------------------------------

  const A: Rune := 'a' as int
  const B: Rune := 'b' as int
  const C: Rune := 'c' as int

  /** A character in the default rendition. */
  function Plainly(r: Rune): Cell { Cell([r], 1, PLAIN, []) }

  lemma PlainlyOk(r: Rune)
    requires 0x21 <= r < 0x7f
    ensures CellOk(Plainly(r)) && !IsBlank(Plainly(r)) && CellText(Plainly(r)) == [r] && PieceOk(Text([r]))
    ensures CellOk(BLANK) && IsBlank(BLANK)
  {
  }

  /** A character that takes two columns. */
  function Wide(r: Rune): Cell { Cell([r], 2, PLAIN, []) }

  lemma WideOk(r: Rune)
    requires RuneWidth(r) == 2
    ensures CellOk(Wide(r)) && CellOk(Half(Wide(r))) && PieceOk(Text([r])) && !IsBlank(Wide(r))
  {
  }

  lemma RowOne(r: Rune, rest: seq<Cell>)
    ensures RowPieces([Plainly(r)] + rest, DRY) == [Text([r])] + RowPieces(rest, DRY)
    ensures DipAll(DRY, [Plainly(r)] + rest) == DipAll(DRY, rest)
  {
    assert ([Plainly(r)] + rest)[1..] == rest;
  }

  lemma NoCells(brush: Brush)
    ensures RowPieces([], brush) == [] && DipAll(brush, []) == brush
  {
  }

  lemma VisibleAll(cells: seq<Cell>)
    requires cells != [] && !IsBlank(cells[|cells| - 1])
    ensures LastVisible(cells) == |cells|
  {
    LastVisibleIs(cells, |cells|);
  }

  lemma VisibleOne(c: Cell, rest: seq<Cell>)
    requires !IsBlank(c) && forall i :: 0 <= i < |rest| ==> IsBlank(rest[i])
    ensures LastVisible([c] + rest) == 1
  {
    LastVisibleIs([c] + rest, 1);
  }

  lemma BlankRowOk(w: nat)
    ensures CellsOk(BlankRow(w, PLAIN).cells) && Paired(BlankRow(w, PLAIN).cells) && |BlankRow(w, PLAIN).cells| == w
    ensures LastVisible(BlankRow(w, PLAIN).cells) == 0 && !BlankRow(w, PLAIN).wrapped
  {
    hide CellOk, IsBlank, LastVisible;
    PlainlyOk(A);
    LastVisibleIs(Blanks(w, PLAIN), 0);
  }

  // ---------------------------------------------------------------------------
  // Text on a fresh terminal
  // ---------------------------------------------------------------------------

  lemma FreshOn(w: nat, h: nat, max: nat)
    requires w >= 2 && h >= 1
    ensures var b, u := New(w, h, max), FreshTape(w, h, 0, 0); Takes(b, u) && On(b, u, DRY, 0) == b
    ensures !New(w, h, max).modes.lineFeedNewline && !New(w, h, max).altActive
  {
    hide Sound, ScreenOf, RowsFit, HistoryOf;
    FreshIs(w, h, 0, 0, max);
  }

  /** A fresh terminal with lines, cursor, brush and last rune of its own. */
  function Small(w: nat, h: nat, max: nat, rows: seq<Row>, sb: seq<Row>, cur: Cursor, brush: Brush, r: Rune): Term
    requires w >= 2 && h >= 1
  {
    Frame(New(w, h, max), rows, sb, cur, brush, r)
  }

  lemma SmallOn(u: Tape, max: nat, brush: Brush, r: Rune)
    requires Takes(New(u.w, u.h, max), u)
    ensures On(New(u.w, u.h, max), u, brush, r) == Small(u.w, u.h, max, ScreenOf(u), HistoryOf(u, max), CursorOf(u), brush, r)
  {
    hide Sound, ScreenOf, HistoryOf, RowsFit;
  }

  /** Cells typed on a fresh terminal. */
  lemma TextTyped(w: nat, h: nat, max: nat, cells: seq<Cell>) returns (r: Rune)
    requires w >= 2 && h >= 1 && CellsOk(cells)
    ensures var b, u := New(w, h, max), TypeAll(FreshTape(w, h, 0, 0), cells);
      Takes(b, u) && Run(b, RowPieces(cells, DRY)) == On(b, u, DipAll(DRY, cells), r)
  {
    hide Sound, On, Run, RowPieces, DipAll, TypeAll, New, CellsOk, Plain;
    FreshOn(w, h, max);
    r := OnRow(New(w, h, max), FreshTape(w, h, 0, 0), DRY, 0, cells);
  }

  /** Small terminals can be written when their lines can. */
  lemma SmallPresents(t: T, w: nat, h: nat, max: nat, rows: seq<Row>, sb: seq<Row>, cur: Cursor, r: Rune)
    requires 2 <= w <= MAX_VALUE && 1 <= h <= MAX_VALUE && t == Small(w, h, max, rows, sb, cur, DRY, r)
    requires AllCellsOk(rows) && AllCellsOk(sb)
    ensures Presentable(t) && !t.altActive && t.w == w && t.h == h && t.maxScrollback == max && AllLines(t) == sb + rows
    ensures t.main.rows == rows && t.main.scrollback == sb && t.main.cur == cur && t.main.saved == NO_SAVED
  {
    hide RowsFit, CellsOk;
    NothingText();
  }

  lemma NothingText()
    ensures LinkOk([]) && TextOk([], 2)
  {
  }

  // ---------------------------------------------------------------------------
  // Edits
  // ---------------------------------------------------------------------------

  lemma SmallCup(d: T, w: nat, h: nat, max: nat, rows: seq<Row>, sb: seq<Row>, cur: Cursor, r: Rune, x: nat, y: nat)
    requires w >= 2 && h >= 1 && d == Small(w, h, max, rows, sb, cur, DRY, r) && x < w && y < h
    ensures Do(d, CupPiece(x, y)) == Small(w, h, max, rows, sb, Cursor(x, y, false), DRY, r)
  {
    hide RowsFit, CupPiece, Do;
    DoCup(d, x, y);
  }

  lemma DoEdit(d: T, n: nat, f: byte)
    requires !IsMotion(f) && (f == 'M' as int || f == 'X' as int || f == 'K' as int)
    ensures Do(d, Csi(0, [P(n)], 0, f)) == ApplyEdit(d, [P(n)], f)
  {
    hide Apply, ScreenFits, ApplyMotion, ApplyEdit, ClearTabs, SetRegion, SaveCursor, RestoreCursor, Sgr, SetModes, IsMotion;
    Apply1(d, CsiDispatch(0, 0, [P(n)], f));
    ApplyPlain(d, [P(n)], f);
  }

  lemma EditDelete(d: T)
    ensures ApplyEdit(d, [P(1)], 'M' as int) == DeleteLines(d, 1)
  {
    hide DeleteLines, InsertCells, EraseInDisplay, EraseInLine, InsertLines, DeleteChars, Scroll, ScrollDown, EraseChars, Repeat, SetCur,
      ScreenFits;
    assert ParamAt([P(1)], 0, 1) == 1;
  }

  lemma EditErase(d: T)
    ensures ApplyEdit(d, [P(2)], 'K' as int) == EraseInLine(d, 2)
  {
    hide DeleteLines, InsertCells, EraseInDisplay, EraseInLine, InsertLines, DeleteChars, Scroll, ScrollDown, EraseChars, Repeat, SetCur,
      ScreenFits;
    assert RawParam([P(2)], 0, 0) == 2;
  }

  lemma EditEraseChars(d: T)
    ensures ApplyEdit(d, [P(1)], 'X' as int) == EraseChars(d, 1)
  {
    hide DeleteLines, InsertCells, EraseInDisplay, EraseInLine, InsertLines, DeleteChars, Scroll, ScrollDown, EraseChars, Repeat, SetCur,
      ScreenFits;
    assert ParamAt([P(1)], 0, 1) == 1;
  }

  lemma EditOk(n: nat, f: byte)
    requires n <= MAX_VALUE && (f == 'M' as int || f == 'X' as int || f == 'K' as int)
    ensures PieceOk(Csi(0, [P(n)], 0, f))
  {
    CsiOk([P(n)], 0, 0, f);
  }

  /** The first of two rows is deleted. */
  lemma SmallDelete(d: T, w: nat, max: nat, top: Row, below: Row, r: Rune)
    requires w >= 2 && d == Small(w, 2, max, [top, below], [], Cursor(0, 0, false), DRY, r) && |top.cells| == |below.cells| == w
    ensures Do(d, Csi(0, [P(1)], 0, 'M' as int)) == Small(w, 2, max, [below, BlankRow(w, PLAIN)], [], Cursor(0, 0, false), DRY, r)
  {
    hide Do, ApplyEdit, CloseRows;
    DoEdit(d, 1, 'M' as int);
    EditDelete(d);
    CloseTwo(top, below, w);
  }

  lemma CloseTwo(top: Row, below: Row, w: nat)
    requires |top.cells| == |below.cells| == w
    ensures RowsFit([top, below], w) && CloseRows([top, below], 0, 1, 1, w, PLAIN) == [below, BlankRow(w, PLAIN)]
  {
    hide BlankRow;
  }

  /** A line feed on the last row. */
  lemma SmallFeed(d: T, w: nat, h: nat, max: nat, rows: seq<Row>, sb: seq<Row>, r: Rune)
    requires w >= 2 && h >= 1 && d == Small(w, h, max, rows, sb, Cursor(0, h - 1, false), DRY, r) && |rows| == h && RowsFit(rows, w)
    ensures Do(d, Control(0x0a))
      == Small(w, h, max, ScrollRows(rows, 0, h - 1, 1, w, PLAIN), Push(sb, rows[0], max), Cursor(0, h - 1, false), DRY, r)
  {
    hide Do, LineFeed, RowsFit, ScrollRows, Push, Plain;
    DoControl(d, 0x0a);
    FeedModes(d);
    FreshOn(w, h, max);
    assert SetCur(d, 0, h - 1, false) == d;
    FedBottom(d, New(w, h, max), rows, sb, Cursor(0, h - 1, false), DRY, r);
  }
}
