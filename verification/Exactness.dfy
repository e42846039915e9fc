/** When a snapshot's lines come back as they were: exactly when each continuation is
    one that typing them again makes, and no line bleeds. */
module Exactness {
  import opened Utf8
  import opened Cells
  import opened Sequences
  import opened Terminal
  import opened Dispatch
  import opened Snapshots
  import opened Content
  import opened Typewriter
  import opened Receiving
  import opened Alignment
  import opened Tallies
  import opened Bleeding
  import opened RoundTrip
  import opened Fidelity

  // ---------------------------------------------------------------------------
  // The cell under a pending wrap
  // ---------------------------------------------------------------------------

  lemma PlacedLast(cells: seq<Cell>, ch: seq<Rune>, pen: Style, link: seq<byte>)
    requires |cells| >= 2
    ensures var w := |cells|; var r := PlaceInLine(cells, w - 1, ch, 1, pen, link);
      && r[w - 1] == Cell(ch, 1, pen, link)
      && (forall x :: 0 <= x < w - 2 ==> r[x] == cells[x])
      && (cells[w - 1].width != 0 ==> r[w - 2] == cells[w - 2])
    ensures Paired(cells) ==> Paired(PlaceInLine(cells, |cells| - 1, ch, 1, pen, link))
  {
  }

  /** Column x of row y is not touched when the cell under the wrap is written again. */
  predicate Apart(t: T, rows: seq<Row>, y: int, x: int)
    requires !t.altActive && |rows| == t.h && RowsFit(rows, t.w) && 0 <= y < t.h && 0 <= x < t.w
  {
    Redrawn(t) && y == t.main.cur.y ==> x < t.w - 2 || (x == t.w - 2 && rows[y].cells[t.w - 1].width != 0)
  }

  /** What rows that come back as t's were drawn like. */
  lemma BackParts(t: T, rows: seq<Row>, y: nat, x: nat)
    requires !t.altActive && |rows| == t.h && RowsFit(rows, t.w) && Back(t, rows) == t.main.rows && y < t.h && x < t.w
    ensures |t.main.rows| == t.h && |t.main.rows[y].cells| == t.w && rows[y].wrapped == t.main.rows[y].wrapped
    ensures Apart(t, rows, y, x) ==> rows[y].cells[x] == t.main.rows[y].cells[x]
    ensures !(Redrawn(t) && y == t.main.cur.y) ==> rows[y] == t.main.rows[y]
    ensures Redrawn(t) ==> Line(t)[t.w - 1].link == [] && Line(t)[t.w - 1].ch != []
  {
    hide PlaceInLine;
    if Redrawn(t) {
      var c := Line(t)[t.w - 1];
      PlacedLast(rows[t.main.cur.y].cells, c.ch, c.style, []);
    }
  }

  lemma BackSelf(t: T)
    requires !t.altActive
    ensures |t.main.rows| == t.h && RowsFit(t.main.rows, t.w)
    ensures (Redrawn(t) ==> Line(t)[t.w - 1].link == []) ==> Back(t, t.main.rows) == t.main.rows
  {
    if Redrawn(t) {
      var c := Line(t)[t.w - 1];
      var cells := Line(t);
      assert cells[t.w - 1 := c] == cells;
      assert c.link == [] ==> PlaceInLine(cells, t.w - 1, c.ch, 1, c.style, []) == cells;
    }
  }

  lemma BackPaired(t: T, rows: seq<Row>)
    requires !t.altActive && |rows| == t.h && RowsFit(rows, t.w) && AllPaired(rows)
    ensures AllPaired(Back(t, rows))
  {
    hide Paired, PlaceInLine;
    if Redrawn(t) {
      var c := Line(t)[t.w - 1];
      PlacedLast(rows[t.main.cur.y].cells, c.ch, c.style, []);
    }
  }

  // ---------------------------------------------------------------------------
  // The scrollback
  // ---------------------------------------------------------------------------

  /** Archived lines: no more than the limit, no wider than the screen, trimmed. */
  predicate Archived(sb: seq<Row>, w: int, max: nat) {
    |sb| <= max && forall k :: 0 <= k < |sb| ==> |sb[k].cells| <= w && LastVisible(sb[k].cells) == |sb[k].cells|
  }

  lemma TrimmedArchived(r: Row)
    ensures var s := Trimmed(r);
      LastVisible(s.cells) == |s.cells| <= |r.cells| && s.wrapped == r.wrapped && (Paired(r.cells) ==> Paired(s.cells))
  {
    var n := LastVisible(r.cells);
    LastVisibleIs(Trimmed(r).cells, |Trimmed(r).cells|);
    if Paired(r.cells) && 0 < n < |r.cells| {
      assert IsBlank(r.cells[n]);
    }
  }

  lemma PushArchived(sb: seq<Row>, r: Row, w: int, max: nat)
    requires Archived(sb, w, max) && |r.cells| <= w
    ensures Archived(Push(sb, r, max), w, max)
    ensures AllPaired(sb) && Paired(r.cells) ==> AllPaired(Push(sb, r, max))
    ensures (forall k :: 0 <= k < |sb| ==> !sb[k].wrapped) && !r.wrapped ==> forall k :: 0 <= k < |Push(sb, r, max)| ==> !Push(sb, r, max)[k].wrapped
    ensures |sb| < max ==> Push(sb, r, max) == sb + [Trimmed(r)]
  {
    hide LastVisible, Trimmed, Paired;
    TrimmedArchived(r);
  }

  lemma {:induction false} PushAllArchived(rs: seq<Row>, w: int, max: nat)
    requires RowsFit(rs, w) && AllPaired(rs)
    ensures var sb := PushAll([], rs, max); Archived(sb, w, max) && AllPaired(sb)
    decreases |rs|
  {
    hide Archived, Push, Paired;
    if rs == [] {
      NothingArchived(w, max);
    } else {
      var n := |rs| - 1;
      assert rs[..n] + [rs[n]] == rs;
      PushAllArchived(rs[..n], w, max);
      PushSnoc([], rs[..n], rs[n], max);
      PushArchived(PushAll([], rs[..n], max), rs[n], w, max);
    }
  }

  lemma NothingArchived(w: int, max: nat)
    ensures Archived([], w, max) && AllPaired([])
  {
  }

  lemma {:induction false} PushAllUnmarked(rs: seq<Row>, w: int, max: nat)
    requires RowsFit(rs, w) && AllPaired(rs) && forall k :: 0 <= k < |rs| ==> !rs[k].wrapped
    ensures var sb := PushAll([], rs, max); forall k :: 0 <= k < |sb| ==> !sb[k].wrapped
    decreases |rs|
  {
    hide Archived, Push, Paired;
    if rs != [] {
      var n := |rs| - 1;
      assert rs[..n] + [rs[n]] == rs;
      PushAllUnmarked(rs[..n], w, max);
      PushAllArchived(rs[..n], w, max);
      PushSnoc([], rs[..n], rs[n], max);
      PushArchived(PushAll([], rs[..n], max), rs[n], w, max);
    }
  }

  /** Below the limit nothing is dropped. */
  lemma {:induction false} PushAllFew(rs: seq<Row>, w: int, max: nat)
    requires RowsFit(rs, w) && AllPaired(rs) && |rs| <= max
    ensures PushAll([], rs, max) == Trims(rs)
    decreases |rs|
  {
    hide Archived, Push, Paired, Trimmed;
    if rs == [] {
      assert Trims(rs) == [];
    } else {
      var n := |rs| - 1;
      assert rs[..n] + [rs[n]] == rs;
      PushAllFew(rs[..n], w, max);
      PushAllArchived(rs[..n], w, max);
      PushSnoc([], rs[..n], rs[n], max);
      PushArchived(PushAll([], rs[..n], max), rs[n], w, max);
      assert Trims(rs) == Trims(rs[..n]) + [Trimmed(rs[n])];
    }
  }

  lemma TapeRows(u: Tape)
    ensures RowsFit(u.lines, u.w) && AllPaired(u.lines) && RowsFit(u.lines[..Off(u)], u.w) && AllPaired(u.lines[..Off(u)])
    ensures u.h > 1 ==> forall k :: 0 <= k < Off(u) ==> !u.lines[k].wrapped
    ensures u.h > 1 ==> !u.lines[Off(u)].wrapped
  {
    hide Paired;
  }

  /** What the scrollback of the receiver holds. */
  lemma HistoryIs(u: Tape, max: nat)
    ensures var sb := HistoryOf(u, max);
      && Archived(sb, u.w, max) && AllPaired(sb)
      && (u.h > 1 ==> forall k :: 0 <= k < |sb| ==> !sb[k].wrapped)
      && (Off(u) <= max ==> sb == Trims(u.lines[..Off(u)]))
  {
    hide Sound, Archived, PushAll, Paired, RowsFit, AllPaired;
    TapeRows(u);
    var rs := u.lines[..Off(u)];
    PushAllArchived(rs, u.w, max);
    if Off(u) <= max {
      PushAllFew(rs, u.w, max);
    }
    if u.h > 1 {
      PushAllUnmarked(rs, u.w, max);
    }
  }

  lemma ScreenPaired(u: Tape)
    ensures AllPaired(ScreenOf(u))
    ensures u.h > 1 ==> !ScreenOf(u)[0].wrapped
  {
    hide Sound, Paired, ScreenOf;
    TapeRows(u);
    TapeShape(u);
    BlanksPaired(u.w, PLAIN);
  }

  // ---------------------------------------------------------------------------
  // Lines that are chained
  // ---------------------------------------------------------------------------

  /** Wide characters are whole, stored lines are such as scroll off, and a line that
      is marked as a continuation is one: it writes something, behind a line that is
      filled; and it is below the first row, unless there is only one. */
  predicate Laid(t: T, max: nat) {
    var lines, n := AllLines(t), |t.main.scrollback|;
    && Archived(t.main.scrollback, t.w, max) && AllPaired(t.main.scrollback) && AllPaired(t.main.rows)
    && Chained(lines, 0, t.w)
    && (t.h > 1 ==> forall k :: 0 <= k < |lines| && lines[k].wrapped ==> k > n)
  }

  /** No line is written on a background that it leaves showing. */
  predicate NoBleed(t: T) {
    var lines := AllLines(t);
    forall k :: 0 <= k < |lines| ==> !Bleeds(t.h, lines, k, 0, t.w)
  }

  lemma LineAt(t: T, k: nat)
    requires k < |AllLines(t)|
    ensures var n := |t.main.scrollback|;
      && |AllLines(t)| == n + t.h && t.h >= 1 && t.w >= 2 && |t.main.rows| == t.h && RowsFit(t.main.rows, t.w)
      && (k < n ==> AllLines(t)[k] == t.main.scrollback[k])
      && (k >= n ==> AllLines(t)[k] == t.main.rows[k - n] && |AllLines(t)[k].cells| == t.w)
  {
  }

  lemma AllTypeable(t: T)
    requires AllCellsOk(AllLines(t)) && AllPaired(t.main.rows) && AllPaired(t.main.scrollback)
    requires forall k :: 0 <= k < |t.main.scrollback| ==> |t.main.scrollback[k].cells| <= t.w
    ensures Typeable(AllLines(t), t.w) && |AllLines(t)| > 0
  {
    hide Paired, CellOk, CellsOk, ScreenFits;
    var lines := AllLines(t);
    forall k | 0 <= k < |lines| ensures LineOk(lines[k].cells) && |lines[k].cells| <= t.w {
      LineAt(t, k);
    }
    TermRows(t);
  }

  lemma TermRows(t: T)
    ensures |t.main.rows| == t.h >= 1 && RowsFit(t.main.rows, t.w) && t.w >= 2 && 0 <= t.main.cur.y < t.h && 0 <= t.main.cur.x < t.w
    ensures !t.altActive ==> Line(t) == t.main.rows[t.main.cur.y].cells
  {
  }

  lemma LaidParts(t: T, max: nat)
    requires Laid(t, max) && AllCellsOk(AllLines(t))
    ensures Typeable(AllLines(t), t.w) && |AllLines(t)| > 0 && |t.main.scrollback| <= max && !AllLines(t)[0].wrapped
    ensures forall k :: 0 <= k < |AllLines(t)| && AllLines(t)[k].wrapped ==> Continues(AllLines(t), k, t.w)
    ensures forall k :: 0 <= k < |t.main.scrollback| ==> LastVisible(t.main.scrollback[k].cells) == |t.main.scrollback[k].cells|
  {
    hide Paired, AllCellsOk, Continues, LastVisible, ScreenFits;
    AllTypeable(t);
  }

  /** The fresh tape expects the first line. */
  lemma StartReached(w: nat, h: nat, lines: seq<Row>, a: nat, n: nat)
    requires w >= 2 && h >= 1 && Typeable(lines, w) && a < |lines| && !lines[a].wrapped && n < h
    ensures Reached(FreshTape(w, h, n, 0), lines, a, n, a)
  {
    hide PenAt, Typeable, Inky;
  }

  /** Where each line ends up when the lines are chained. */
  lemma LaidLine(t: T, max: nat, k: nat)
    requires Laid(t, max) && AllCellsOk(AllLines(t)) && k < |AllLines(t)|
    ensures var u, lines := Retyped(t), AllLines(t);
      && |u.lines| == |lines| && |Emitted(lines, k)| <= t.w
      && u.lines[k] == Row(Sheet(t.h, lines, k, k, t.w), lines[k].wrapped)
  {
    hide Typeable, Sheet, Emitted, Continues, AllCellsOk, TapeAt, Reached, ScreenFits, Sound;
    var lines := AllLines(t);
    LaidParts(t, max);
    LineAt(t, k);
    StartReached(t.w, t.h, lines, 0, 0);
    FirstTape(t.w, t.h, lines);
    AlignedLine(FreshTape(t.w, t.h, 0, 0), lines, 0, 0, k);
    MarkLow(t, max, k);
  }

  lemma MarkLow(t: T, max: nat, k: nat)
    requires Laid(t, max) && k < |AllLines(t)|
    ensures t.h > 1 && AllLines(t)[k].wrapped ==> k > |t.main.scrollback|
  {
    hide Archived, AllPaired, Chained;
  }

  lemma FirstTape(w: nat, h: nat, lines: seq<Row>)
    requires w >= 2 && h >= 1 && AllCellsOk(lines)
    ensures TapeAt(FreshTape(w, h, 0, 0), lines, 0) == FreshTape(w, h, 0, 0)
  {
    hide Sound, AllCellsOk;
  }

  /** Each line comes back as it was exactly when it does not bleed. */
  lemma LineBack(t: T, max: nat, k: nat)
    requires Laid(t, max) && AllCellsOk(AllLines(t)) && k < |AllLines(t)|
    ensures var u, n := Retyped(t), |t.main.scrollback|; var sb := HistoryOf(u, max);
      && |sb| == n && |ScreenOf(u)| == |t.main.rows| == t.h
      && (k < n ==> (sb[k] == t.main.scrollback[k] <==> !Bleeds(t.h, AllLines(t), k, 0, t.w)))
      && (n <= k < n + t.h ==> (ScreenOf(u)[k - n] == t.main.rows[k - n] <==> !Bleeds(t.h, AllLines(t), k, 0, t.w)))
  {
    hide Typeable, Sheet, Emitted, Continues, AllCellsOk, Retyped, Laid, Bleeds, ScreenFits, Sound, HistoryOf, ScreenOf, LastVisible;
    var u, n, lines := Retyped(t), |t.main.scrollback|, AllLines(t);
    LaidParts(t, max);
    LineAt(t, k);
    LaidLine(t, max, k);
    HistoryIs(u, max);
    assert Off(u) == n;
    if k < n {
      StoredSame(t.h, lines, k, 0, t.w);
    } else {
      RowSame(t.h, lines, k, 0, t.w);
      assert ScreenOf(u)[k - n] == u.lines[k];
    }
  }

  lemma FullEmits(lines: seq<Row>, k: nat)
    requires k < |lines| && lines[k].cells != [] && !IsBlank(lines[k].cells[|lines[k].cells| - 1])
    ensures |Emitted(lines, k)| == |lines[k].cells|
  {
    hide IsBlank, LastVisible;
    LastVisibleIs(lines[k].cells, |lines[k].cells|);
  }

  lemma ShownCell(cells: seq<Cell>, x: nat)
    requires CellsOk(cells) && x < |cells| && cells[x].width == 1 && cells[x].ch != []
    ensures !IsBlank(cells[x])
  {
    assert CellOk(cells[x]);
  }

  /** A row whose last cell is written again reaches the edge. */
  lemma RedrawnFull(t: T, y: nat)
    requires !t.altActive && Redrawn(t) && y == t.main.cur.y && AllCellsOk(AllLines(t))
    ensures var k := |t.main.scrollback| + y; k < |AllLines(t)| && |Emitted(AllLines(t), k)| == t.w
  {
    hide IsBlank, Emitted, ScreenFits, CellsOk;
    TermRows(t);
    var k := |t.main.scrollback| + y;
    LineAt(t, k);
    ShownCell(AllLines(t)[k].cells, t.w - 1);
    FullEmits(AllLines(t), k);
  }

  lemma FullKeeps(h: int, lines: seq<Row>, k: nat, b: nat, w: int)
    requires k < |lines| && |Emitted(lines, k)| == w
    ensures !Bleeds(h, lines, k, b, w)
  {
    hide Emitted, PenAt;
  }

  /** Chained lines come back exactly when none bleeds and the cell that is written
      again has no link. */
  lemma LaidSame(t: T, max: nat)
    requires !t.altActive && Laid(t, max) && AllCellsOk(AllLines(t))
    ensures LinesSame(t, max) <==> NoBleed(t) && (Redrawn(t) ==> Line(t)[t.w - 1].link == [])
  {
    hide Emitted, AllCellsOk, Retyped, Laid, Bleeds, ScreenFits, Sound, HistoryOf, ScreenOf, Back, Redrawn, Line;
    var u, n, lines, rows := Retyped(t), |t.main.scrollback|, AllLines(t), t.main.rows;
    TermRows(t);
    BackSelf(t);
    forall k | 0 <= k < |lines|
      ensures |HistoryOf(u, max)| == n && |ScreenOf(u)| == t.h
      ensures k < n ==> (HistoryOf(u, max)[k] == t.main.scrollback[k] <==> !Bleeds(t.h, lines, k, 0, t.w))
      ensures n <= k < n + t.h ==> (ScreenOf(u)[k - n] == rows[k - n] <==> !Bleeds(t.h, lines, k, 0, t.w))
    {
      LineBack(t, max, k);
    }
    LineBack(t, max, 0);
    if NoBleed(t) {
      forall k | 0 <= k < n ensures HistoryOf(u, max)[k] == t.main.scrollback[k] {
        assert !Bleeds(t.h, lines, k, 0, t.w);
      }
      forall y | 0 <= y < t.h ensures ScreenOf(u)[y] == rows[y] {
        assert !Bleeds(t.h, lines, n + y, 0, t.w);
      }
      assert HistoryOf(u, max) == t.main.scrollback;
      assert ScreenOf(u) == rows;
    }
    if LinesSame(t, max) {
      forall k | 0 <= k < |lines| ensures !Bleeds(t.h, lines, k, 0, t.w) {
        if k >= n {
          SameRow(t, max, k);
        }
      }
      BackParts(t, ScreenOf(u), 0, 0);
      if Redrawn(t) {
        assert Line(t)[t.w - 1].link == [];
      }
    }
    if NoBleed(t) && (Redrawn(t) ==> Line(t)[t.w - 1].link == []) {
      assert LinesSame(t, max);
    }
  }

  lemma SameRow(t: T, max: nat, k: nat)
    requires !t.altActive && Laid(t, max) && AllCellsOk(AllLines(t)) && LinesSame(t, max)
    requires |t.main.scrollback| <= k < |AllLines(t)|
    ensures !Bleeds(t.h, AllLines(t), k, 0, t.w)
  {
    hide Emitted, AllCellsOk, Retyped, Bleeds, ScreenFits, Sound, HistoryOf, ScreenOf, Back, Redrawn, Line, Archived, Chained;
    var y := k - |t.main.scrollback|;
    LineAt(t, k);
    LineBack(t, max, k);
    if Redrawn(t) && y == t.main.cur.y {
      RedrawnFull(t, y);
      FullKeeps(t.h, AllLines(t), k, 0, t.w);
    } else {
      BackParts(t, ScreenOf(Retyped(t)), y, 0);
    }
  }

  // ---------------------------------------------------------------------------
  // Lines that come back are chained
  // ---------------------------------------------------------------------------

  /** Only whole characters and lines such as scroll off come back. */
  lemma SameWhole(t: T, max: nat)
    requires !t.altActive && AllCellsOk(AllLines(t)) && LinesSame(t, max)
    ensures Archived(t.main.scrollback, t.w, max) && AllPaired(t.main.scrollback) && AllPaired(t.main.rows)
    ensures t.h > 1 ==> forall k :: 0 <= k < |AllLines(t)| && AllLines(t)[k].wrapped ==> k > |t.main.scrollback|
  {
    hide Retyped, ScreenFits, Sound, ScreenOf, Back, Paired, AllCellsOk, Archived, HistoryOf;
    var u := Retyped(t);
    TermRows(t);
    HistoryIs(u, max);
    ScreenPaired(u);
    BackPaired(t, ScreenOf(u));
    BackParts(t, ScreenOf(u), 0, 0);
    if t.h > 1 {
      forall k | 0 <= k < |AllLines(t)| && AllLines(t)[k].wrapped ensures k > |t.main.scrollback| {
        LineAt(t, k);
      }
    }
  }

  lemma BackMarks(t: T, rows: seq<Row>)
    requires !t.altActive && |rows| == t.h && RowsFit(rows, t.w) && Back(t, rows) == t.main.rows
    ensures Marks(t.main.rows) == Marks(rows)
  {
    hide Back, ScreenFits, RowsFit, Redrawn;
    TermRows(t);
    forall y | 0 <= y < t.h ensures rows[y].wrapped == t.main.rows[y].wrapped {
      BackParts(t, rows, y, 0);
    }
    MarksFewer(rows, t.main.rows);
    MarksFewer(t.main.rows, rows);
  }

  /** A row that the next one continues writes all its cells. */
  lemma RowsEdged(rows: seq<Row>, a: nat, w: int)
    requires forall k :: a <= k < |rows| ==> |rows[k].cells| == w
    requires forall k :: 0 <= k < |rows| && rows[k].wrapped ==> k > a
    ensures Edged(rows, 0, w)
  {
  }

  lemma MarksTyped(start: Tape, lines: seq<Row>)
    requires Typeable(lines, start.w) && AllCellsOk(lines) && Edged(lines, 0, start.w) && start.col == 0 && |lines| > 0
    ensures Marks(TapeAt(start, lines, |lines|).lines) <= Marks(start.lines) + Wraps(lines, 0, |lines|)
  {
    hide Typeable, AllCellsOk, Edged, Sound, Wraps, Marks, Typed;
    FlushAt(start, lines, 0, |lines|);
  }

  /** On more than one row, the marks that come back are those of lines that write
      something, so every marked line does. */
  lemma TallChained(t: T, max: nat)
    requires !t.altActive && AllCellsOk(AllLines(t)) && LinesSame(t, max) && t.h > 1 && Typeable(AllLines(t), t.w)
    requires forall k :: 0 <= k < |AllLines(t)| && AllLines(t)[k].wrapped ==> k > |t.main.scrollback|
    ensures Chained(AllLines(t), 0, t.w)
  {
    hide Typeable, AllCellsOk, Edged, Sound, Wraps, Marks, MarkedIn, ScreenOf, HistoryOf, Back, ScreenFits, Emitted, TapeAt;
    var lines, n, u := AllLines(t), |t.main.scrollback|, Retyped(t);
    var start := FreshTape(t.w, t.h, 0, 0);
    LineAt(t, 0);
    forall k | n <= k < |lines| ensures |lines[k].cells| == t.w {
      LineAt(t, k);
    }
    RowsEdged(lines, n, t.w);
    FreshMarks(t.w, t.h, 0, 0);
    MarksTyped(start, lines);
    ScreenMarks(u);
    BackMarks(t, ScreenOf(u));
    MarkedMarks(lines, 0, |lines|);
    assert lines[0..|lines|] == t.main.scrollback + t.main.rows;
    MarksAppend(t.main.scrollback, t.main.rows);
    forall k | 0 <= k < n ensures !t.main.scrollback[k].wrapped {
      LineAt(t, k);
    }
    Unmarked(t.main.scrollback);
    WrapsAll(lines, 0, |lines|);
    EdgedChained(lines, t.w);
  }

  lemma EdgedChained(lines: seq<Row>, w: int)
    requires Edged(lines, 0, w)
    requires forall j :: 0 <= j < |lines| && lines[j].wrapped ==> j > 0 && Emitted(lines, j) != []
    ensures Chained(lines, 0, w)
  {
    hide Emitted;
  }

  // ---------------------------------------------------------------------------
  // A single row
  // ---------------------------------------------------------------------------

  /** With a single row every line is written up to its last visible cell. */
  lemma OneEmits(t: T, k: nat)
    requires t.h == 1 && k < |AllLines(t)|
    requires forall j :: 0 <= j < |t.main.scrollback| ==> LastVisible(t.main.scrollback[j].cells) == |t.main.scrollback[j].cells|
    ensures var cells, e := AllLines(t)[k].cells, Emitted(AllLines(t), k);
      && e == cells[..|e|] && |e| <= |cells| && (e != [] ==> !IsBlank(e[|e| - 1]))
      && (k < |t.main.scrollback| ==> e == cells)
  {
    hide IsBlank, ScreenFits, LastVisible;
    LineAt(t, k);
    var cells := AllLines(t)[k].cells;
    var n := LastVisible(cells);
    assert cells[..|cells|] == cells;
    if k < |t.main.scrollback| {
      assert n == |cells|;
    }
    if n > 0 {
      assert !IsBlank(cells[n - 1]);
    }
  }

  /** No more lines than there were, so none fewer: each is stored as it scrolled off. */
  lemma OneTape(t: T, max: nat)
    requires !t.altActive && t.h == 1 && AllCellsOk(AllLines(t)) && LinesSame(t, max) && Typeable(AllLines(t), t.w)
    requires |t.main.scrollback| <= max
    ensures var u, sb := Retyped(t), t.main.scrollback;
      && |u.lines| == |sb| + 1 == |AllLines(t)| && (forall k :: 0 <= k < |sb| ==> sb[k] == Trimmed(u.lines[k]))
      && ScreenOf(u)[0] == u.lines[|sb|] && !AllLines(t)[0].wrapped
  {
    hide Sound, Typeable, AllCellsOk, TapeAt, ScreenFits, Back, HistoryOf, Archived, AllPaired, Trimmed, RowsFit;
    var u, sb, lines := Retyped(t), t.main.scrollback, AllLines(t);
    var start := FreshTape(t.w, 1, 0, 0);
    LineAt(t, 0);
    FirstTape(t.w, 1, lines);
    FreshMarks(t.w, 1, 0, 0);
    ShortAt(start, lines, 0, |lines|, 0);
    HistoryIs(u, max);
    TapeShape(u);
    BackParts(t, ScreenOf(u), 0, 0);
    TrimmedMark(u.lines[0]);
  }

  lemma TrimmedMark(r: Row)
    ensures Trimmed(r).wrapped == r.wrapped
  {
  }

  lemma {:induction false} FirstVisible(cells: seq<Cell>, n: nat) returns (f: nat)
    requires n < |cells| && !IsBlank(cells[n])
    ensures f <= n && !IsBlank(cells[f]) && forall i :: 0 <= i < f ==> IsBlank(cells[i])
    decreases n
  {
    hide IsBlank;
    if i :| 0 <= i < n && !IsBlank(cells[i]) {
      f := FirstVisible(cells, i);
    } else {
      f := n;
    }
  }

  lemma TrimmedKeeps(r: Row, x: nat)
    requires x < |r.cells| && !IsBlank(r.cells[x])
    ensures x < |Trimmed(r).cells| && Trimmed(r).cells[x] == r.cells[x]
  {
    hide IsBlank, LastVisible;
  }

  lemma TrimmedDrops(r: Row, x: nat)
    requires |Trimmed(r).cells| <= x < |r.cells|
    ensures IsBlank(r.cells[x])
  {
    hide IsBlank;
  }

  /** Of the last line, what is not written again is as it was drawn. */
  lemma OneRow(t: T, rows: seq<Row>, x: nat, width: nat)
    requires !t.altActive && t.h == 1 && |rows| == 1 && RowsFit(rows, t.w) && Back(t, rows) == t.main.rows && Paired(rows[0].cells)
    requires x + width <= t.w - 1 && 1 <= width && rows[0].cells[x].width == width
    ensures |t.main.rows| == 1 && |t.main.rows[0].cells| == t.w && rows[0].cells[x] == t.main.rows[0].cells[x]
  {
    hide Back, ScreenFits;
    if rows[0].cells[t.w - 1].width == 0 {
      assert rows[0].cells[t.w - 2].width == 2;
    }
    BackParts(t, rows, 0, x);
  }

  /** The first cell of a line that shows anything cannot have moved. */
  lemma OneUnmoved(t: T, max: nat, k: nat, n: nat)
    requires !t.altActive && t.h == 1 && AllCellsOk(AllLines(t)) && LinesSame(t, max) && Typeable(AllLines(t), t.w)
    requires |t.main.scrollback| <= max && k < |AllLines(t)|
    requires forall j :: 0 <= j < |t.main.scrollback| ==> LastVisible(t.main.scrollback[j].cells) == |t.main.scrollback[j].cells|
    requires var e := Emitted(AllLines(t), k);
      && n < |e| <= t.w && (forall i :: 0 <= i < n ==> IsBlank(e[i]))
      && k < |Retyped(t).lines| && |Retyped(t).lines[k].cells| == t.w
      && forall x :: 0 <= x < |e| - n ==> Retyped(t).lines[k].cells[x] == e[n + x]
    ensures n == 0
  {
    hide *;
    EmittedIs(AllLines(t), k, t.w);
    OneEmits(t, k);
    if n > 0 {
      var e := Emitted(AllLines(t), k);
      var f := FirstVisible(e, |e| - 1);
      CellAt(e, f);
      assert Retyped(t).lines[k].cells[f - n] == e[n + (f - n)];
      OneShown(t, max, k, f - n, e[f]);
    }
  }

  /** A cell that shows on line k is on that line. */
  lemma OneShown(t: T, max: nat, k: nat, x: nat, c: Cell)
    requires !t.altActive && t.h == 1 && AllCellsOk(AllLines(t)) && LinesSame(t, max) && Typeable(AllLines(t), t.w)
    requires |t.main.scrollback| <= max && k < |AllLines(t)| && k < |Retyped(t).lines|
    requires |Retyped(t).lines[k].cells| == t.w && 1 <= c.width && x + c.width < t.w && Retyped(t).lines[k].cells[x] == c && !IsBlank(c)
    ensures x < |AllLines(t)[k].cells| && AllLines(t)[k].cells[x] == c
  {
    hide Sound, Typeable, AllCellsOk, TapeAt, ScreenFits, Back, HistoryOf, Archived, IsBlank, Retyped, Trimmed, ScreenOf, RowsFit, Paired;
    var u, sb := Retyped(t), t.main.scrollback;
    OneTape(t, max);
    LineAt(t, k);
    if k < |sb| {
      TrimmedKeeps(u.lines[k], x);
    } else {
      ScreenPaired(u);
      OneRow(t, ScreenOf(u), x, c.width);
    }
  }

  lemma WideShows(c: Cell)
    requires CellOk(c) && c.width == 2
    ensures !IsBlank(c)
  {
  }

  lemma CellAt(cells: seq<Cell>, f: nat)
    requires LineOk(cells) && f < |cells| && forall i :: 0 <= i < f ==> IsBlank(cells[i])
    ensures 1 <= cells[f].width <= 2 && f + cells[f].width <= |cells|
  {
    hide IsBlank;
    assert CellOk(cells[f]);
    if cells[f].width == 0 {
      WideShows(cells[f - 1]);
    }
  }

  /** A mark that comes back is that of a wrap: line k did not fit behind line k - 1. */
  lemma OneWraps(t: T, max: nat, k: nat)
    requires !t.altActive && t.h == 1 && AllCellsOk(AllLines(t)) && LinesSame(t, max) && Typeable(AllLines(t), t.w)
    requires |t.main.scrollback| <= max && 0 < k < |AllLines(t)| && AllLines(t)[k].wrapped
    requires Reached(TapeAt(FreshTape(t.w, 1, 0, 0), AllLines(t), k), AllLines(t), 0, 0, k)
    ensures LineOk(Emitted(AllLines(t), k)) && |Emitted(AllLines(t), k)| <= t.w
    ensures |Emitted(AllLines(t), k - 1)| + |Emitted(AllLines(t), k)| > t.w
  {
    hide Sound, Typeable, AllCellsOk, TapeAt, ScreenFits, Back, HistoryOf, Archived, ScreenOf, Emitted, Typed, LineOk, TypeAll, MarksKept, Inky;
    var lines, start := AllLines(t), FreshTape(t.w, 1, 0, 0);
    var v, e := TapeAt(start, lines, k), Emitted(lines, k);
    TapeNext(start, lines, k);
    EmittedIs(lines, k, t.w);
    RowGrows(v, e);
    if |v.lines| == |TypeAll(v, e).lines| {
      ShortStep(v, lines, k, 0);
      ShortAt(start, lines, k + 1, |lines|, 1);
      OneTape(t, max);
      assert false;
    }
  }

  /** What line k leaves on line k - 1 is blank, and it begins line k. */
  lemma OneCut(t: T, max: nat, k: nat, x: nat)
    requires !t.altActive && t.h == 1 && AllCellsOk(AllLines(t)) && LinesSame(t, max) && Typeable(AllLines(t), t.w)
    requires |t.main.scrollback| <= max && 0 < k < |AllLines(t)| && AllLines(t)[k].wrapped && x < t.w
    requires forall j :: 0 <= j < |t.main.scrollback| ==> LastVisible(t.main.scrollback[j].cells) == |t.main.scrollback[j].cells|
    requires Reached(TapeAt(FreshTape(t.w, 1, 0, 0), AllLines(t), k), AllLines(t), 0, 0, k)
    ensures var c, e := |Emitted(AllLines(t), k - 1)|, Emitted(AllLines(t), k);
      && LineOk(e) && |e| <= t.w && c <= t.w && c + |e| > t.w
      && var n := Cut(e, t.w - c); var u := Retyped(t);
      && n < |e| && k < |u.lines| && |u.lines[k].cells| == t.w
      && (c <= x < c + n ==> IsBlank(e[x - c]))
      && (c + n <= x ==> e[n].style.bg == Default)
      && (x < |e| - n ==> u.lines[k].cells[x] == e[n + x])
  {
    hide *;
    OneWraps(t, max, k);
    OneTape(t, max);
    OneEmits(t, k - 1);
    OneEnds(t, k);
    LineAt(t, k - 1);
    LineAt(t, k);
    OneFrozen(t, k, x);
    var u, c, e := Retyped(t), |Emitted(AllLines(t), k - 1)|, Emitted(AllLines(t), k);
    assert t.main.scrollback[k - 1] == Trimmed(u.lines[k - 1]);
    if c <= x {
      TapeShape(u);
      TrimmedDrops(u.lines[k - 1], x);
      BlankLooks(e[Cut(e, t.w - c)].style);
    }
  }

  lemma OneEnds(t: T, k: nat)
    requires Typeable(AllLines(t), t.w) && t.h == 1 && 0 < k < |AllLines(t)| && AllLines(t)[k].wrapped
    requires Reached(TapeAt(FreshTape(t.w, 1, 0, 0), AllLines(t), k), AllLines(t), 0, 0, k)
    ensures AllCellsOk(AllLines(t)) && TapeAt(FreshTape(t.w, 1, 0, 0), AllLines(t), k).col == |Emitted(AllLines(t), k - 1)| <= t.w
    ensures |TapeAt(FreshTape(t.w, 1, 0, 0), AllLines(t), k).lines| == k
  {
    hide Sound, Typeable, TapeAt, ScreenFits, Emitted, MarksKept, Inky;
    TypeableOk(AllLines(t), t.w);
  }

  /** What line k leaves behind stays. */
  lemma OneFrozen(t: T, k: nat, x: nat)
    requires t.h == 1 && Typeable(AllLines(t), t.w) && AllCellsOk(AllLines(t)) && 0 < k < |AllLines(t)| && x < t.w
    requires var v, e := TapeAt(FreshTape(t.w, 1, 0, 0), AllLines(t), k), Emitted(AllLines(t), k);
      |v.lines| == k && LineOk(e) && |e| <= t.w && v.col + |e| > t.w
    ensures var v, e, u := TapeAt(FreshTape(t.w, 1, 0, 0), AllLines(t), k), Emitted(AllLines(t), k), Retyped(t);
      && var n := Cut(e, t.w - v.col);
      && n < |e| && k < |u.lines| && |u.lines[k].cells| == t.w && |u.lines[k - 1].cells| == t.w
      && (v.col <= x < v.col + n ==> u.lines[k - 1].cells[x] == e[x - v.col])
      && (v.col + n <= x ==> u.lines[k - 1].cells[x] == Blank(e[n].style))
      && (x < |e| - n ==> u.lines[k].cells[x] == e[n + x])
  {
    hide *;
    LineAt(t, k);
    RetypedIs(t);
    var lines, start := AllLines(t), FreshTape(t.w, 1, 0, 0);
    var v, e := TapeAt(start, lines, k), Emitted(lines, k);
    TapeNext(start, lines, k);
    CutAt(v, e, x);
    RowStays(start, lines, k);
    TapeShape(Retyped(t));
    ExtendsAt(TypeAll(v, e), Retyped(t), k, x);
  }

  lemma RetypedIs(t: T)
    requires t.h == 1 && AllCellsOk(AllLines(t))
    ensures Retyped(t) == TapeAt(FreshTape(t.w, 1, 0, 0), AllLines(t), |AllLines(t)|)
    ensures Retyped(t).w == t.w && FreshTape(t.w, 1, 0, 0).w == t.w
  {
    hide Sound, TapeAt;
  }

  lemma ExtendsAt(t: Tape, u: Tape, k: nat, x: nat)
    requires Extends(t, u) && |t.lines| == k + 1 && k > 0 && x < t.w
    ensures k < |u.lines| && u.lines[k - 1].cells == t.lines[k - 1].cells && |u.lines[k].cells| == t.w && |t.lines[k].cells| == t.w
    ensures x < t.col ==> u.lines[k].cells[x] == t.lines[k].cells[x]
  {
    assert Last(t) == t.lines[k].cells;
  }

  /** On a single row too, a marked line that comes back is a continuation. */
  lemma OneContinues(t: T, max: nat, k: nat)
    requires !t.altActive && t.h == 1 && AllCellsOk(AllLines(t)) && LinesSame(t, max) && Typeable(AllLines(t), t.w)
    requires |t.main.scrollback| <= max && 0 < k < |AllLines(t)| && AllLines(t)[k].wrapped
    requires forall j :: 0 <= j < |t.main.scrollback| ==> LastVisible(t.main.scrollback[j].cells) == |t.main.scrollback[j].cells|
    requires Reached(TapeAt(FreshTape(t.w, 1, 0, 0), AllLines(t), k), AllLines(t), 0, 0, k)
    ensures Continues(AllLines(t), k, t.w)
  {
    hide Typeable, AllCellsOk, TapeAt, ScreenFits, LinesSame, Emitted, LineOk, Reached, LastVisible, IsBlank, Retyped, Cut;
    var c, e := |Emitted(AllLines(t), k - 1)|, Emitted(AllLines(t), k);
    OneCut(t, max, k, t.w - 1);
    var n := Cut(e, t.w - c);
    forall i | 0 <= i < n ensures IsBlank(e[i]) {
      CutRoom(e, t.w - c);
      OneCut(t, max, k, c + i);
    }
    forall x | 0 <= x < |e| - n ensures Retyped(t).lines[k].cells[x] == e[n + x] {
      OneCut(t, max, k, x);
    }
    OneUnmoved(t, max, k, n);
    CutWhole(e, t.w - c);
  }

  lemma CutRoom(cells: seq<Cell>, room: nat)
    ensures Cut(cells, room) <= room
  {
  }

  lemma {:induction false} OneUpTo(t: T, max: nat, k: nat)
    requires !t.altActive && t.h == 1 && AllCellsOk(AllLines(t)) && LinesSame(t, max) && Typeable(AllLines(t), t.w)
    requires |t.main.scrollback| <= max && k <= |AllLines(t)|
    requires forall j :: 0 <= j < |t.main.scrollback| ==> LastVisible(t.main.scrollback[j].cells) == |t.main.scrollback[j].cells|
    ensures forall j :: 0 <= j < k && AllLines(t)[j].wrapped ==> Continues(AllLines(t), j, t.w)
    decreases k
  {
    hide Typeable, AllCellsOk, TapeAt, ScreenFits, LinesSame, Continues, Reached, LastVisible, Retyped, Sound;
    if k > 0 {
      OneUpTo(t, max, k - 1);
      OneTape(t, max);
      LineAt(t, 0);
      if AllLines(t)[k - 1].wrapped {
        StartReached(t.w, 1, AllLines(t), 0, 0);
        FirstTape(t.w, 1, AllLines(t));
        ReachedAt(FreshTape(t.w, 1, 0, 0), AllLines(t), 0, 0, k - 1);
        OneContinues(t, max, k - 1);
      }
    }
  }

  // ---------------------------------------------------------------------------
  // Both directions
  // ---------------------------------------------------------------------------

  lemma SameLaid(t: T, max: nat)
    requires !t.altActive && AllCellsOk(AllLines(t)) && LinesSame(t, max)
    ensures Laid(t, max)
  {
    hide AllCellsOk, ScreenFits, LinesSame, LastVisible, Retyped, Continues, Paired;
    SameWhole(t, max);
    AllTypeable(t);
    LineAt(t, 0);
    if t.h > 1 {
      TallChained(t, max);
    } else {
      OneUpTo(t, max, |AllLines(t)|);
      OneTape(t, max);
    }
  }

  /** The snapshot's lines come back exactly when they are laid as typing them lays
      them, none bleeds, and the cell that is written again has no link. */
  lemma LinesExact(t: T, max: nat)
    requires !t.altActive && AllCellsOk(AllLines(t))
    ensures LinesSame(t, max) <==> Laid(t, max) && NoBleed(t) && (Redrawn(t) ==> Line(t)[t.w - 1].link == [])
  {
    hide *;
    if LinesSame(t, max) {
      SameLaid(t, max);
    }
    if Laid(t, max) {
      LaidSame(t, max);
    }
  }

  /** Snapshot round trip: written into a fresh terminal of the same size, the snapshot
      gives the same state exactly when lines are laid as typing them lays them and
      none bleeds, the saved cursor is plain, the wrap can be drawn and origin mode
      reaches the cursor. */
  lemma SnapshotRoundTrip(t: T, max: nat)
    requires Presentable(t)
    ensures !t.altActive
    ensures var e := Write(NewEmulator(t.w, t.h, max), Snapshot(t));
      Ready(e.p) && (SameState(e.t, t) <==> Laid(t, max) && NoBleed(t) && SavedPlain(t) && WrapDrawn(t) && Reaches(t))
  {
    hide Write, Presentable, Rebuilt, RowsFit, SameState, SavedPlain, WrapDrawn, Snapshot, NoBleed, Laid, Retyped, Redrawn, LinesSame, Reaches,
      ScreenOf, HistoryOf, AllCellsOk;
    MainActive(t);
    SnapshotRebuilds(t, max);
    RebuiltExact(Write(NewEmulator(t.w, t.h, max), Snapshot(t)).t, t, max);
    LinesExact(t, max);
    WrapIs(t);
  }
}
