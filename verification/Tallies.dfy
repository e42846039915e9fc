/** How many lines, and how many continuation marks, typing lines again can leave. */
module Tallies {
  import opened Cells
  import opened Snapshots
  import opened Content
  import opened Paint
  import opened Typewriter
  import opened Receiving
  import opened Alignment

  /** A line no wider than the screen takes one more line at most, and none more from
      the left margin. */
  lemma RowGrows(t: Tape, cells: seq<Cell>)
    requires LineOk(cells) && |cells| <= t.w
    ensures var u := TypeAll(t, cells);
      && |t.lines| <= |u.lines| <= |t.lines| + 1
      && (t.col + |cells| <= t.w ==> |u.lines| == |t.lines| && u.col == t.col + |cells|)
      && (t.col + |cells| > t.w ==> |u.lines| == |t.lines| + 1)
  {
    hide Sound, TypeAll, Inked, LineOk, Wrapped, Cut;
    TapeShape(t);
    LineCells(cells);
    if t.col + |cells| <= t.w {
      InkAll(t, cells);
      InkedGrows(t, cells);
    } else {
      var n := Cut(cells, t.w - t.col);
      CutShort(cells, t.w - t.col);
      RowWraps(t, cells);
      LineCells(cells[..n]);
      LineCells(cells[n..]);
      InkedGrows(t, cells[..n]);
      WrappedGrows(Inked(t, cells[..n]), cells[n].style);
      InkedGrows(Wrapped(Inked(t, cells[..n]), cells[n].style), cells[n..]);
    }
  }

  lemma InkedGrows(t: Tape, cells: seq<Cell>)
    requires Paired(cells) && t.col + |cells| <= t.w
    ensures var u := Inked(t, cells); |u.lines| == |t.lines| && u.col == t.col + |cells| && u.w == t.w && u.h == t.h
  {
    hide Paired;
  }

  lemma WrappedGrows(t: Tape, st: Style)
    ensures var u := Wrapped(t, st); |u.lines| == |t.lines| + 1 && u.col == 0 && u.w == t.w && u.h == t.h
  {
    hide Sound, Strike, Risen;
  }

  // ---------------------------------------------------------------------------
  // Lines
  // ---------------------------------------------------------------------------

  /** The tape is at least d lines short when line k is reached. */
  predicate Short(t: Tape, lines: seq<Row>, k: nat, d: nat) {
    if k >= |lines| || (k > 0 && lines[k].wrapped) then |t.lines| + d <= k
    else |t.lines| + d <= k + 1 && t.col == 0
  }

  lemma ShortStep(t: Tape, lines: seq<Row>, k: nat, d: nat)
    requires Typeable(lines, t.w) && AllCellsOk(lines) && k < |lines| && Short(t, lines, k, d)
    ensures Short(Typed(t, lines, k), lines, k + 1, d)
    ensures CellsOk(Emitted(lines, k))
    ensures k > 0 && lines[k].wrapped && |TypeAll(t, Emitted(lines, k)).lines| == |t.lines| ==> Short(Typed(t, lines, k), lines, k + 1, d + 1)
  {
    hide Sound, Emitted, TypeAll, NewLine, BrushAt, Typeable, AllCellsOk, Typed, LineOk, CellsOk;
    EmittedIs(lines, k, t.w);
    RowGrows(t, Emitted(lines, k));
    TypedIs(t, lines, k);
    FeedIs(TypeAll(t, Emitted(lines, k)), BrushAt(lines, k + 1).pen, false, 0);
  }

  /** Once short, always short. */
  lemma {:induction false} ShortAt(start: Tape, lines: seq<Row>, j: nat, k: nat, d: nat)
    requires Typeable(lines, start.w) && AllCellsOk(lines) && j <= k <= |lines| && Short(TapeAt(start, lines, j), lines, j, d)
    ensures Short(TapeAt(start, lines, k), lines, k, d)
    decreases k
  {
    hide *;
    if k > j {
      ShortAt(start, lines, j, k - 1, d);
      TapeNext(start, lines, k - 1);
      ShortStep(TapeAt(start, lines, k - 1), lines, k - 1, d);
    }
  }

  // ---------------------------------------------------------------------------
  // Marks
  // ---------------------------------------------------------------------------

  /** How many of the rows are marked. */
  function Marks(rows: seq<Row>): nat {
    if rows == [] then 0 else Marks(rows[..|rows| - 1]) + (if rows[|rows| - 1].wrapped then 1 else 0)
  }

  /** How many of the lines from a to k are marked, and how many of those, behind
      line a, write something. */
  function MarkedIn(lines: seq<Row>, a: nat, k: nat): nat
    requires a <= k <= |lines|
    decreases k
  {
    if k == a then 0 else MarkedIn(lines, a, k - 1) + (if lines[k - 1].wrapped then 1 else 0)
  }

  function Wraps(lines: seq<Row>, a: nat, k: nat): nat
    requires a <= k <= |lines|
    decreases k
  {
    if k == a then 0
    else Wraps(lines, a, k - 1) + (if k - 1 > a && lines[k - 1].wrapped && Emitted(lines, k - 1) != [] then 1 else 0)
  }

  lemma {:induction false} WrapsAll(lines: seq<Row>, a: nat, k: nat)
    requires a <= k <= |lines|
    ensures Wraps(lines, a, k) <= MarkedIn(lines, a, k)
    ensures Wraps(lines, a, k) == MarkedIn(lines, a, k) <==>
              forall j :: a <= j < k && lines[j].wrapped ==> j > a && Emitted(lines, j) != []
    decreases k
  {
    hide Emitted;
    if k > a {
      WrapsAll(lines, a, k - 1);
    }
  }

  lemma {:induction false} MarksAppend(a: seq<Row>, b: seq<Row>)
    ensures Marks(a + b) == Marks(a) + Marks(b)
    decreases |b|
  {
    if b == [] {
      assert a + b == a;
    } else {
      assert (a + b)[..|a + b| - 1] == a + b[..|b| - 1];
      MarksAppend(a, b[..|b| - 1]);
    }
  }

  lemma {:induction false} MarksFewer(a: seq<Row>, b: seq<Row>)
    requires |a| == |b| && forall i :: 0 <= i < |a| ==> a[i].wrapped ==> b[i].wrapped
    ensures Marks(a) <= Marks(b)
    decreases |a|
  {
    if a != [] {
      var n := |a| - 1;
      MarksFewer(a[..n], b[..n]);
    }
  }

  lemma {:induction false} MarkedMarks(lines: seq<Row>, a: nat, k: nat)
    requires a <= k <= |lines|
    ensures MarkedIn(lines, a, k) == Marks(lines[a..k])
    decreases k
  {
    if k > a {
      MarkedMarks(lines, a, k - 1);
      assert lines[a..k][..k - a - 1] == lines[a..k - 1];
    }
  }

  lemma MarksSplit(rows: seq<Row>, n: nat)
    requires n <= |rows|
    ensures Marks(rows) == Marks(rows[..n]) + Marks(rows[n..])
  {
    hide Marks;
    assert rows[..n] + rows[n..] == rows;
    MarksAppend(rows[..n], rows[n..]);
  }

  /** The screen has no more marks than the tape. */
  lemma ScreenMarks(t: Tape)
    ensures Marks(ScreenOf(t)) <= Marks(t.lines)
  {
    hide Sound, Marks;
    TapeShape(t);
    var off, rows := Off(t), ScreenOf(t);
    var n := |t.lines| - off;
    MarksSplit(t.lines, off);
    MarksSplit(rows, n);
    forall i | 0 <= i < n ensures rows[..n][i] == t.lines[off..][i] {
      assert rows[i] == t.lines[off + i];
    }
    assert rows[..n] == t.lines[off..];
    Unmarked(rows[n..]);
  }

  lemma {:induction false} Unmarked(rows: seq<Row>)
    requires forall i :: 0 <= i < |rows| ==> !rows[i].wrapped
    ensures Marks(rows) == 0
    decreases |rows|
  {
    if rows != [] {
      Unmarked(rows[..|rows| - 1]);
    }
  }

  lemma FreshMarks(w: nat, h: nat, n: nat, x: nat)
    requires w >= 2 && h >= 1 && x <= w
    ensures Marks(FreshTape(w, h, n, x).lines) == 0 && FreshTape(w, h, n, x).col == x
  {
    hide Sound;
    Unmarked(BlankRows(n + 1, w, PLAIN));
  }

  lemma FeedMarks(t: Tape, pen: Style, mark: bool)
    ensures Marks(NewLine(t, pen, mark).lines) <= Marks(t.lines) + (if mark then 1 else 0)
  {
    hide Sound, NewLine;
    var u, n := NewLine(t, pen, mark), |t.lines|;
    FeedIs(t, pen, mark, n);
    forall i | 0 <= i < n ensures u.lines[i].wrapped ==> t.lines[i].wrapped {
      FeedIs(t, pen, mark, i);
    }
    MarksFewer(u.lines[..n], t.lines);
  }

  /** A line no wider than the screen adds one mark at most, and none where it fits. */
  lemma RowMarks(t: Tape, cells: seq<Cell>)
    requires LineOk(cells) && |cells| <= t.w
    ensures var u := TypeAll(t, cells);
      && Marks(u.lines) <= Marks(t.lines) + (if t.col + |cells| <= t.w then 0 else 1)
  {
    hide Sound, TypeAll, Inked, LineOk, Cut, NewLine, Gapped, Paired, CellsOk;
    TapeShape(t);
    LineCells(cells);
    if t.col + |cells| <= t.w {
      InkAll(t, cells);
      InkedNoMark(t, cells);
    } else {
      var n := Cut(cells, t.w - t.col);
      CutShort(cells, t.w - t.col);
      RowWraps(t, cells);
      LineCells(cells[..n]);
      LineCells(cells[n..]);
      InkedNoMark(t, cells[..n]);
      var t1 := Inked(t, cells[..n]);
      GappedNoMark(t1, cells[n].style);
      WrappedGrows(t1, cells[n].style);
      InkedGrows(t, cells[..n]);
      FeedMarks(Gapped(t1, cells[n].style), cells[n].style, true);
      InkedNoMark(Wrapped(t1, cells[n].style), cells[n..]);
    }
  }

  lemma InkedNoMark(t: Tape, cells: seq<Cell>)
    requires Paired(cells) && t.col + |cells| <= t.w
    ensures Marks(Inked(t, cells).lines) <= Marks(t.lines)
  {
    hide Paired;
    var u := Inked(t, cells);
    assert forall i :: 0 <= i < |t.lines| ==> u.lines[i].wrapped == t.lines[i].wrapped;
    MarksFewer(Inked(t, cells).lines, t.lines);
  }

  lemma GappedNoMark(t: Tape, st: Style)
    ensures Marks(Gapped(t, st).lines) <= Marks(t.lines)
  {
    hide Stored;
    MarksFewer(Gapped(t, st).lines, t.lines);
  }

  /** Line k is reached at the left margin, or at the edge if it continues. */
  predicate Flush(t: Tape, lines: seq<Row>, a: nat, k: nat) {
    if k > a && k < |lines| && lines[k].wrapped then t.col == t.w
    else k < |lines| ==> t.col == 0
  }

  /** Marked lines behind line a follow full ones. */
  predicate Edged(lines: seq<Row>, a: nat, w: int) {
    forall k :: a < k < |lines| && lines[k].wrapped ==> |Emitted(lines, k - 1)| == w
  }

  lemma FlushStep(t: Tape, lines: seq<Row>, a: nat, k: nat)
    requires Typeable(lines, t.w) && AllCellsOk(lines) && Edged(lines, a, t.w) && a <= k < |lines| && Flush(t, lines, a, k)
    ensures var u := Typed(t, lines, k);
      && Flush(u, lines, a, k + 1)
      && Marks(u.lines) <= Marks(t.lines) + (if k > a && lines[k].wrapped && Emitted(lines, k) != [] then 1 else 0)
      && |u.lines| == |t.lines| + (if k > a && lines[k].wrapped && Emitted(lines, k) != [] then 1 else 0)
                      + (if k + 1 < |lines| && !lines[k + 1].wrapped then 1 else 0)
  {
    hide Sound, Emitted, TypeAll, NewLine, BrushAt, Typeable, AllCellsOk, Typed, LineOk, CellsOk, Marks;
    EmittedIs(lines, k, t.w);
    var cells := Emitted(lines, k);
    RowGrows(t, cells);
    RowMarks(t, cells);
    TypedIs(t, lines, k);
    var u := TypeAll(t, cells);
    FeedIs(u, BrushAt(lines, k + 1).pen, false, 0);
    FeedMarks(u, BrushAt(lines, k + 1).pen, false);
    if k > a && lines[k].wrapped && cells != [] {
      WrapCol(t, cells);
    }
  }

  /** From the edge, a line starts at the left margin of the next one. */
  lemma WrapCol(t: Tape, cells: seq<Cell>)
    requires LineOk(cells) && 0 < |cells| <= t.w && t.col == t.w
    ensures TypeAll(t, cells).col == |cells|
  {
    hide Sound, TypeAll, Inked, LineOk, Wrapped;
    RowWraps(t, cells);
    LineCells(cells);
    assert cells[..0] == [] && cells[0..] == cells;
    InkNothing(t);
    WrappedGrows(t, cells[0].style);
    InkedGrows(Wrapped(t, cells[0].style), cells);
  }

  lemma {:induction false} FlushAt(start: Tape, lines: seq<Row>, a: nat, k: nat)
    requires Typeable(lines, start.w) && AllCellsOk(lines) && Edged(lines, a, start.w) && a <= k <= |lines|
    requires Flush(TapeAt(start, lines, a), lines, a, a)
    ensures var t, u := TapeAt(start, lines, a), TapeAt(start, lines, k);
      && Flush(u, lines, a, k)
      && Marks(u.lines) <= Marks(t.lines) + Wraps(lines, a, k)
      && |u.lines| == |t.lines| + Wraps(lines, a, k) + Breaks(lines, a, k)
    decreases k
  {
    hide TapeAt, Typed, Flush, Edged, Typeable, AllCellsOk, Emitted, Sound, Marks;
    if k > a {
      FlushAt(start, lines, a, k - 1);
      TapeNext(start, lines, k - 1);
      FlushStep(TapeAt(start, lines, k - 1), lines, a, k - 1);
    }
  }

  /** How many line breaks there are between line a and line k. */
  function Breaks(lines: seq<Row>, a: nat, k: nat): nat
    requires a <= k <= |lines|
    decreases k
  {
    if k == a then 0 else Breaks(lines, a, k - 1) + (if k < |lines| && !lines[k].wrapped then 1 else 0)
  }

  /** Every line behind line a has a break before it or a mark. */
  lemma {:induction false} BreaksAre(lines: seq<Row>, a: nat, k: nat)
    requires a < k <= |lines|
    ensures Breaks(lines, a, k) + MarkedIn(lines, a, k) + (if Open(lines, k) then 1 else 0) == k - a + (if lines[a].wrapped then 1 else 0)
    decreases k
  {
    if k > a + 1 {
      BreaksAre(lines, a, k - 1);
    }
  }
}
