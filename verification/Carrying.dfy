/** The rows of an alternate screen typed from where the main cursor was: when they
    come back as they were. */
module Carrying {
  import opened Cells
  import opened Terminal
  import opened Snapshots
  import opened Content
  import opened Typewriter
  import opened Receiving
  import opened Alignment
  import opened Tallies
  import opened Bleeding
  import opened Shifting
  import opened Tiles
  import opened RoundTrip
  import opened Exactness

  /** None of the rows from a on is written on a background that it leaves showing, the
      first row being line b of the tape. */
  predicate NoneBleeds(h: int, rows: seq<Row>, a: nat, b: nat, w: int) {
    forall k :: a <= k < |rows| ==> !Bleeds(h, rows, k, b, w)
  }

  function SiteOf(v: T, n: nat, x: nat): Site
    requires !v.altActive && 0 < x < v.w
  {
    Site(v.w, v.h, n, v.w - x, if Redrawn(v) then v.main.cur.y else -1)
  }

  lemma SiteFits(v: T, n: nat, x: nat)
    requires !v.altActive && 0 < x < v.w && AllCellsOk(v.main.rows) && AllPaired(v.main.rows)
    ensures SiteOk(v.main.rows, SiteOf(v, n, x)) && Screenful(v.main.rows, v.w)
  {
    hide CellsOk, Paired;
    RowsTypeable(v);
    TermRows(v);
  }

  lemma RowsTypeable(v: T)
    requires AllCellsOk(v.main.rows) && AllPaired(v.main.rows)
    ensures Screenful(v.main.rows, v.w) && |v.main.rows| == v.h && RowsFit(v.main.rows, v.w)
  {
    hide CellsOk, Paired;
  }

  /** Rows that are typed from column x of line n: wide characters are whole, marked
      rows are continuations, and no row bleeds. From another column than the first,
      the first group must look the same moved on; then the others are a line further
      down if it was not blank. */
  predicate RowsLaid(v: T, n: nat, x: nat)
    requires !v.altActive && x < v.w && AllCellsOk(v.main.rows)
  {
    var rows := v.main.rows;
    && AllPaired(rows)
    && if x == 0 then Chained(rows, 0, v.w) && NoneBleeds(v.h, rows, 0, n, v.w)
       else
         SiteFits(v, n, x);
         var m, o := GroupEnd(rows, 0), if BlankGroup(rows, v.w) then 0 else 1;
         && Unshaken(rows, SiteOf(v, n, x)) && rows[0].wrapped == (v.h == 1 && o == 1)
         && Chained(rows, m + 1, v.w) && NoneBleeds(v.h, rows, m + 1, n + o, v.w)
  }

  // ---------------------------------------------------------------------------
  // Rows behind the first group, or all of them
  // ---------------------------------------------------------------------------

  /** Rows from a on, each on a line of its own. */
  lemma LaterLine(start: Tape, rows: seq<Row>, a: nat, b: nat, k: nat)
    requires Screenful(rows, start.w) && |rows| == start.h && a <= k < |rows|
    requires Reached(TapeAt(start, rows, a), rows, a, b + a, a) && Chained(rows, a, start.w)
    ensures var u := TapeAt(start, rows, |rows|);
      && |u.lines| == b + |rows| && |Emitted(rows, k)| <= start.w
      && u.lines[b + k] == Row(Sheet(start.h, rows, k, b + k, start.w), rows[k].wrapped)
  {
    hide Typeable, AllCellsOk, RowsFit, TapeAt, Reached, Sheet, Continues, Emitted, Sound;
    AlignedLine(start, rows, a, b + a, k);
  }

  lemma ScreenAt(u: Tape, b: nat, k: nat)
    requires |u.lines| == b + u.h && k < u.h
    ensures Off(u) == b && ScreenOf(u)[k] == u.lines[b + k]
  {
    hide Sound;
  }

  /** A row comes back exactly when it does not bleed. */
  lemma LaterBack(start: Tape, rows: seq<Row>, a: nat, b: nat, k: nat)
    requires Screenful(rows, start.w) && |rows| == start.h && a <= k < |rows|
    requires Reached(TapeAt(start, rows, a), rows, a, b + a, a) && Chained(rows, a, start.w)
    ensures var u := TapeAt(start, rows, |rows|);
      && |u.lines| == b + |rows| && |ScreenOf(u)| == |rows|
      && (ScreenOf(u)[k] == rows[k] <==> !Bleeds(start.h, rows, k, b, start.w))
  {
    hide Typeable, AllCellsOk, TapeAt, Reached, Sheet, Continues, Emitted, Sound, Bleeds, ScreenOf;
    LaterLine(start, rows, a, b, k);
    ScreenAt(TapeAt(start, rows, |rows|), b, k);
    RowSame(start.h, rows, k, b, start.w);
  }

  /** Rows come back when they are drawn as they were, but for a narrow cell that is
      written again. */
  lemma BackFrom(v: T, rows: seq<Row>)
    requires !v.altActive && |rows| == v.h && RowsFit(rows, v.w) && |v.main.rows| == v.h && RowsFit(v.main.rows, v.w)
    requires Redrawn(v) ==> Line(v)[v.w - 1].link == []
    requires forall k :: 0 <= k < v.h ==> rows[k].wrapped == v.main.rows[k].wrapped
    requires forall k, c :: 0 <= k < v.h && 0 <= c < v.w && !(Redrawn(v) && k == v.main.cur.y && c == v.w - 1) ==>
      rows[k].cells[c] == v.main.rows[k].cells[c]
    requires Redrawn(v) ==> rows[v.main.cur.y].cells[v.w - 1].width == 1
    ensures Back(v, rows) == v.main.rows
  {
    hide Redrawn;
    TermRows(v);
    var got := Back(v, rows);
    forall k | 0 <= k < v.h ensures got[k] == v.main.rows[k] {
      if Redrawn(v) && k == v.main.cur.y {
        BackRow(v, rows);
      } else {
        assert rows[k].cells == v.main.rows[k].cells;
      }
    }
    assert got == v.main.rows;
  }

  lemma BackRow(v: T, rows: seq<Row>)
    requires !v.altActive && |rows| == v.h && RowsFit(rows, v.w) && Redrawn(v) && Line(v)[v.w - 1].link == []
    requires var y := v.main.cur.y; 0 <= y < v.h && rows[y].wrapped == v.main.rows[y].wrapped && |v.main.rows| == v.h && Line(v) == v.main.rows[y].cells
    requires var y := v.main.cur.y; rows[y].cells[v.w - 1].width == 1 && forall c :: 0 <= c < v.w - 1 ==> rows[y].cells[c] == Line(v)[c]
    ensures Back(v, rows)[v.main.cur.y] == v.main.rows[v.main.cur.y]
  {
    var y, c := v.main.cur.y, Line(v)[v.w - 1];
    var cells := rows[y].cells;
    assert PlaceInLine(cells, v.w - 1, c.ch, 1, c.style, []) == cells[v.w - 1 := c];
    assert cells[v.w - 1 := c] == Line(v);
  }

  /** The tape that the rows leave. */
  function Carried(v: T, n: nat, x: nat): (u: Tape)
    requires AllCellsOk(v.main.rows) && x < v.w
    ensures u.w == v.w && u.h == v.h
  {
    TapeAt(FreshTape(v.w, v.h, n, x), v.main.rows, |v.main.rows|)
  }

  /** A row whose last cell is written again shows it, so nothing bleeds there. */
  lemma RedrawnKeeps(v: T, b: nat)
    requires !v.altActive && AllCellsOk(v.main.rows) && Redrawn(v)
    ensures var y := v.main.cur.y; 0 <= y < |v.main.rows| && !Bleeds(v.h, v.main.rows, y, b, v.w)
  {
    hide CellsOk, IsBlank, Bleeds, Emitted, ScreenFits;
    TermRows(v);
    var y := v.main.cur.y;
    assert CellsOk(v.main.rows[y].cells);
    ShownCell(v.main.rows[y].cells, v.w - 1);
    FullEmits(v.main.rows, y);
    FullKeeps(v.h, v.main.rows, y, b, v.w);
  }

  /** Rows from a on come back when none of them bleeds. */
  lemma LaterSame(v: T, start: Tape, a: nat, b: nat)
    requires !v.altActive && AllCellsOk(v.main.rows) && AllPaired(v.main.rows) && start.w == v.w && start.h == v.h && a <= v.h
    requires a < v.h ==> Reached(TapeAt(start, v.main.rows, a), v.main.rows, a, b + a, a) && Chained(v.main.rows, a, v.w)
    ensures var u, rows := TapeAt(start, v.main.rows, |v.main.rows|), v.main.rows;
      && |ScreenOf(u)| == |rows| == v.h && RowsFit(ScreenOf(u), v.w)
      && (NoneBleeds(v.h, rows, a, b, v.w) ==> forall k :: a <= k < v.h ==> ScreenOf(u)[k] == rows[k])
      && (Back(v, ScreenOf(u)) == rows ==> NoneBleeds(v.h, rows, a, b, v.w))
  {
    hide AllCellsOk, TapeAt, Reached, Sound, Bleeds, ScreenOf, Chained, Back, Redrawn, Paired, AllPaired;
    RowsTypeable(v);
    var u, rows := TapeAt(start, v.main.rows, |v.main.rows|), v.main.rows;
    forall k | a <= k < v.h ensures ScreenOf(u)[k] == rows[k] <==> !Bleeds(v.h, rows, k, b, v.w) {
      LaterBack(start, rows, a, b, k);
    }
    if Back(v, ScreenOf(u)) == rows {
      forall k | a <= k < v.h ensures !Bleeds(v.h, rows, k, b, v.w) {
        if Redrawn(v) && k == v.main.cur.y {
          RedrawnKeeps(v, b);
        } else {
          BackParts(v, ScreenOf(u), k, 0);
        }
      }
    }
  }

  // ---------------------------------------------------------------------------
  // From the first column
  // ---------------------------------------------------------------------------

  lemma PairedAgain(v: T, u: Tape)
    requires !v.altActive && u.w == v.w && u.h == v.h && Back(v, ScreenOf(u)) == v.main.rows
    ensures AllPaired(v.main.rows) && Marks(v.main.rows) == Marks(ScreenOf(u)) <= Marks(u.lines)
    ensures Redrawn(v) ==> Line(v)[v.w - 1].link == []
  {
    hide Sound, ScreenOf, Back, Paired, Redrawn;
    TermRows(v);
    ScreenPaired(u);
    BackPaired(v, ScreenOf(u));
    BackMarks(v, ScreenOf(u));
    ScreenMarks(u);
    BackParts(v, ScreenOf(u), 0, 0);
  }

  lemma AllEdged(rows: seq<Row>, a: nat, w: int)
    requires Screenful(rows, w)
    ensures Edged(rows, a, w)
  {
    hide Typeable, AllCellsOk;
  }

  lemma MarginChained(v: T, n: nat)
    requires !v.altActive && AllCellsOk(v.main.rows) && Back(v, ScreenOf(Carried(v, n, 0))) == v.main.rows
    ensures Chained(v.main.rows, 0, v.w)
  {
    hide AllCellsOk, TapeAt, Sound, ScreenOf, Back, Redrawn, Paired, AllPaired, Typeable, Edged, Marks, MarkedIn, Wraps, Emitted, Line;
    var rows, start, u := v.main.rows, FreshTape(v.w, v.h, n, 0), Carried(v, n, 0);
    TermRows(v);
    PairedAgain(v, u);
    RowsTypeable(v);
    AllEdged(rows, 0, v.w);
    FreshMarks(v.w, v.h, n, 0);
    MarksTyped(start, rows);
    MarkedMarks(rows, 0, |rows|);
    assert rows[0..|rows|] == rows;
    WrapsAll(rows, 0, |rows|);
    EdgedChained(rows, v.w);
  }

  lemma MarginExact(v: T, n: nat)
    requires !v.altActive && AllCellsOk(v.main.rows) && n < v.h
    ensures Back(v, ScreenOf(Carried(v, n, 0))) == v.main.rows <==>
              RowsLaid(v, n, 0) && (Redrawn(v) ==> Line(v)[v.w - 1].link == [])
  {
    hide AllCellsOk, TapeAt, Sound, ScreenOf, Back, Redrawn, Paired, AllPaired, Typeable, NoneBleeds, Chained, Line;
    var rows, start, u := v.main.rows, FreshTape(v.w, v.h, n, 0), Carried(v, n, 0);
    TermRows(v);
    if Back(v, ScreenOf(u)) == rows {
      PairedAgain(v, u);
      MarginChained(v, n);
    }
    if AllPaired(rows) && Chained(rows, 0, v.w) {
      RowsTypeable(v);
      FirstFlat(rows, v.w);
      StartReached(v.w, v.h, rows, 0, n);
      FirstAt(start, rows);
      LaterSame(v, start, 0, n);
      if NoneBleeds(v.h, rows, 0, n, v.w) && (Redrawn(v) ==> Line(v)[v.w - 1].link == []) {
        assert ScreenOf(u) == rows;
        BackSelf(v);
      }
    }
  }

  lemma FirstFlat(rows: seq<Row>, w: int)
    requires Chained(rows, 0, w) && rows != []
    ensures !rows[0].wrapped
  {
  }

  // ---------------------------------------------------------------------------
  // From another column: how many lines and marks there are
  // ---------------------------------------------------------------------------

  /** Each row of the first group adds a mark at most, and one that fits none. */
  lemma {:induction false} GroupMarks(start: Tape, rows: seq<Row>, k: nat)
    requires Screenful(rows, start.w) && k <= GroupEnd(rows, 0)
    ensures Marks(TapeAt(start, rows, k).lines) <= Marks(start.lines) + k
    decreases k
  {
    hide AllCellsOk, Sound, Typeable, Emitted, TapeAt, Typed, Marks, GroupEnd, RowsFit, TypeAll, CellsOk, LineOk;
    if k == 0 {
      FirstAt(start, rows);
    } else {
      GroupMarks(start, rows, k - 1);
      InnerFull(rows, start.w, k - 1);
      TapeNext(start, rows, k - 1);
      var t := TapeAt(start, rows, k - 1);
      EmittedIs(rows, k - 1, t.w);
      RowMarks(t, Emitted(rows, k - 1));
      TypedIs(t, rows, k - 1);
    }
  }

  lemma GroupEndMarks(start: Tape, rows: seq<Row>, n: nat, room: nat)
    requires Screenful(rows, start.w) && room < start.w && Shifted(start, rows, n, room, 0) && Marks(start.lines) == 0
    ensures Marks(TapeAt(start, rows, GroupEnd(rows, 0) + 1).lines) <= GroupEnd(rows, 0) + Over(rows, room)
  {
    hide AllCellsOk, Sound, Typeable, Emitted, TapeAt, Typed, Marks, GroupEnd, RowsFit, TypeAll, CellsOk, LineOk, Shifted, NewLine, BrushAt, Overflows;
    var m := GroupEnd(rows, 0);
    var t, e := TapeAt(start, rows, m), Emitted(rows, m);
    GroupMarks(start, rows, m);
    TapeNext(start, rows, m);
    EmittedIs(rows, m, t.w);
    RowMarks(t, e);
    RowGrows(t, e);
    GroupTyped(start, rows, n, room, m);
    ShiftAt(start, rows, n, room, m);
    ShiftedMark(t, rows, n, room, m);
    TypedIs(t, rows, m);
    FeedMarks(TypeAll(t, e), BrushAt(rows, m + 1).pen, false);
  }

  /** The marks of the first group. */
  lemma {:induction false} GroupMarked(rows: seq<Row>, k: nat)
    requires rows != [] && k <= GroupEnd(rows, 0)
    ensures MarkedIn(rows, 0, k + 1) == k + (if rows[0].wrapped then 1 else 0)
    decreases k
  {
    hide GroupEnd;
    if k > 0 {
      GroupMarked(rows, k - 1);
      assert rows[k].wrapped;
    } else {
      assert MarkedIn(rows, 0, 0) == 0;
    }
  }

  lemma {:induction false} MarkedSplit(rows: seq<Row>, a: nat, k: nat)
    requires a <= k <= |rows|
    ensures MarkedIn(rows, 0, k) == MarkedIn(rows, 0, a) + MarkedIn(rows, a, k)
    decreases k
  {
    if k > a {
      MarkedSplit(rows, a, k - 1);
    }
  }

  /** How many marked rows behind the first group write nothing. */
  function Lost(rows: seq<Row>): int
    requires rows != []
  {
    var a := GroupEnd(rows, 0) + 1;
    MarkedIn(rows, a, |rows|) - Wraps(rows, a, |rows|)
  }

  /** Lines and marks of the whole tape. */
  lemma CarriedCounts(start: Tape, rows: seq<Row>, n: nat, room: nat)
    requires Screenful(rows, start.w) && room < start.w && Shifted(start, rows, n, room, 0) && Marks(start.lines) == 0
    ensures var u := TapeAt(start, rows, |rows|);
      && |u.lines| == n + Over(rows, room) + |rows| - Lost(rows)
      && Marks(u.lines) + Lost(rows) + (if rows[0].wrapped then 1 else 0) <= Marks(rows) + Over(rows, room)
  {
    hide AllCellsOk, Sound, Typeable, Emitted, TapeAt, Marks, GroupEnd, RowsFit, Shifted, Over, Edged, Wraps, MarkedIn, Breaks, Flush;
    var m := GroupEnd(rows, 0);
    var a := m + 1;
    GroupEndMarks(start, rows, n, room);
    GroupMarked(rows, m);
    MarkedSplit(rows, a, |rows|);
    MarkedMarks(rows, 0, |rows|);
    assert rows[0..|rows|] == rows;
    AllEdged(rows, a, start.w);
    if a < |rows| {
      GroupBroken(start, rows, n, room, m);
      BreaksAre(rows, a, |rows|);
      FlushHere(TapeAt(start, rows, a), rows, a);
    } else {
      GroupTyped(start, rows, n, room, m);
      GroupWhole(start, rows, m);
      NoneBehind(rows, a);
      FlushHere(TapeAt(start, rows, a), rows, a);
    }
    FlushAt(start, rows, a, |rows|);
  }

  lemma FlushHere(t: Tape, rows: seq<Row>, a: nat)
    requires a < |rows| ==> t.col == 0
    ensures Flush(t, rows, a, a)
  {
    hide Sound;
  }

  lemma NoneBehind(rows: seq<Row>, a: nat)
    requires a == |rows|
    ensures MarkedIn(rows, a, |rows|) == 0 && Wraps(rows, a, |rows|) == 0 && Breaks(rows, a, |rows|) == 0
  {
  }

  lemma GroupWhole(start: Tape, rows: seq<Row>, m: nat)
    requires AllCellsOk(rows) && m + 1 == |rows| && CellsOk(Emitted(rows, m))
    ensures TapeAt(start, rows, m + 1) == TypeAll(TapeAt(start, rows, m), Emitted(rows, m))
  {
    hide AllCellsOk, Sound, Emitted, TapeAt, Typed, TypeAll, CellsOk;
    TapeNext(start, rows, m);
    TypedIs(TapeAt(start, rows, m), rows, m);
  }

  // ---------------------------------------------------------------------------
  // From another column: what is drawn
  // ---------------------------------------------------------------------------

  /** What the screen shows where the first group was, if every row behind it is there. */
  lemma GroupShown(v: T, n: nat, x: nat, k: nat, c: nat)
    requires !v.altActive && 0 < x < v.w && n < v.h && AllCellsOk(v.main.rows) && AllPaired(v.main.rows)
    requires SiteOk(v.main.rows, SiteOf(v, n, x)) && k <= GroupEnd(v.main.rows, 0) && c < v.w
    requires |Carried(v, n, x).lines| == n + Over(v.main.rows, v.w - x) + v.h
    ensures var rows, u := v.main.rows, Carried(v, n, x); var row := ScreenOf(u)[k];
      && |rows| == v.h && |row.cells| == v.w && row.cells[c] == Drawn(rows, SiteOf(v, n, x), k, c)
      && row.wrapped == (k > 0 || (v.h == 1 && Over(rows, v.w - x) == 1))
  {
    hide AllCellsOk, TapeAt, Sound, ScreenOf, Redrawn, Paired, AllPaired, Typeable, GroupEnd, Body, Rest, Emitted, RowsFit, Shifted, Overflows;
    var rows, start, u, m, room := v.main.rows, FreshTape(v.w, v.h, n, x), Carried(v, n, x), GroupEnd(v.main.rows, 0), v.w - x;
    var o := Over(rows, room);
    TermRows(v);
    SiteFits(v, n, x);
    FreshShifted(rows, v.w, v.h, n, x);
    ScreenAt(u, n + o, k);
    ScreenPaired(u);
    TapeShape(u);
    if o == 1 && k == m {
      RestLine(start, rows, n, room, c);
    } else {
      GroupLine(start, rows, n, room, k + o, c);
    }
  }

  /** The same, of the row as a whole. */
  lemma GroupFlag(v: T, n: nat, x: nat, k: nat)
    requires !v.altActive && 0 < x < v.w && n < v.h && AllCellsOk(v.main.rows) && AllPaired(v.main.rows)
    requires SiteOk(v.main.rows, SiteOf(v, n, x)) && k <= GroupEnd(v.main.rows, 0)
    requires |Carried(v, n, x).lines| == n + Over(v.main.rows, v.w - x) + v.h
    ensures |v.main.rows| == v.h && ScreenOf(Carried(v, n, x))[k].wrapped == (k > 0 || (v.h == 1 && Over(v.main.rows, v.w - x) == 1))
  {
    hide *;
    GroupShown(v, n, x, k, 0);
  }

  /** If the rows come back, none is lost, and the first is marked as it should be. */
  lemma NoneLost(v: T, n: nat, x: nat)
    requires !v.altActive && 0 < x < v.w && n < v.h && AllCellsOk(v.main.rows) && AllPaired(v.main.rows)
    requires Back(v, ScreenOf(Carried(v, n, x))) == v.main.rows
    ensures v.main.rows != [] && Lost(v.main.rows) == 0
    ensures |Carried(v, n, x).lines| == n + Over(v.main.rows, v.w - x) + v.h
  {
    hide AllCellsOk, TapeAt, Sound, ScreenOf, Back, Redrawn, Paired, AllPaired, Typeable, GroupEnd, Emitted, RowsFit, Shifted, Overflows, Over,
      Marks, Line, Rest;
    var rows, start, u, room := v.main.rows, FreshTape(v.w, v.h, n, x), Carried(v, n, x), v.w - x;
    TermRows(v);
    SiteFits(v, n, x);
    RowsTypeable(v);
    FreshShifted(rows, v.w, v.h, n, x);
    FreshMarks(v.w, v.h, n, x);
    CarriedCounts(start, rows, n, room);
    PairedAgain(v, u);
    LostSome(rows);
    if Lost(rows) == 1 {
      var m := GroupEnd(rows, 0);
      OverIs(rows, room);
      RestLine(start, rows, n, room, 0);
      ScreenAt(u, n, m + 1);
      BackParts(v, ScreenOf(u), m + 1, 0);
      assert false;
    }
  }

  lemma OverIs(rows: seq<Row>, room: nat)
    requires rows != []
    ensures Over(rows, room) <= 1 && (Over(rows, room) == 1 <==> Overflows(rows, room))
  {
    hide Overflows;
  }

  lemma LostSome(rows: seq<Row>)
    requires rows != []
    ensures Lost(rows) >= 0 && (Lost(rows) > 0 ==> GroupEnd(rows, 0) + 1 < |rows| && !rows[GroupEnd(rows, 0) + 1].wrapped)
  {
    hide GroupEnd, Emitted;
    var a := GroupEnd(rows, 0) + 1;
    WrapsAll(rows, a, |rows|);
    if a == |rows| {
      NoneBehind(rows, a);
    }
  }

  /** No row is lost exactly when those marked behind the first group are continuations. */
  lemma LostChained(rows: seq<Row>, w: int)
    requires Screenful(rows, w)
    ensures Lost(rows) == 0 <==> Chained(rows, GroupEnd(rows, 0) + 1, w)
  {
    hide GroupEnd, Emitted, Typeable, AllCellsOk;
    var a := GroupEnd(rows, 0) + 1;
    WrapsAll(rows, a, |rows|);
    AllEdged(rows, a, w);
    ChainedBehind(rows, a, w);
  }

  lemma ChainedBehind(rows: seq<Row>, a: nat, w: int)
    requires Edged(rows, a, w)
    ensures Chained(rows, a, w) <==> forall j :: a <= j < |rows| && rows[j].wrapped ==> j > a && Emitted(rows, j) != []
  {
    hide Emitted;
    if Chained(rows, a, w) {
      forall j | a <= j < |rows| && rows[j].wrapped ensures j > a && Emitted(rows, j) != [] {
        assert Continues(rows, j, w);
      }
    }
  }

  /** What comes back of the first group. */
  lemma GroupComesBack(v: T, n: nat, x: nat)
    requires !v.altActive && 0 < x < v.w && n < v.h && AllCellsOk(v.main.rows) && AllPaired(v.main.rows)
    requires SiteOk(v.main.rows, SiteOf(v, n, x)) && Back(v, ScreenOf(Carried(v, n, x))) == v.main.rows
    ensures ComesBack(v.main.rows, SiteOf(v, n, x), GroupEnd(v.main.rows, 0))
    ensures v.main.rows[0].wrapped == (v.h == 1 && Over(v.main.rows, v.w - x) == 1)
  {
    hide AllCellsOk, Carried, Sound, ScreenOf, Back, Redrawn, Paired, AllPaired, Typeable, GroupEnd, Emitted, RowsFit, Overflows, Over, Drawn;
    NoneLost(v, n, x);
    TermRows(v);
    var rows, u, g := v.main.rows, Carried(v, n, x), SiteOf(v, n, x);
    forall k, c | 0 <= k <= GroupEnd(rows, 0) && 0 <= c < g.w && Spared(rows, g, k, c) ensures Drawn(rows, g, k, c) == rows[k].cells[c] {
      GroupShown(v, n, x, k, c);
      GroupShown(v, n, x, k, v.w - 1);
      BackParts(v, ScreenOf(u), k, c);
    }
    GroupFlag(v, n, x, 0);
    BackParts(v, ScreenOf(u), 0, 0);
  }

  // ---------------------------------------------------------------------------
  // From another column: both directions
  // ---------------------------------------------------------------------------

  /** Behind the first group the rows start afresh. */
  lemma BehindReached(v: T, n: nat, x: nat)
    requires !v.altActive && 0 < x < v.w && AllCellsOk(v.main.rows) && AllPaired(v.main.rows)
    requires Screenful(v.main.rows, v.w) && GroupEnd(v.main.rows, 0) + 1 < |v.main.rows|
    ensures var a, b := GroupEnd(v.main.rows, 0) + 1, n + Over(v.main.rows, v.w - x);
      Reached(TapeAt(FreshTape(v.w, v.h, n, x), v.main.rows, a), v.main.rows, a, b + a, a)
  {
    hide AllCellsOk, Sound, Paired, AllPaired, Typeable, GroupEnd, Emitted, RowsFit, Over, Shifted, TapeAt, BrushAt;
    var rows, start, m := v.main.rows, FreshTape(v.w, v.h, n, x), GroupEnd(v.main.rows, 0);
    TermRows(v);
    FreshShifted(rows, v.w, v.h, n, x);
    GroupBroken(start, rows, n, v.w - x, m);
    ReachedHere(TapeAt(start, rows, m + 1), rows, m + 1, n + 1 + m + Over(rows, v.w - x));
  }

  lemma ReachedHere(t: Tape, rows: seq<Row>, a: nat, base: nat)
    requires Typeable(rows, t.w) && a < |rows| && !rows[a].wrapped
    requires |t.lines| == base + 1 && t.col == 0 && !t.lines[base].wrapped
    requires Last(t) == Blanks(t.w, if base < t.h then PLAIN else BrushAt(rows, a).pen)
    ensures Reached(t, rows, a, base, a)
  {
    hide Typeable, BrushAt, Emitted, Sound;
  }

  /** The first group is drawn well when its shape lets it. */
  lemma GroupDrawn(v: T, n: nat, x: nat, k: nat, c: nat)
    requires !v.altActive && 0 < x < v.w && n < v.h && AllCellsOk(v.main.rows) && AllPaired(v.main.rows) && RowsLaid(v, n, x)
    requires SiteOk(v.main.rows, SiteOf(v, n, x)) && k <= GroupEnd(v.main.rows, 0) && c < v.w
    requires |Carried(v, n, x).lines| == n + Over(v.main.rows, v.w - x) + v.h
    ensures var rows, row := v.main.rows, ScreenOf(Carried(v, n, x))[k];
      && |rows| == v.h && |row.cells| == v.w == |rows[k].cells| && row.wrapped == rows[k].wrapped
      && (if Redrawn(v) && k == v.main.cur.y && c == v.w - 1 then row.cells[c].width == 1 else row.cells[c] == rows[k].cells[c])
  {
    hide AllCellsOk, Carried, Sound, ScreenOf, Redrawn, Paired, AllPaired, Typeable, Emitted, Overflows, Drawn, Unshaken, BlankGroup,
      NoneBleeds, Chained;
    TermRows(v);
    var rows, g := v.main.rows, SiteOf(v, n, x);
    ShapeWell(rows, g);
    GroupShown(v, n, x, k, c);
    if k > 0 {
      assert rows[k].wrapped;
    }
  }

  lemma LaidCount(v: T, n: nat, x: nat)
    requires !v.altActive && 0 < x < v.w && n < v.h && AllCellsOk(v.main.rows) && AllPaired(v.main.rows)
    requires Screenful(v.main.rows, v.w) && Chained(v.main.rows, GroupEnd(v.main.rows, 0) + 1, v.w)
    ensures |Carried(v, n, x).lines| == n + Over(v.main.rows, v.w - x) + v.h
  {
    hide AllCellsOk, TapeAt, Sound, Paired, AllPaired, Typeable, Emitted, Over, Shifted, Chained, Lost, GroupEnd, Marks, RowsFit;
    var rows := v.main.rows;
    TermRows(v);
    FreshShifted(rows, v.w, v.h, n, x);
    FreshMarks(v.w, v.h, n, x);
    CarriedCounts(FreshTape(v.w, v.h, n, x), rows, n, v.w - x);
    LostChained(rows, v.w);
  }

  lemma LaidBeside(v: T, n: nat, x: nat)
    requires !v.altActive && 0 < x < v.w && AllCellsOk(v.main.rows) && RowsLaid(v, n, x)
    ensures var rows := v.main.rows; var m := GroupEnd(rows, 0);
      && AllPaired(rows) && SiteOk(rows, SiteOf(v, n, x)) && Screenful(rows, v.w) && Chained(rows, m + 1, v.w)
      && NoneBleeds(v.h, rows, m + 1, n + Over(rows, v.w - x), v.w) && |rows| == v.h
  {
    hide AllCellsOk, Sound, Redrawn, Paired, AllPaired, Typeable, GroupEnd, Emitted, Unshaken, BlankGroup, NoneBleeds, Chained, Overflows;
    SiteFits(v, n, x);
    TermRows(v);
    ShapeWell(v.main.rows, SiteOf(v, n, x));
  }

  lemma BesideRow(v: T, n: nat, x: nat, k: nat, c: nat)
    requires !v.altActive && 0 < x < v.w && n < v.h && AllCellsOk(v.main.rows) && RowsLaid(v, n, x) && k < v.h && c < v.w
    ensures var rows, row := v.main.rows, ScreenOf(Carried(v, n, x))[k];
      && |rows| == v.h && |row.cells| == v.w == |rows[k].cells| && row.wrapped == rows[k].wrapped
      && (if Redrawn(v) && k == v.main.cur.y && c == v.w - 1 then row.cells[c].width == 1 else row.cells[c] == rows[k].cells[c])
  {
    hide AllCellsOk, TapeAt, Sound, ScreenOf, Paired, AllPaired, Typeable, GroupEnd, Emitted, Over, Reached, Chained, NoneBleeds, RowsLaid;
    var rows, m := v.main.rows, GroupEnd(v.main.rows, 0);
    LaidBeside(v, n, x);
    LaidCount(v, n, x);
    TermRows(v);
    if k <= m {
      GroupDrawn(v, n, x, k, c);
    } else {
      BehindReached(v, n, x);
      LaterSame(v, FreshTape(v.w, v.h, n, x), m + 1, n + Over(rows, v.w - x));
    }
  }

  /** Rows that are laid right come back. */
  lemma BesideBack(v: T, n: nat, x: nat)
    requires !v.altActive && 0 < x < v.w && n < v.h && AllCellsOk(v.main.rows) && RowsLaid(v, n, x)
    requires Redrawn(v) ==> Line(v)[v.w - 1].link == []
    ensures Back(v, ScreenOf(Carried(v, n, x))) == v.main.rows
  {
    hide AllCellsOk, Carried, Sound, ScreenOf, Back, Redrawn, RowsLaid, Line;
    var rows, u := v.main.rows, Carried(v, n, x);
    TermRows(v);
    forall k, c | 0 <= k < v.h && 0 <= c < v.w
      ensures ScreenOf(u)[k].wrapped == rows[k].wrapped
      ensures if Redrawn(v) && k == v.main.cur.y && c == v.w - 1 then ScreenOf(u)[k].cells[c].width == 1 else ScreenOf(u)[k].cells[c] == rows[k].cells[c]
    {
      BesideRow(v, n, x, k, c);
    }
    forall k | 0 <= k < v.h ensures ScreenOf(u)[k].wrapped == rows[k].wrapped {
      BesideRow(v, n, x, k, 0);
    }
    if Redrawn(v) {
      BesideRow(v, n, x, v.main.cur.y, v.w - 1);
    }
    BackFrom(v, ScreenOf(u));
  }

  lemma BesideShape(v: T, n: nat, x: nat)
    requires !v.altActive && 0 < x < v.w && n < v.h && AllCellsOk(v.main.rows) && AllPaired(v.main.rows)
    requires SiteOk(v.main.rows, SiteOf(v, n, x)) && Back(v, ScreenOf(Carried(v, n, x))) == v.main.rows
    ensures var rows := v.main.rows;
      && Unshaken(rows, SiteOf(v, n, x)) && (Over(rows, v.w - x) == 1 <==> !BlankGroup(rows, v.w))
      && rows[0].wrapped == (v.h == 1 && Over(rows, v.w - x) == 1)
  {
    hide AllCellsOk, Carried, Sound, ScreenOf, Back, Paired, AllPaired, Typeable, Unshaken, BlankGroup, Overflows, ComesBack, Redrawn, GroupEnd;
    GroupComesBack(v, n, x);
    ShapeOf(v.main.rows, SiteOf(v, n, x));
    ShapeWell(v.main.rows, SiteOf(v, n, x));
    OverIs(v.main.rows, v.w - x);
  }

  lemma BesideBehind(v: T, n: nat, x: nat)
    requires !v.altActive && 0 < x < v.w && n < v.h && AllCellsOk(v.main.rows) && AllPaired(v.main.rows)
    requires Screenful(v.main.rows, v.w) && Back(v, ScreenOf(Carried(v, n, x))) == v.main.rows
    ensures var rows := v.main.rows; var m := GroupEnd(rows, 0);
      Chained(rows, m + 1, v.w) && NoneBleeds(v.h, rows, m + 1, n + Over(rows, v.w - x), v.w)
  {
    hide AllCellsOk, TapeAt, Sound, ScreenOf, Back, Paired, AllPaired, Typeable, GroupEnd, NoneBleeds, Chained, Reached, Over, Lost;
    var rows, m := v.main.rows, GroupEnd(v.main.rows, 0);
    TermRows(v);
    NoneLost(v, n, x);
    LostChained(rows, v.w);
    if m + 1 < v.h {
      BehindReached(v, n, x);
    }
    LaterSame(v, FreshTape(v.w, v.h, n, x), m + 1, n + Over(rows, v.w - x));
  }

  /** Rows that come back are laid right. */
  lemma BesideLaid(v: T, n: nat, x: nat)
    requires !v.altActive && 0 < x < v.w && n < v.h && AllCellsOk(v.main.rows) && Back(v, ScreenOf(Carried(v, n, x))) == v.main.rows
    ensures RowsLaid(v, n, x)
  {
    hide AllCellsOk, Carried, Sound, ScreenOf, Back, Redrawn, Paired, AllPaired, Typeable, GroupEnd, Unshaken, BlankGroup, NoneBleeds, Chained,
      Line;
    PairedAgain(v, Carried(v, n, x));
    SiteFits(v, n, x);
    BesideShape(v, n, x);
    BesideBehind(v, n, x);
  }

  /** The rows come back exactly when they are laid right for where they are typed from,
      and the cell that is written again has no link. */
  lemma RowsExact(v: T, n: nat, x: nat)
    requires !v.altActive && AllCellsOk(v.main.rows) && n < v.h && x < v.w
    ensures Back(v, ScreenOf(Carried(v, n, x))) == v.main.rows <==>
              RowsLaid(v, n, x) && (Redrawn(v) ==> Line(v)[v.w - 1].link == [])
  {
    hide AllCellsOk, Carried, Sound, ScreenOf, Back, Redrawn, RowsLaid, Line;
    if x == 0 {
      MarginExact(v, n);
    } else {
      if Back(v, ScreenOf(Carried(v, n, x))) == v.main.rows {
        BesideLaid(v, n, x);
        PairedAgain(v, Carried(v, n, x));
      }
      if RowsLaid(v, n, x) && (Redrawn(v) ==> Line(v)[v.w - 1].link == []) {
        BesideBack(v, n, x);
      }
    }
  }

  // ---------------------------------------------------------------------------
  // What does not come back
  // ---------------------------------------------------------------------------

  /** A first row that begins with a narrow character, typed from another column than
      the first: whatever its length and whatever continues it, it does not come back,
      unless a cell of it or of its continuations is written again. */
  lemma TitleMoves(v: T, n: nat, x: nat)
    requires !v.altActive && AllCellsOk(v.main.rows) && n < v.h && 0 < x < v.w
    requires v.main.rows != [] && v.main.rows[0].cells != []
    requires v.main.rows[0].cells[0].width == 1 && v.main.rows[0].cells[0].ch != []
    requires Redrawn(v) ==> v.main.cur.y > GroupEnd(v.main.rows, 0)
    ensures !RowsLaid(v, n, x)
  {
    hide AllCellsOk, AllPaired, GroupEnd, Typeable, Chained, NoneBleeds, Settled, Emitted, Redrawn;
    if AllPaired(v.main.rows) {
      SiteFits(v, n, x);
      var rows, g := v.main.rows, SiteOf(v, n, x);
      assert BlankGroup(rows, v.w) ==> AllBlank(rows, v.w, 0);
      if TiledGroup(rows, g) {
        TilesBlank(rows, g, GroupEnd(rows, 0) + 1, LastGround(rows, g, g.room), g.room);
      } else if Returns(rows, g) {
        var r :| 0 <= r <= GroupEnd(rows, 0) && Absorbed(rows, g, r);
        if r > 0 {
          TilesBlank(rows, g, r, Blank(rows[r].cells[0].style), 1);
        }
      }
    }
  }

  /** Tiles without a cell that is written again are blank. */
  lemma TilesBlank(rows: seq<Row>, g: Site, n: nat, gap: Cell, s: nat)
    requires SiteOk(rows, g) && 0 < n <= |rows| && s > 0 && gap.ch == [] && At(g, n) == -1 && AllTiled(rows, g, n, gap, s)
    ensures rows[0].cells != [] && rows[0].cells[0].ch == []
  {
    hide Typeable, AllCellsOk;
    assert Tiling(rows, g, n, gap, s, 0);
  }

  /** A first row on its own that writes something comes back in two cases only: with one
      column left and a wide character at its head, which goes to the next line; or
      filling the line and repeating itself every so many cells as are left. */
  lemma FirstRowAlone(v: T, n: nat, x: nat)
    requires !v.altActive && AllCellsOk(v.main.rows) && n < v.h && 0 < x < v.w && RowsLaid(v, n, x)
    requires v.main.rows != [] && GroupEnd(v.main.rows, 0) == 0 && Emitted(v.main.rows, 0) != []
    ensures SiteOk(v.main.rows, SiteOf(v, n, x))
    ensures (x == v.w - 1 && v.main.rows[0].cells[0].width == 2) || TiledGroup(v.main.rows, SiteOf(v, n, x))
  {
    hide AllCellsOk, AllPaired, Typeable, Chained, NoneBleeds, Settled, Redrawn, TiledGroup;
    SiteFits(v, n, x);
    var rows, g := v.main.rows, SiteOf(v, n, x);
    if BlankGroup(rows, v.w) {
      assert AllBlank(rows, v.w, 0);
      BlankShows(rows, v.w);
    }
  }

  lemma BlankShows(rows: seq<Row>, w: int)
    requires rows != [] && RowsFit(rows, w) && AllBlank(rows, w, 0) && GroupEnd(rows, 0) == 0
    ensures Emitted(rows, 0) == []
  {
    LastVisibleIs(rows[0].cells, 0);
  }
}
