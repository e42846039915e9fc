/** The rows of an alternate screen typed from a column to the right of the margin:
    where the first of them, with those that continue it, end up. */
module Shifting {
  import opened Cells
  import opened Terminal
  import opened Snapshots
  import opened Content
  import opened Typewriter
  import opened Receiving
  import opened Alignment
  import opened Tallies

  /** The last row that continues row k. */
  function GroupEnd(rows: seq<Row>, k: nat): (m: nat)
    requires k < |rows|
    ensures k <= m < |rows| && (m + 1 < |rows| ==> !rows[m + 1].wrapped) && forall j :: k < j <= m ==> rows[j].wrapped
    decreases |rows| - k
  {
    if k + 1 < |rows| && rows[k + 1].wrapped then GroupEnd(rows, k + 1) else k
  }

  /** A screen's rows: all of the same width. */
  predicate Screenful(rows: seq<Row>, w: int) {
    w >= 2 && rows != [] && Typeable(rows, w) && AllCellsOk(rows) && RowsFit(rows, w)
  }

  /** How many cells of row k go to the line on which the row before it ended; `room`
      is what the first row has. */
  function Lead(rows: seq<Row>, room: nat, k: nat): (n: nat)
    requires k < |rows|
    ensures n <= |Emitted(rows, k)| && n <= room
  {
    Cut(Emitted(rows, k), if k == 0 then room else Lead(rows, room, k - 1))
  }

  lemma LeadLess(rows: seq<Row>, room: nat, k: nat)
    requires 0 < k < |rows|
    ensures Lead(rows, room, k) <= Lead(rows, room, k - 1)
  {
    hide Emitted;
  }

  /** Behind row k there is another of its group. */
  lemma InnerFull(rows: seq<Row>, w: int, k: nat)
    requires Screenful(rows, w) && k < GroupEnd(rows, 0)
    ensures |Emitted(rows, k)| == w && Emitted(rows, k) == rows[k].cells && rows[k + 1].wrapped
  {
    hide Typeable, AllCellsOk, GroupEnd;
    assert rows[k + 1].wrapped;
  }

  /** What a line that scrolls in is written on, when a wrap makes it line n. */
  function Ground(h: int, n: nat, st: Style): Cell { Blank(if n < h then PLAIN else st) }

  /** Column c of the tape's line on which row k begins: it begins behind the rest of
      the row before it, or, if it is the first, in the column `w - room`. */
  function Body(rows: seq<Row>, w: int, h: int, n: nat, room: nat, k: nat, c: nat): Cell
    requires k < |rows| && room <= w && c < w && (k > 0 ==> |Emitted(rows, k - 1)| == w > room)
  {
    var e, s := Emitted(rows, k), Lead(rows, room, k);
    var a := if k == 0 then w - room else w - Lead(rows, room, k - 1);
    if c < a then (if k == 0 then BLANK else Emitted(rows, k - 1)[Lead(rows, room, k - 1) + c])
    else if c < a + s then e[c - a]
    else if s < |e| then Blank(e[s].style)
    else if k == 0 then BLANK
    else Ground(h, n + k, Emitted(rows, k - 1)[Lead(rows, room, k - 1)].style)
  }

  /** Column c of the line to which the rest of row k goes. */
  function Rest(rows: seq<Row>, h: int, n: nat, room: nat, k: nat, c: nat): Cell
    requires k < |rows| && Lead(rows, room, k) < |Emitted(rows, k)|
  {
    var e, s := Emitted(rows, k), Lead(rows, room, k);
    if c < |e| - s then e[s + c] else Ground(h, n + k + 1, e[s].style)
  }

  /** The tape when row k of the first group is reached. */
  predicate Shifted(t: Tape, rows: seq<Row>, n: nat, room: nat, k: nat)
    requires k < |rows| && room < t.w && (k > 0 ==> |Emitted(rows, k - 1)| == t.w)
  {
    && |t.lines| == n + 1 + k
    && t.col == (if k == 0 then t.w - room else t.w - Lead(rows, room, k - 1))
    && (k > 0 ==> t.lines[n + k].wrapped)
    && (k == 0 ==> Marks(t.lines) == 0 && Last(t) == Blanks(t.w, PLAIN))
    && (k > 0 ==> forall c :: 0 <= c < t.w ==> Last(t)[c] == Rest(rows, t.h, n, room, k - 1, c))
  }

  lemma FreshShifted(rows: seq<Row>, w: nat, h: nat, n: nat, x: nat)
    requires Screenful(rows, w) && h >= 1 && 0 < x < w
    ensures Shifted(FreshTape(w, h, n, x), rows, n, w - x, 0)
  {
    hide Typeable, AllCellsOk, Sound;
    FreshMarks(w, h, n, x);
  }

  /** One row more. */
  lemma ShiftStep(t: Tape, rows: seq<Row>, n: nat, room: nat, k: nat, c: nat)
    requires Screenful(rows, t.w) && room < t.w && k <= GroupEnd(rows, 0) && c < t.w
    requires k > 0 ==> |Emitted(rows, k - 1)| == t.w
    requires Shifted(t, rows, n, room, k)
    ensures CellsOk(Emitted(rows, k)) && |Emitted(rows, k)| <= t.w
    ensures var u := TypeAll(t, Emitted(rows, k)); var s := Lead(rows, room, k);
      && u.w == t.w && u.h == t.h
      && (s == |Emitted(rows, k)| ==> |u.lines| == n + 1 + k)
      && (s < |Emitted(rows, k)| ==>
            && |u.lines| == n + 2 + k && u.col == |Emitted(rows, k)| - s && u.lines[n + 1 + k].wrapped
            && u.lines[n + 1 + k].cells[c] == Rest(rows, t.h, n, room, k, c))
      && u.lines[n + k].cells[c] == Body(rows, t.w, t.h, n, room, k, c)
  {
    hide Sound, Typeable, AllCellsOk, Emitted, TypeAll, LineOk, CellsOk, Paired, GroupEnd, Cut, Extends, RowsFit, Marks;
    var e := Emitted(rows, k);
    EmittedIs(rows, k, t.w);
    TapeShape(t);
    if t.col + |e| <= t.w {
      CutAll(e, t.w - t.col);
      InkAll(t, e);
      InkedAt(t, e, c);
    } else {
      CutAt(t, e, c);
      TypeAllExtends(t, e);
      if c < t.col {
        ExtendsCol(t, TypeAll(t, e), c);
      }
    }
  }

  lemma CutAll(e: seq<Cell>, room: nat)
    requires |e| <= room
    ensures Cut(e, room) == |e|
  {
  }

  lemma ExtendsCol(t: Tape, u: Tape, c: nat)
    requires Extends(t, u) && c < t.col
    ensures |u.lines| >= |t.lines| > 0 && c < |u.lines[|t.lines| - 1].cells| && u.lines[|t.lines| - 1].cells[c] == Last(t)[c]
  {
  }

  /** The first group is typed as far as row k. */
  lemma {:induction false} ShiftAt(start: Tape, rows: seq<Row>, n: nat, room: nat, k: nat)
    requires Screenful(rows, start.w) && room < start.w && Shifted(start, rows, n, room, 0) && k <= GroupEnd(rows, 0)
    ensures (k > 0 ==> |Emitted(rows, k - 1)| == start.w) && Shifted(TapeAt(start, rows, k), rows, n, room, k)
    decreases k
  {
    hide Sound, Typeable, Emitted, AllCellsOk, TypeAll, Typed, Shifted, TapeAt, RowsFit, GroupEnd;
    if k == 0 {
      FirstAt(start, rows);
    } else {
      ShiftAt(start, rows, n, room, k - 1);
      InnerFull(rows, start.w, k - 1);
      TapeNext(start, rows, k - 1);
      ShiftMore(TapeAt(start, rows, k - 1), rows, n, room, k - 1);
    }
  }

  lemma FirstAt(start: Tape, rows: seq<Row>)
    requires AllCellsOk(rows)
    ensures TapeAt(start, rows, 0) == start
  {
    hide Sound;
  }

  lemma ShiftMore(t: Tape, rows: seq<Row>, n: nat, room: nat, k: nat)
    requires Screenful(rows, t.w) && room < t.w && k < GroupEnd(rows, 0) && |Emitted(rows, k)| == t.w && rows[k + 1].wrapped
    requires (k > 0 ==> |Emitted(rows, k - 1)| == t.w) && Shifted(t, rows, n, room, k)
    ensures Shifted(Typed(t, rows, k), rows, n, room, k + 1)
  {
    hide Sound, Typeable, Emitted, AllCellsOk, TypeAll, Shifted, RowsFit, GroupEnd, Rest, Body, Marks;
    EmittedIs(rows, k, t.w);
    var u := TypeAll(t, Emitted(rows, k));
    ShiftStep(t, rows, n, room, k, 0);
    LeadShort(rows, room, k);
    TapeShape(u);
    TypedIs(t, rows, k);
    forall c | 0 <= c < t.w ensures u.lines[n + 1 + k].cells[c] == Rest(rows, t.h, n, room, k, c) {
      ShiftStep(t, rows, n, room, k, c);
    }
    ShiftedFrom(u, rows, n, room, k);
  }

  lemma ShiftedFrom(u: Tape, rows: seq<Row>, n: nat, room: nat, k: nat)
    requires k + 1 < |rows| && room < u.w && |Emitted(rows, k)| == u.w && Lead(rows, room, k) < u.w
    requires |u.lines| == n + 2 + k && u.col == u.w - Lead(rows, room, k) && u.lines[n + 1 + k].wrapped
    requires forall c :: 0 <= c < u.w ==> u.lines[n + 1 + k].cells[c] == Rest(rows, u.h, n, room, k, c)
    ensures Shifted(u, rows, n, room, k + 1)
  {
    hide Emitted, Rest, Marks, Lead;
  }

  /** The last row of the first group does not fit behind the one before it. */
  predicate Overflows(rows: seq<Row>, room: nat)
    requires rows != []
  {
    Lead(rows, room, GroupEnd(rows, 0)) < |Emitted(rows, GroupEnd(rows, 0))|
  }

  /** How many lines more than its rows the first group takes. */
  function Over(rows: seq<Row>, room: nat): (o: nat)
    requires rows != []
    ensures o == 0 || o == 1
  {
    if Overflows(rows, room) then 1 else 0
  }

  /** The tape behind the first group. */
  lemma GroupTyped(start: Tape, rows: seq<Row>, n: nat, room: nat, m: nat)
    requires Screenful(rows, start.w) && room < start.w && Shifted(start, rows, n, room, 0) && m == GroupEnd(rows, 0)
    ensures CellsOk(Emitted(rows, m)) && |TypeAll(TapeAt(start, rows, m), Emitted(rows, m)).lines| == n + 1 + m + Over(rows, room)
  {
    hide Sound, Typeable, Emitted, AllCellsOk, TypeAll, Shifted, RowsFit, Rest, Body, Lead, BrushAt, NewLine, TapeAt, Typed, CellsOk, GroupEnd;
    ShiftAt(start, rows, n, room, m);
    TapeNext(start, rows, m);
    ShiftStep(TapeAt(start, rows, m), rows, n, room, m, 0);
    LeadWhole(rows, room, m);
  }

  /** And behind the line break after it. */
  lemma GroupBroken(start: Tape, rows: seq<Row>, n: nat, room: nat, m: nat)
    requires Screenful(rows, start.w) && room < start.w && Shifted(start, rows, n, room, 0) && m == GroupEnd(rows, 0) && m + 1 < |rows|
    ensures var v, k := TapeAt(start, rows, m + 1), n + 1 + m + Over(rows, room);
      && |v.lines| == k + 1 && v.col == 0 && !v.lines[k].wrapped && v.w == start.w && v.h == start.h
      && Last(v) == Blanks(v.w, if k < v.h then PLAIN else BrushAt(rows, m + 1).pen)
  {
    hide Sound, Typeable, Emitted, AllCellsOk, TypeAll, Shifted, RowsFit, Rest, Body, Lead, BrushAt, NewLine, TapeAt, Typed, CellsOk, Over;
    GroupTyped(start, rows, n, room, m);
    TapeNext(start, rows, m);
    TypedIs(TapeAt(start, rows, m), rows, m);
    NextLineIs(TypeAll(TapeAt(start, rows, m), Emitted(rows, m)), BrushAt(rows, m + 1), n + 1 + m + Over(rows, room));
  }

  lemma NextLineIs(u: Tape, brush: Brush, k: nat)
    requires k == |u.lines|
    ensures var v := NewLine(u, brush.pen, false);
      |v.lines| == k + 1 && v.col == 0 && !v.lines[k].wrapped && v.w == u.w && v.h == u.h
      && Last(v) == Blanks(v.w, if k < v.h then PLAIN else brush.pen)
  {
    hide NewLine, Sound;
    FeedIs(u, brush.pen, false, k);
  }

  lemma LeadWhole(rows: seq<Row>, room: nat, k: nat)
    requires k < |rows|
    ensures Lead(rows, room, k) <= |Emitted(rows, k)|
  {
    hide Emitted;
  }

  /** In the end the lines of the first group are as they were left. */
  lemma GroupLine(start: Tape, rows: seq<Row>, n: nat, room: nat, k: nat, c: nat)
    requires Screenful(rows, start.w) && room < start.w && Shifted(start, rows, n, room, 0) && k <= GroupEnd(rows, 0) && c < start.w
    ensures k > 0 ==> |Emitted(rows, k - 1)| == start.w
    ensures var u := TapeAt(start, rows, |rows|);
      && n + k < |u.lines| && |u.lines[n + k].cells| == start.w
      && u.lines[n + k].cells[c] == Body(rows, start.w, start.h, n, room, k, c)
      && (k > 0 ==> u.lines[n + k].wrapped == (start.h == 1 || n + k > |u.lines| - start.h))
  {
    hide Sound, Typeable, Emitted, AllCellsOk, TypeAll, Shifted, RowsFit, Rest, Body, Lead, BrushAt, NewLine, TapeAt, Typed, CellsOk, Extends;
    var m := GroupEnd(rows, 0);
    var t, e := TapeAt(start, rows, k), Emitted(rows, k);
    ShiftAt(start, rows, n, room, k);
    TapeNext(start, rows, k);
    ShiftStep(t, rows, n, room, k, c);
    ShiftedMark(t, rows, n, room, k);
    LeadWhole(rows, room, k);
    RowStays(start, rows, k);
    var u := TypeAll(t, e);
    TypeAllExtends(t, e);
    ExtendsMore(t, u, TapeAt(start, rows, |rows|));
    ExtendsMark(t, TapeAt(start, rows, |rows|), n + k);
    TapeShape(TapeAt(start, rows, |rows|));
    if k < m {
      InnerFull(rows, start.w, k);
      LeadShort(rows, room, k);
      Frozen(u, TapeAt(start, rows, |rows|), n + k);
    } else {
      EndStays(start, rows, m, n + k);
    }
  }

  lemma LeadShort(rows: seq<Row>, room: nat, k: nat)
    requires k < |rows|
    ensures Lead(rows, room, k) <= room
  {
    hide Emitted;
  }

  lemma ShiftedMark(t: Tape, rows: seq<Row>, n: nat, room: nat, k: nat)
    requires k < |rows| && room < t.w && (k > 0 ==> |Emitted(rows, k - 1)| == t.w) && Shifted(t, rows, n, room, k)
    ensures |t.lines| == n + 1 + k && (k > 0 ==> t.lines[n + k].wrapped)
  {
    hide Emitted, Lead, Rest, Marks;
  }

  lemma ExtendsMark(t: Tape, u: Tape, k: nat)
    requires Extends(t, u) && k < |t.lines|
    ensures k < |u.lines| && u.lines[k].wrapped == (t.lines[k].wrapped && (t.h == 1 || k > |u.lines| - t.h)) && u.w == t.w && u.h == t.h
  {
  }

  /** Behind the last row of a group there is a line break or nothing. */
  lemma EndStays(start: Tape, rows: seq<Row>, m: nat, i: nat)
    requires AllCellsOk(rows) && m < |rows| && (m + 1 < |rows| ==> !rows[m + 1].wrapped) && CellsOk(Emitted(rows, m))
    requires i < |TypeAll(TapeAt(start, rows, m), Emitted(rows, m)).lines|
    ensures var u, v := TypeAll(TapeAt(start, rows, m), Emitted(rows, m)), TapeAt(start, rows, |rows|);
      && i < |v.lines| && v.lines[i].cells == u.lines[i].cells && u.h == start.h
      && v.lines[i].wrapped == (u.lines[i].wrapped && (u.h == 1 || i > |v.lines| - u.h))
  {
    hide *;
    EndCells(start, rows, m, i);
    EndMark(start, rows, m, i);
  }

  lemma EndMark(start: Tape, rows: seq<Row>, m: nat, i: nat)
    requires AllCellsOk(rows) && m < |rows| && CellsOk(Emitted(rows, m))
    requires i < |TypeAll(TapeAt(start, rows, m), Emitted(rows, m)).lines|
    ensures var u, v := TypeAll(TapeAt(start, rows, m), Emitted(rows, m)), TapeAt(start, rows, |rows|);
      i < |v.lines| && v.lines[i].wrapped == (u.lines[i].wrapped && (u.h == 1 || i > |v.lines| - u.h)) && u.h == start.h
  {
    hide *;
    TapeNext(start, rows, m);
    TypeAllSize(TapeAt(start, rows, m), Emitted(rows, m));
    RowStays(start, rows, m);
    var u, v := TypeAll(TapeAt(start, rows, m), Emitted(rows, m)), TapeAt(start, rows, |rows|);
    ExtendsMark(u, v, i);
  }

  lemma TypeAllSize(t: Tape, cells: seq<Cell>)
    requires CellsOk(cells)
    ensures TypeAll(t, cells).w == t.w && TypeAll(t, cells).h == t.h
  {
    hide CellsOk, Sound;
  }

  lemma EndCells(start: Tape, rows: seq<Row>, m: nat, i: nat)
    requires AllCellsOk(rows) && m < |rows| && (m + 1 < |rows| ==> !rows[m + 1].wrapped) && CellsOk(Emitted(rows, m))
    requires i < |TypeAll(TapeAt(start, rows, m), Emitted(rows, m)).lines|
    ensures var u, v := TypeAll(TapeAt(start, rows, m), Emitted(rows, m)), TapeAt(start, rows, |rows|);
      i < |v.lines| && v.lines[i].cells == u.lines[i].cells
  {
    hide *;
    TapeNext(start, rows, m);
    EndBreak(TapeAt(start, rows, m), rows, m, i);
    if m + 1 < |rows| {
      TapeExtends(start, rows, m + 1, |rows|);
      Frozen(TapeAt(start, rows, m + 1), TapeAt(start, rows, |rows|), i);
    }
  }

  lemma EndBreak(t: Tape, rows: seq<Row>, m: nat, i: nat)
    requires AllCellsOk(rows) && m < |rows| && (m + 1 < |rows| ==> !rows[m + 1].wrapped)
    requires CellsOk(Emitted(rows, m)) && i < |TypeAll(t, Emitted(rows, m)).lines|
    ensures TypeAll(t, Emitted(rows, m)).w == t.w && TypeAll(t, Emitted(rows, m)).h == t.h
    ensures var u, v := TypeAll(t, Emitted(rows, m)), Typed(t, rows, m);
      && (m + 1 == |rows| ==> v == u)
      && (m + 1 < |rows| ==> i < |v.lines| - 1 && v.lines[i].cells == u.lines[i].cells)
  {
    hide Sound, Emitted, AllCellsOk, TypeAll, BrushAt, NewLine, Typed, CellsOk;
    TypedIs(t, rows, m);
    FeedIs(TypeAll(t, Emitted(rows, m)), BrushAt(rows, m + 1).pen, false, i);
  }

  /** And so is the line to which the rest of the last row goes. */
  lemma RestLine(start: Tape, rows: seq<Row>, n: nat, room: nat, c: nat)
    requires Screenful(rows, start.w) && room < start.w && Shifted(start, rows, n, room, 0) && Overflows(rows, room) && c < start.w
    ensures var m, u := GroupEnd(rows, 0), TapeAt(start, rows, |rows|);
      && n + m + 1 < |u.lines| && |u.lines[n + m + 1].cells| == start.w
      && u.lines[n + m + 1].cells[c] == Rest(rows, start.h, n, room, m, c)
      && u.lines[n + m + 1].wrapped == (start.h == 1 || n + m + 1 > |u.lines| - start.h)
  {
    hide Sound, Typeable, Emitted, AllCellsOk, TypeAll, Shifted, RowsFit, Rest, Body, Lead, BrushAt, NewLine, TapeAt, Typed, CellsOk, Extends;
    var m := GroupEnd(rows, 0);
    ShiftAt(start, rows, n, room, m);
    TapeNext(start, rows, m);
    ShiftStep(TapeAt(start, rows, m), rows, n, room, m, c);
    EndStays(start, rows, m, n + m + 1);
    TapeShape(TapeAt(start, rows, |rows|));
  }
}
