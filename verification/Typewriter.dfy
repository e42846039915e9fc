/** What a terminal holds to which lines are written, read as one list: the lines
    that scrolled off and those on its screen. */
module Typewriter {
  import opened Cells
  import opened Terminal
  import opened Snapshots
  import opened Content
  import opened Paint

  /** Lines of w columns, at most h of them on the screen; what comes next goes to
      column `col` of the last line, and column w is a pending wrap. */
  datatype Strip = Strip(w: int, h: int, lines: seq<Row>, col: int)

  /** The oldest line and those up to the first on the screen continue nothing,
      unless the screen is a single row. */
  predicate Cleared(lines: seq<Row>, h: int) {
    && lines != [] && !lines[0].wrapped
    && (h > 1 ==> forall k :: 0 <= k < |lines| && k <= |lines| - h ==> !lines[k].wrapped)
  }

  predicate Sound(t: Strip) {
    && t.w >= 2 && t.h >= 1 && Cleared(t.lines, t.h)
    && RowsFit(t.lines, t.w) && AllPaired(t.lines)
    && 0 <= t.col <= t.w && Fresh(t.lines[|t.lines| - 1].cells, t.col)
  }

  type Tape = t: Strip | Sound(t) witness Strip(2, 1, [BlankRow(2, PLAIN)], 0)

  /** n blank lines, and the cursor in a column of one more. */
  function FreshTape(w: nat, h: nat, n: nat, x: nat): Tape
    requires x <= w && w >= 2 && h >= 1
  {
    Strip(w, h, BlankRows(n + 1, w, PLAIN), x)
  }

  function Last(t: Tape): (cells: seq<Cell>)
    ensures |cells| == t.w
  {
    t.lines[|t.lines| - 1].cells
  }

  /** The line that becomes the first on the screen no longer continues anything. */
  function Risen(lines: seq<Row>, h: nat): (r: seq<Row>)
    ensures |r| == |lines|
  {
    var top := |lines| + 1 - h;
    if h > 1 && top >= 0 then lines[top := lines[top].(wrapped := false)] else lines
  }

  lemma RisenIs(lines: seq<Row>, h: nat, k: nat)
    requires k < |lines|
    ensures Risen(lines, h)[k].cells == lines[k].cells
    ensures Risen(lines, h)[k].wrapped == (lines[k].wrapped && (h == 1 || k != |lines| + 1 - h))
  {
  }

  lemma FeedSound(t: Tape, pen: Style, mark: bool)
    ensures Sound(Strip(t.w, t.h, Risen(t.lines, t.h) + [Row(Blanks(t.w, pen), mark)], 0))
  {
    hide Risen, Paired;
    var kept := Risen(t.lines, t.h);
    var lines := kept + [Row(Blanks(t.w, pen), mark)];
    forall k | 0 <= k < |kept| ensures |kept[k].cells| == t.w && Paired(kept[k].cells) && (k <= |lines| - t.h ==> t.h > 1 ==> !kept[k].wrapped) && (kept[k].wrapped ==> t.lines[k].wrapped) {
      RisenIs(t.lines, t.h, k);
    }
    BlanksPaired(t.w, pen);
  }

  lemma BlanksPaired(n: nat, pen: Style)
    ensures Paired(Blanks(n, pen)) && Fresh(Blanks(n, pen), 0)
  {
  }

  /** On to a new line: one that scrolls in has the background of the pen. */
  function NewLine(t: Tape, pen: Style, mark: bool): Tape {
    var paper := if |t.lines| < t.h then PLAIN else pen;
    FeedSound(t, paper, mark);
    Strip(t.w, t.h, Risen(t.lines, t.h) + [Row(Blanks(t.w, paper), mark)], 0)
  }

  /** A character in its place. */
  function Strike(t: Tape, c: Cell): Tape
    requires 1 <= c.width <= 2 && t.col + c.width <= t.w
  {
    var n := |t.lines| - 1;
    StrikeSound(Last(t), t.col, c);
    t.(lines := t.lines[n := t.lines[n].(cells := Stored(Last(t), t.col, c))], col := t.col + c.width)
  }

  lemma StrikeSound(cells: seq<Cell>, x: int, c: Cell)
    requires 0 <= x && 1 <= c.width <= 2 && x + c.width <= |cells| && Fresh(cells, x) && Paired(cells)
    ensures Fresh(Stored(cells, x, c), x + c.width) && Paired(Stored(cells, x, c))
  {
    var r := Stored(cells, x, c);
    forall i | 0 <= i < |r| && r[i].width == 2 ensures i + 1 < |r| && r[i + 1] == Half(r[i]) {
      if i < x {
        assert cells[i + 1].width == 0;
        assert i + 1 < x;
      }
    }
  }

  /** A wide character that does not fit in the last column leaves it blank. */
  function Gapped(t: Tape, st: Style): (r: Tape)
    ensures r.w == t.w && r.h == t.h && |r.lines| == |t.lines|
  {
    if t.col < t.w then Strike(t, Blank(st)) else t
  }

  /** The tape when what does not fit goes to the next one. */
  function Wrapped(t: Tape, st: Style): (r: Tape)
    ensures r.w == t.w && r.h == t.h && r.col == 0
  {
    NewLine(Gapped(t, st), st, true)
  }

  /** A character, on the next line when it does not fit. */
  function Type(t: Tape, c: Cell): (r: Tape)
    requires 1 <= c.width <= 2
    ensures r.w == t.w && r.h == t.h
  {
    if t.col + c.width <= t.w then Strike(t, c)
    else Strike(Wrapped(t, c.style), c)
  }

  /** Cells one after the other; halves of wide characters write nothing. */
  function TypeAll(t: Tape, cells: seq<Cell>): (r: Tape)
    requires CellsOk(cells)
    ensures r.w == t.w && r.h == t.h
    decreases |cells|
  {
    if cells == [] then t
    else
      assert CellOk(cells[0]);
      TypeAll(if cells[0].width == 0 then t else Type(t, cells[0]), cells[1..])
  }

  /** The rendition and link in force when line k is reached. */
  function BrushAt(lines: seq<Row>, k: nat): Brush
    requires k <= |lines|
  {
    if k == 0 then DRY else DipAll(BrushAt(lines, k - 1), Emitted(lines, k - 1))
  }

  lemma EmittedCellsOk(lines: seq<Row>, k: nat)
    requires AllCellsOk(lines) && k < |lines|
    ensures CellsOk(Emitted(lines, k))
  {
    hide CellOk;
  }

  /** Line k written, and the line break after it. */
  function Typed(t: Tape, lines: seq<Row>, k: nat): (r: Tape)
    requires AllCellsOk(lines) && k < |lines|
    ensures r.w == t.w && r.h == t.h
  {
    EmittedCellsOk(lines, k);
    var t1 := TypeAll(t, Emitted(lines, k));
    if k + 1 < |lines| && !lines[k + 1].wrapped then NewLine(t1, BrushAt(lines, k + 1).pen, false) else t1
  }

  /** The tape when line k is reached. */
  function TapeAt(start: Tape, lines: seq<Row>, k: nat): (r: Tape)
    requires AllCellsOk(lines) && k <= |lines|
    ensures r.w == start.w && r.h == start.h
  {
    if k == 0 then start else Typed(TapeAt(start, lines, k - 1), lines, k - 1)
  }

  // ---------------------------------------------------------------------------
  // What stays
  // ---------------------------------------------------------------------------

  /** `u` is `t` with more written: all that was written on t is there, and its lines
      are marked as they were but for those that reached the top of the screen. */
  predicate Extends(t: Tape, u: Tape) {
    && u.w == t.w && u.h == t.h && |u.lines| >= |t.lines|
    && (forall k :: 0 <= k < |t.lines| ==> u.lines[k].wrapped == (t.lines[k].wrapped && (t.h == 1 || k > |u.lines| - t.h)))
    && (forall k :: 0 <= k < |t.lines| - 1 ==> u.lines[k].cells == t.lines[k].cells)
    && (forall x :: 0 <= x < t.col ==> u.lines[|t.lines| - 1].cells[x] == Last(t)[x])
    && (|u.lines| == |t.lines| ==> u.col >= t.col)
  }

  lemma ExtendsMore(t: Tape, u: Tape, v: Tape)
    requires Extends(t, u) && Extends(u, v)
    ensures Extends(t, v)
  {
    var n := |t.lines| - 1;
    forall x | 0 <= x < t.col ensures v.lines[n].cells[x] == Last(t)[x] {
      if |u.lines| == |t.lines| {
        assert Last(u)[x] == Last(t)[x];
      }
    }
    forall k | 0 <= k < |t.lines| ensures v.lines[k].wrapped == (t.lines[k].wrapped && (t.h == 1 || k > |v.lines| - t.h)) {
      assert u.lines[k].wrapped == (t.lines[k].wrapped && (t.h == 1 || k > |u.lines| - t.h));
    }
  }

  lemma StrikeExtends(t: Tape, c: Cell)
    requires 1 <= c.width <= 2 && t.col + c.width <= t.w
    ensures Extends(t, Strike(t, c))
  {
  }

  lemma FeedExtends(t: Tape, pen: Style, mark: bool)
    ensures Extends(t, NewLine(t, pen, mark))
  {
    var u := NewLine(t, pen, mark);
    forall k | 0 <= k < |t.lines|
      ensures u.lines[k].cells == t.lines[k].cells
      ensures u.lines[k].wrapped == (t.lines[k].wrapped && (t.h == 1 || k > |u.lines| - t.h))
    {
      RisenIs(t.lines, t.h, k);
    }
  }

  lemma GappedExtends(t: Tape, st: Style)
    ensures Extends(t, Gapped(t, st))
  {
    hide Sound, Extends;
    if t.col < t.w {
      StrikeExtends(t, Blank(st));
    } else {
      ExtendsSame(t);
    }
  }

  lemma ExtendsSame(t: Tape)
    ensures Extends(t, t)
  {
  }

  lemma TypeExtends(t: Tape, c: Cell)
    requires 1 <= c.width <= 2
    ensures Extends(t, Type(t, c))
  {
    hide Extends, Wrapped, Strike;
    if t.col + c.width <= t.w {
      StrikeExtends(t, c);
    } else {
      var t2 := Wrapped(t, c.style);
      WrappedExtends(t, c.style);
      StrikeExtends(t2, c);
      ExtendsMore(t, t2, Strike(t2, c));
    }
  }

  lemma WrappedExtends(t: Tape, st: Style)
    ensures Extends(t, Wrapped(t, st))
  {
    hide Extends, NewLine, Gapped, Sound;
    GappedExtends(t, st);
    FeedExtends(Gapped(t, st), st, true);
    ExtendsMore(t, Gapped(t, st), Wrapped(t, st));
  }

  lemma {:induction false} TypeAllExtends(t: Tape, cells: seq<Cell>)
    requires CellsOk(cells)
    ensures Extends(t, TypeAll(t, cells))
    decreases |cells|
  {
    hide Extends, Type, Sound;
    if cells == [] {
      ExtendsSame(t);
    } else {
      assert CellOk(cells[0]);
      var t1 := if cells[0].width == 0 then t else Type(t, cells[0]);
      ExtendsSame(t);
      if cells[0].width != 0 {
        TypeExtends(t, cells[0]);
      }
      TypeAllExtends(t1, cells[1..]);
      ExtendsMore(t, t1, TypeAll(t1, cells[1..]));
    }
  }

  lemma TypedExtends(t: Tape, lines: seq<Row>, k: nat)
    requires AllCellsOk(lines) && k < |lines|
    ensures CellsOk(Emitted(lines, k)) && Extends(TypeAll(t, Emitted(lines, k)), Typed(t, lines, k)) && Extends(t, Typed(t, lines, k))
  {
    hide Extends, NewLine, TypeAll, Sound, Emitted, BrushAt, AllCellsOk;
    EmittedCellsOk(lines, k);
    var t1 := TypeAll(t, Emitted(lines, k));
    TypeAllExtends(t, Emitted(lines, k));
    FeedExtends(t1, BrushAt(lines, k + 1).pen, false);
    ExtendsSame(t1);
    ExtendsMore(t, t1, Typed(t, lines, k));
  }

  lemma {:induction false} TapeExtends(start: Tape, lines: seq<Row>, j: nat, k: nat)
    requires AllCellsOk(lines) && j <= k <= |lines|
    ensures Extends(TapeAt(start, lines, j), TapeAt(start, lines, k))
    decreases k
  {
    hide Extends, Typed, Sound, AllCellsOk;
    if j == k {
      ExtendsSame(TapeAt(start, lines, j));
    } else {
      TapeExtends(start, lines, j, k - 1);
      TypedExtends(TapeAt(start, lines, k - 1), lines, k - 1);
      ExtendsMore(TapeAt(start, lines, j), TapeAt(start, lines, k - 1), TapeAt(start, lines, k));
    }
  }

  // ---------------------------------------------------------------------------
  // A whole line
  // ---------------------------------------------------------------------------

  /** Cells in their places, all of which fit. */
  function Inked(t: Tape, cells: seq<Cell>): Tape
    requires Paired(cells) && t.col + |cells| <= t.w
  {
    var n := |t.lines| - 1;
    InkedSound(Last(t), t.col, cells);
    t.(lines := t.lines[n := t.lines[n].(cells := Last(t)[..t.col] + cells + Last(t)[t.col + |cells|..])], col := t.col + |cells|)
  }

  lemma InkedSound(base: seq<Cell>, x: int, cells: seq<Cell>)
    requires Paired(base) && Paired(cells) && 0 <= x && x + |cells| <= |base| && Fresh(base, x)
    ensures Paired(base[..x] + cells + base[x + |cells|..]) && Fresh(base[..x] + cells + base[x + |cells|..], x + |cells|)
  {
    var r := base[..x] + cells + base[x + |cells|..];
    forall i | 0 <= i < |r| && r[i].width == 2 ensures i + 1 < |r| && r[i + 1] == Half(r[i]) {
      if i < x {
        assert base[i + 1].width == 0;
        assert i + 1 < x;
      } else {
        assert i < x + |cells|;
        assert cells[i - x + 1] == Half(cells[i - x]);
      }
    }
    forall i | 0 <= i < |r| && r[i].width == 0 ensures i > 0 && r[i - 1].width == 2 {
      if x <= i < x + |cells| {
        assert cells[i - x - 1].width == 2;
      }
    }
  }

  lemma InkMore(t: Tape, a: seq<Cell>, b: seq<Cell>)
    requires Paired(a) && Paired(b) && Paired(a + b) && t.col + |a + b| <= t.w
    ensures Inked(Inked(t, a), b) == Inked(t, a + b)
  {
    var u, v := Inked(Inked(t, a), b), Inked(t, a + b);
    assert Last(u) == Last(v);
    assert u.lines == v.lines;
  }

  lemma InkNothing(t: Tape)
    ensures Inked(t, []) == t
  {
    assert Last(t)[..t.col] + [] + Last(t)[t.col..] == Last(t);
  }

  lemma PairedHead(cells: seq<Cell>)
    requires LineOk(cells) && cells != []
    ensures 1 <= cells[0].width <= 2 && cells[0].width <= |cells| && (cells[0].width == 2 ==> cells[1] == Half(cells[0]))
  {
    assert CellOk(cells[0]);
  }

  /** Cutting the line at n does not cut a wide character. */
  predicate WholeCut(src: seq<Cell>, n: nat) { n < |src| ==> src[n].width != 0 }

  lemma SplitOk(cells: seq<Cell>, n: nat)
    requires LineOk(cells) && n <= |cells| && WholeCut(cells, n)
    ensures LineOk(cells[..n]) && LineOk(cells[n..])
  {
    hide CellOk;
    var a, b := cells[..n], cells[n..];
    forall i | 0 <= i < |a| && a[i].width == 2 ensures i + 1 < |a| && a[i + 1] == Half(a[i]) {
      assert cells[i + 1] == Half(cells[i]);
    }
    forall i | 0 <= i < |b| && b[i].width == 0 ensures i > 0 && b[i - 1].width == 2 {
      assert cells[n + i - 1].width == 2;
    }
    forall i | 0 <= i < |b| && b[i].width == 2 ensures i + 1 < |b| && b[i + 1] == Half(b[i]) {
      assert cells[n + i + 1] == Half(cells[n + i]);
    }
  }

  lemma HeadCut(cells: seq<Cell>)
    requires LineOk(cells) && cells != []
    ensures 1 <= cells[0].width <= |cells| && WholeCut(cells, cells[0].width)
  {
    PairedHead(cells);
  }

  lemma StrikeInks(t: Tape, cells: seq<Cell>)
    requires LineOk(cells) && cells != [] && t.col + |cells| <= t.w
    ensures var k := cells[0].width; 1 <= k <= 2 && k <= |cells| && LineOk(cells[..k]) && Strike(t, cells[0]) == Inked(t, cells[..k])
  {
    hide CellOk, Paired;
    PairedHead(cells);
    HeadCut(cells);
    var k := cells[0].width;
    SplitOk(cells, k);
    var n := |t.lines| - 1;
    var a, b := Stored(Last(t), t.col, cells[0]), Last(t)[..t.col] + cells[..k] + Last(t)[t.col + k..];
    assert a == b;
  }

  /** What the first character leaves to type. */
  lemma TypeHead(t: Tape, cells: seq<Cell>)
    requires LineOk(cells) && cells != []
    ensures var k := cells[0].width; 1 <= k <= 2 && k <= |cells| && CellsOk(cells[k..]) && TypeAll(t, cells) == TypeAll(Type(t, cells[0]), cells[k..])
  {
    hide Type, Sound, CellOk;
    PairedHead(cells);
    if cells[0].width == 2 {
      assert cells[1..][0].width == 0 && cells[1..][1..] == cells[2..];
    }
  }

  /** A line that fits. */
  lemma {:induction false} InkAll(t: Tape, cells: seq<Cell>)
    requires LineOk(cells) && t.col + |cells| <= t.w
    ensures TypeAll(t, cells) == Inked(t, cells)
    decreases |cells|
  {
    hide Type, Strike, Inked, TypeAll, Sound, LineOk, CellsOk, Paired, WholeCut;
    if cells == [] {
      TypeNothing(t);
      InkNothing(t);
    } else {
      var k := cells[0].width;
      TypeHead(t, cells);
      TypeFits(t, cells[0]);
      StrikeInks(t, cells);
      HeadCut(cells);
      SplitOk(cells, k);
      LineCells(cells);
      LineCells(cells[..k]);
      LineCells(cells[k..]);
      InkedCol(t, cells[..k]);
      InkAll(Strike(t, cells[0]), cells[k..]);
      assert cells[..k] + cells[k..] == cells;
      InkMore(t, cells[..k], cells[k..]);
    }
  }

  lemma TypeFits(t: Tape, c: Cell)
    requires 1 <= c.width <= 2 && t.col + c.width <= t.w
    ensures Type(t, c) == Strike(t, c)
  {
    hide Strike, Wrapped, Sound;
  }

  lemma TypeNothing(t: Tape)
    ensures TypeAll(t, []) == t
  {
  }

  lemma InkedCol(t: Tape, cells: seq<Cell>)
    requires Paired(cells) && t.col + |cells| <= t.w
    ensures var u := Inked(t, cells); u.col == t.col + |cells| && u.w == t.w && u.h == t.h
  {
    hide Sound;
  }

  lemma {:induction false} TypeAppend(t: Tape, a: seq<Cell>, b: seq<Cell>)
    requires CellsOk(a) && CellsOk(b)
    ensures CellsOk(a + b) && TypeAll(t, a + b) == TypeAll(TypeAll(t, a), b)
    decreases |a|
  {
    hide Type, Sound, CellOk;
    if a == [] {
      assert a + b == b;
    } else {
      assert CellOk(a[0]) && (a + b)[0] == a[0] && (a + b)[1..] == a[1..] + b;
      CellWidth(a[0]);
      TypeAppend(if a[0].width == 0 then t else Type(t, a[0]), a[1..], b);
    }
  }

  lemma CellWidth(c: Cell)
    requires CellOk(c)
    ensures 0 <= c.width <= 2
  {
  }

  /** How many cells of a line fit in the room that is left. */
  function Cut(cells: seq<Cell>, room: nat): (n: nat)
    ensures n <= |cells| && n <= room
  {
    if |cells| <= room then |cells| else if room > 0 && cells[room].width == 0 then room - 1 else room
  }

  lemma CutWhole(cells: seq<Cell>, room: nat)
    requires LineOk(cells)
    ensures WholeCut(cells, Cut(cells, room))
    ensures var n := Cut(cells, room); n < |cells| ==> n + cells[n].width > room && (n < room ==> n == room - 1 && cells[n].width == 2)
  {
    var n := Cut(cells, room);
    if n < |cells| {
      assert CellOk(cells[n]);
    }
  }

  /** A line that does not fit is cut, and the rest goes to the next line. */
  lemma RowWraps(t: Tape, cells: seq<Cell>)
    requires LineOk(cells) && |cells| <= t.w && Cut(cells, t.w - t.col) < |cells|
    ensures var n := Cut(cells, t.w - t.col);
      && LineOk(cells[..n]) && LineOk(cells[n..])
      && TypeAll(t, cells) == Inked(Wrapped(Inked(t, cells[..n]), cells[n].style), cells[n..])
  {
    hide Inked, TypeAll, Sound, LineOk, Type, Wrapped, Cut;
    var n := Cut(cells, t.w - t.col);
    CutWhole(cells, t.w - t.col);
    SplitOk(cells, n);
    assert cells[..n] + cells[n..] == cells;
    LineCells(cells[..n]);
    LineCells(cells[n..]);
    TypeAppend(t, cells[..n], cells[n..]);
    InkAll(t, cells[..n]);
    InkedCol(t, cells[..n]);
    var t1 := Inked(t, cells[..n]);
    var t2 := Wrapped(t1, cells[n].style);
    TypeHead(t1, cells[n..]);
    TypeHead(t2, cells[n..]);
    TypeWraps(t1, cells[n]);
    InkAll(t2, cells[n..]);
  }

  lemma LineCells(cells: seq<Cell>)
    requires LineOk(cells)
    ensures CellsOk(cells) && Paired(cells)
  {
  }

  lemma TypeWraps(t: Tape, c: Cell)
    requires 1 <= c.width <= 2 && t.col + c.width > t.w
    ensures Type(t, c) == Type(Wrapped(t, c.style), c)
  {
    hide Strike, Wrapped;
  }
}
