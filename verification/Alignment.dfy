/** Lines that are typed again: when each of them ends up on a line of its own. */
module Alignment {
  import opened Cells
  import opened Snapshots
  import opened Content
  import opened Typewriter
  import opened Receiving

  /** The rendition under which line k begins: when it continues the line before,
      that of its first character, which makes the receiver wrap. */
  function PenAt(lines: seq<Row>, k: nat): Style
    requires k < |lines|
  {
    if lines[k].wrapped && Emitted(lines, k) != [] then Emitted(lines, k)[0].style else BrushAt(lines, k).pen
  }

  /** What line k is written on as line n of the tape: one that scrolled in has the
      background of the pen. */
  function Paper(h: int, lines: seq<Row>, k: nat, n: nat): Style
    requires k < |lines|
  {
    if n < h then PLAIN else PenAt(lines, k)
  }

  /** Line k reaches the edge, or up to a last column that the wide character at
      the head of the next line leaves blank. */
  predicate Filled(lines: seq<Row>, k: nat, w: int)
    requires k + 1 < |lines|
  {
    var n, next := |Emitted(lines, k)|, Emitted(lines, k + 1);
    n == w || (n == w - 1 && next != [] && next[0].width == 2 && next[0].style.bg == Default)
  }

  /** Line k writes something, behind a line that is filled. */
  predicate Continues(lines: seq<Row>, k: nat, w: int)
    requires k < |lines|
  {
    k > 0 && Emitted(lines, k) != [] && Filled(lines, k - 1, w)
  }

  /** Every line from a on that is marked as a continuation is one. */
  predicate Chained(lines: seq<Row>, a: nat, w: int) {
    forall k :: a <= k < |lines| && lines[k].wrapped ==> k > a && Continues(lines, k, w)
  }

  /** Lines with whole characters, none wider than the screen. */
  predicate Typeable(lines: seq<Row>, w: int) {
    forall k :: 0 <= k < |lines| ==> LineOk(lines[k].cells) && |lines[k].cells| <= w
  }

  lemma TypeableOk(lines: seq<Row>, w: int)
    requires Typeable(lines, w)
    ensures AllCellsOk(lines)
  {
  }

  /** What line k writes. */
  lemma EmittedIs(lines: seq<Row>, k: nat, w: int)
    requires Typeable(lines, w) && k < |lines|
    ensures var e := Emitted(lines, k); var cells := lines[k].cells;
      && LineOk(e) && |e| <= |cells| <= w && e == cells[..|e|] && CellsOk(e) && Paired(e)
      && (e == [] || e[0].width != 0)
  {
    hide CellOk;
    var cells := lines[k].cells;
    var e := Emitted(lines, k);
    assert cells[..|cells|] == cells;
    assert LineOk(cells);
    assert WholeCut(cells, |e|);
    SplitOk(cells, |e|);
    if e != [] {
      CutWhole(e, 0);
    }
  }

  /** Line k - 1 is still open when line k is reached. */
  predicate Open(lines: seq<Row>, k: nat) { k >= |lines| || lines[k].wrapped }

  /** Line k on line n of the tape. */
  function Inky(h: int, lines: seq<Row>, k: nat, n: nat, w: int): seq<Cell>
    requires k < |lines| && |Emitted(lines, k)| <= w
  {
    Emitted(lines, k) + Blanks(w - |Emitted(lines, k)|, Paper(h, lines, k, n))
  }

  /** The marks of the tape's lines from `base` on are those of the lines from a on,
      but for the lines that reached the top of the screen. */
  predicate MarksKept(t: Tape, lines: seq<Row>, a: nat, base: nat) {
    && base <= |t.lines| && a + (|t.lines| - base) <= |lines|
    && forall i :: base <= i < |t.lines| ==>
         t.lines[i].wrapped == (lines[a + (i - base)].wrapped && (t.h == 1 || i > |t.lines| - t.h))
  }

  /** The tape when line k is reached, each line from a on being on one of its own. */
  predicate Reached(t: Tape, lines: seq<Row>, a: nat, base: nat, k: nat)
    requires Typeable(lines, t.w)
  {
    && a <= k <= |lines| && (Open(lines, k) ==> a < k)
    && |t.lines| == base + (k - a) + (if Open(lines, k) then 0 else 1)
    && MarksKept(t, lines, a, base)
    && (Open(lines, k) ==>
          && |Emitted(lines, k - 1)| <= t.w && t.col == |Emitted(lines, k - 1)|
          && Last(t) == Inky(t.h, lines, k - 1, base + (k - 1 - a), t.w))
    && (!Open(lines, k) ==> t.col == 0 && Last(t) == Blanks(t.w, Paper(t.h, lines, k, base + (k - a))))
  }

  lemma InkedIs(t: Tape, cells: seq<Cell>, paper: Style)
    requires Paired(cells) && |cells| <= t.w && t.col == 0 && Last(t) == Blanks(t.w, paper)
    ensures var u := Inked(t, cells); var n := |t.lines| - 1;
      && |u.lines| == |t.lines| && u.col == |cells| && u.w == t.w && u.h == t.h
      && Last(u) == cells + Blanks(t.w - |cells|, paper)
      && (forall i :: 0 <= i < n ==> u.lines[i] == t.lines[i]) && u.lines[n].wrapped == t.lines[n].wrapped
  {
    var u := Inked(t, cells);
    assert Last(u) == cells + Blanks(t.w - |cells|, paper);
  }

  /** A line that starts on a fresh line of the tape. */
  lemma FlatStep(t: Tape, lines: seq<Row>, a: nat, base: nat, k: nat)
    requires Typeable(lines, t.w) && Reached(t, lines, a, base, k) && !Open(lines, k)
    ensures CellsOk(Emitted(lines, k)) && |Emitted(lines, k)| <= t.w
    ensures var u := TypeAll(t, Emitted(lines, k));
      && |u.lines| == base + (k - a) + 1 && u.col == |Emitted(lines, k)| && u.w == t.w && u.h == t.h
      && MarksKept(u, lines, a, base) && Last(u) == Inky(t.h, lines, k, base + (k - a), t.w)
  {
    hide Sound, Emitted, Inked, TypeAll, LineOk, CellsOk, Paired, Paper, Typeable;
    EmittedIs(lines, k, t.w);
    InkAll(t, Emitted(lines, k));
    InkedIs(t, Emitted(lines, k), Paper(t.h, lines, k, base + (k - a)));
  }

  lemma CutNothing(e: seq<Cell>, room: nat)
    requires LineOk(e) && e != [] && (room == 0 || (room == 1 && e[0].width == 2))
    ensures Cut(e, room) == 0
  {
    PairedHead(e);
  }

  lemma GappedIs(t: Tape, st: Style)
    requires t.w - 1 <= t.col
    ensures var u := Gapped(t, st); var n := |t.lines| - 1;
      && |u.lines| == |t.lines| && u.w == t.w && u.h == t.h
      && (forall i :: 0 <= i < n ==> u.lines[i] == t.lines[i]) && u.lines[n].wrapped == t.lines[n].wrapped
      && u.lines[n].cells == (if t.col < t.w then Last(t)[t.col := Blank(st)] else Last(t))
  {
  }

  /** The tape after a wrap. */
  lemma WrappedIs(t: Tape, st: Style, i: nat)
    requires t.w - 1 <= t.col && i <= |t.lines|
    ensures var u := Wrapped(t, st); var n := |t.lines|;
      && |u.lines| == n + 1 && u.col == 0 && u.w == t.w && u.h == t.h
      && (i == n ==> u.lines[i] == Row(Blanks(t.w, if n < t.h then PLAIN else st), true))
      && (i < n ==> u.lines[i].wrapped == (t.lines[i].wrapped && (t.h == 1 || i != n + 1 - t.h)))
      && (i < n - 1 ==> u.lines[i].cells == t.lines[i].cells)
      && (i == n - 1 ==> u.lines[i].cells == (if t.col < t.w then Last(t)[t.col := Blank(st)] else Last(t)))
  {
    hide Sound, NewLine, Gapped;
    GappedIs(t, st);
    FeedIs(Gapped(t, st), st, true, i);
  }

  lemma WrapMarks(t: Tape, lines: seq<Row>, a: nat, base: nat, k: nat, st: Style)
    requires t.w - 1 <= t.col && MarksKept(t, lines, a, base) && a <= k < |lines| && |t.lines| == base + (k - a) && lines[k].wrapped
    ensures MarksKept(Wrapped(t, st), lines, a, base)
  {
    hide Sound, Wrapped;
    var v, n := Wrapped(t, st), |t.lines|;
    WrappedIs(t, st, 0);
    TapeShape(t);
    forall i | base <= i < |v.lines|
      ensures v.lines[i].wrapped == (lines[a + (i - base)].wrapped && (v.h == 1 || i > |v.lines| - v.h))
    {
      WrappedIs(t, st, i);
      if i < n {
        assert t.lines[i].wrapped == (lines[a + (i - base)].wrapped && (t.h == 1 || i > n - t.h));
      } else {
        assert i == n;
      }
    }
  }

  lemma InkedMarks(t: Tape, cells: seq<Cell>, lines: seq<Row>, a: nat, base: nat)
    requires Paired(cells) && t.col + |cells| <= t.w && MarksKept(t, lines, a, base)
    ensures MarksKept(Inked(t, cells), lines, a, base)
  {
    hide Paired;
    var u := Inked(t, cells);
    forall i | base <= i < |u.lines|
      ensures u.lines[i].wrapped == (lines[a + (i - base)].wrapped && (u.h == 1 || i > |u.lines| - u.h))
    {
      assert u.lines[i].wrapped == t.lines[i].wrapped;
    }
  }

  /** A line that continues a filled one wraps at its first character. */
  lemma WrapStep(t: Tape, lines: seq<Row>, a: nat, base: nat, k: nat)
    requires Typeable(lines, t.w) && Reached(t, lines, a, base, k) && k < |lines| && lines[k].wrapped && Continues(lines, k, t.w)
    ensures CellsOk(Emitted(lines, k)) && |Emitted(lines, k)| <= t.w && k > a
    ensures var u := TypeAll(t, Emitted(lines, k)); var e := Emitted(lines, k - 1); var st := Emitted(lines, k)[0].style;
      && |u.lines| == base + (k - a) + 1 && u.col == |Emitted(lines, k)| && u.w == t.w && u.h == t.h
      && MarksKept(u, lines, a, base) && Last(u) == Inky(t.h, lines, k, base + (k - a), t.w)
      && u.lines[base + (k - 1 - a)].cells == e + (if |e| < t.w then [Blank(st)] else [])
  {
    hide Sound, Emitted, Inked, TypeAll, LineOk, CellsOk, Paired, Typeable, Wrapped, BrushAt, Cut, MarksKept;
    EmittedIs(lines, k, t.w);
    EmittedIs(lines, k - 1, t.w);
    var cells, st, n := Emitted(lines, k), Emitted(lines, k)[0].style, |t.lines|;
    CutNothing(cells, t.w - t.col);
    RowWraps(t, cells);
    assert cells[..0] == [] && cells[0..] == cells;
    InkNothing(t);
    var v := Wrapped(t, st);
    WrappedIs(t, st, n);
    WrappedIs(t, st, n - 1);
    InkedIs(v, cells, Paper(t.h, lines, k, base + (k - a)));
    WrapMarks(t, lines, a, base, k, st);
    InkedMarks(v, cells, lines, a, base);
    var e := Emitted(lines, k - 1);
    assert v.lines[n - 1].cells == e + (if |e| < t.w then [Blank(st)] else []);
  }

  lemma BreakMarks(u: Tape, lines: seq<Row>, a: nat, base: nat, k: nat, pen: Style)
    requires MarksKept(u, lines, a, base) && a <= k && |u.lines| == base + (k - a) + 1 && k + 1 < |lines| && !lines[k + 1].wrapped
    ensures MarksKept(NewLine(u, pen, false), lines, a, base)
  {
    hide Sound, NewLine;
    var v, n := NewLine(u, pen, false), |u.lines|;
    FeedIs(u, pen, false, 0);
    forall i | base <= i < |v.lines|
      ensures v.lines[i].wrapped == (lines[a + (i - base)].wrapped && (v.h == 1 || i > |v.lines| - v.h))
    {
      FeedIs(u, pen, false, i);
      if i < n {
        assert u.lines[i].wrapped == (lines[a + (i - base)].wrapped && (u.h == 1 || i > n - u.h));
      } else {
        assert i == n;
      }
    }
  }

  /** The line break, if one follows. */
  lemma BreakStep(u: Tape, lines: seq<Row>, a: nat, base: nat, k: nat)
    requires Typeable(lines, u.w) && a <= k < |lines| && |Emitted(lines, k)| <= u.w
    requires |u.lines| == base + (k - a) + 1 && u.col == |Emitted(lines, k)|
    requires MarksKept(u, lines, a, base) && Last(u) == Inky(u.h, lines, k, base + (k - a), u.w)
    ensures Reached(if Open(lines, k + 1) then u else NewLine(u, BrushAt(lines, k + 1).pen, false), lines, a, base, k + 1)
  {
    hide Sound, Emitted, Typeable, BrushAt, NewLine, MarksKept;
    if !Open(lines, k + 1) {
      var pen := BrushAt(lines, k + 1).pen;
      FeedIs(u, pen, false, |u.lines|);
      BreakMarks(u, lines, a, base, k, pen);
    }
  }

  lemma TypedIs(t: Tape, lines: seq<Row>, k: nat)
    requires AllCellsOk(lines) && k < |lines| && CellsOk(Emitted(lines, k))
    ensures var u := TypeAll(t, Emitted(lines, k));
      Typed(t, lines, k) == if Open(lines, k + 1) then u else NewLine(u, BrushAt(lines, k + 1).pen, false)
  {
    hide Sound, Emitted, NewLine, TypeAll, BrushAt;
  }

  lemma ReachedStep(t: Tape, lines: seq<Row>, a: nat, base: nat, k: nat)
    requires Typeable(lines, t.w) && AllCellsOk(lines) && k < |lines| && Reached(t, lines, a, base, k)
    requires lines[k].wrapped ==> Continues(lines, k, t.w)
    ensures Reached(Typed(t, lines, k), lines, a, base, k + 1)
  {
    hide Sound, Emitted, Typeable, Typed, BrushAt, NewLine, MarksKept, TypeAll, Reached, AllCellsOk, Continues, Inky;
    if lines[k].wrapped {
      WrapStep(t, lines, a, base, k);
    } else {
      FlatStep(t, lines, a, base, k);
    }
    TypedIs(t, lines, k);
    ReachedFrom(t, lines, a, base, k);
    BreakStep(TypeAll(t, Emitted(lines, k)), lines, a, base, k);
  }

  lemma ReachedFrom(t: Tape, lines: seq<Row>, a: nat, base: nat, k: nat)
    requires Typeable(lines, t.w) && Reached(t, lines, a, base, k)
    ensures a <= k <= |lines|
  {
    hide Sound, Emitted, Typeable, MarksKept, Inky, BrushAt;
  }

  /** Every line from a to k has a line of its own. */
  lemma {:induction false} ReachedAt(start: Tape, lines: seq<Row>, a: nat, base: nat, k: nat)
    requires Typeable(lines, start.w) && AllCellsOk(lines) && a <= k <= |lines|
    requires Reached(TapeAt(start, lines, a), lines, a, base, a)
    requires forall j :: a <= j < k && lines[j].wrapped ==> Continues(lines, j, start.w)
    ensures Reached(TapeAt(start, lines, k), lines, a, base, k)
    decreases k
  {
    hide Sound, Emitted, Typeable, Typed, Reached, AllCellsOk, Continues;
    if k > a {
      ReachedAt(start, lines, a, base, k - 1);
      ReachedStep(TapeAt(start, lines, k - 1), lines, a, base, k - 1);
    }
  }

  // ---------------------------------------------------------------------------
  // The lines in the end
  // ---------------------------------------------------------------------------

  /** Line k on line n of the tape, with the column that a wide character at the head
      of the next line leaves blank. */
  function Sheet(h: int, lines: seq<Row>, k: nat, n: nat, w: int): (cells: seq<Cell>)
    requires k < |lines| && |Emitted(lines, k)| <= w
    ensures |cells| == w
  {
    var e := Emitted(lines, k);
    if k + 1 < |lines| && lines[k + 1].wrapped && |e| == w - 1 && Emitted(lines, k + 1) != [] then
      e + [Blank(Emitted(lines, k + 1)[0].style)]
    else Inky(h, lines, k, n, w)
  }

  /** Once the line after it is begun, a line stays as it is. */
  lemma SheetAt(start: Tape, lines: seq<Row>, a: nat, base: nat, k: nat)
    requires Typeable(lines, start.w) && AllCellsOk(lines) && a <= k < |lines|
    requires Reached(TapeAt(start, lines, a), lines, a, base, a)
    requires forall j :: a <= j < |lines| && lines[j].wrapped ==> Continues(lines, j, start.w)
    ensures var u := TapeAt(start, lines, k + 1); var n := base + (k - a);
      && |Emitted(lines, k)| <= start.w && n < |u.lines|
      && (!Open(lines, k + 1) || k + 1 == |lines| ==> u.lines[n].cells == Sheet(start.h, lines, k, n, start.w))
    ensures k + 1 < |lines| && lines[k + 1].wrapped ==>
      var u := TapeAt(start, lines, k + 2); var n := base + (k - a);
      n < |u.lines| - 1 && u.lines[n].cells == Sheet(start.h, lines, k, n, start.w)
  {
    hide Sound, Emitted, Typeable, Typed, Reached, AllCellsOk, Continues, TypeAll, NewLine, BrushAt, Inky, MarksKept, CellsOk;
    EmittedIs(lines, k, start.w);
    ReachedAt(start, lines, a, base, k);
    ReachedAt(start, lines, a, base, k + 1);
    var t := TapeAt(start, lines, k);
    if k + 1 < |lines| && lines[k + 1].wrapped {
      SheetOpen(start, lines, a, base, k);
    } else {
      SheetClosed(start, lines, a, base, k);
    }
    ReachedLines(TapeAt(start, lines, k + 1), lines, a, base, k + 1);
  }

  lemma ReachedLines(t: Tape, lines: seq<Row>, a: nat, base: nat, k: nat)
    requires Typeable(lines, t.w) && Reached(t, lines, a, base, k)
    ensures a <= k && |t.lines| == base + (k - a) + (if Open(lines, k) then 0 else 1) && MarksKept(t, lines, a, base)
  {
    hide Sound, Emitted, Typeable, Inky, BrushAt, MarksKept;
  }

  lemma SheetClosed(start: Tape, lines: seq<Row>, a: nat, base: nat, k: nat)
    requires Typeable(lines, start.w) && AllCellsOk(lines) && a <= k < |lines| && (k + 1 < |lines| ==> !lines[k + 1].wrapped)
    requires Reached(TapeAt(start, lines, k), lines, a, base, k)
    requires lines[k].wrapped ==> Continues(lines, k, start.w)
    ensures var u := TapeAt(start, lines, k + 1); var n := base + (k - a);
      |Emitted(lines, k)| <= start.w && n < |u.lines| && u.lines[n].cells == Sheet(start.h, lines, k, n, start.w)
  {
    hide Sound, Emitted, Typeable, Typed, Reached, AllCellsOk, Continues, TypeAll, NewLine, BrushAt, Inky, MarksKept, CellsOk;
    var t := TapeAt(start, lines, k);
    if lines[k].wrapped {
      WrapStep(t, lines, a, base, k);
    } else {
      FlatStep(t, lines, a, base, k);
    }
    TypedIs(t, lines, k);
    FeedIs(TypeAll(t, Emitted(lines, k)), BrushAt(lines, k + 1).pen, false, base + (k - a));
  }

  lemma OpenStep(t: Tape, lines: seq<Row>, a: nat, base: nat, k: nat)
    requires Typeable(lines, t.w) && AllCellsOk(lines) && k < |lines| && lines[k].wrapped
    requires Reached(t, lines, a, base, k) && Continues(lines, k, t.w)
    ensures k > a
    ensures var u := Typed(t, lines, k); var n := base + (k - 1 - a); var e := Emitted(lines, k - 1);
      && |e| <= t.w && n < |u.lines| - 1
      && u.lines[n].cells == e + (if |e| < t.w then [Blank(Emitted(lines, k)[0].style)] else [])
  {
    hide Sound, Emitted, Typeable, Typed, Reached, AllCellsOk, TypeAll, NewLine, BrushAt, MarksKept, CellsOk, Inky;
    WrapStep(t, lines, a, base, k);
    TypedIs(t, lines, k);
    FeedIs(TypeAll(t, Emitted(lines, k)), BrushAt(lines, k + 1).pen, false, base + (k - 1 - a));
  }

  lemma TapeNext(start: Tape, lines: seq<Row>, k: nat)
    requires AllCellsOk(lines) && k < |lines|
    ensures TapeAt(start, lines, k + 1) == Typed(TapeAt(start, lines, k), lines, k)
    ensures TapeAt(start, lines, k).w == start.w && TapeAt(start, lines, k).h == start.h
  {
    hide Sound, Typed, AllCellsOk;
  }

  lemma SheetOpen(start: Tape, lines: seq<Row>, a: nat, base: nat, k: nat)
    requires Typeable(lines, start.w) && AllCellsOk(lines) && a <= k && k + 1 < |lines| && lines[k + 1].wrapped
    requires Reached(TapeAt(start, lines, k + 1), lines, a, base, k + 1) && Continues(lines, k + 1, start.w)
    ensures var u := TapeAt(start, lines, k + 2); var n := base + (k - a);
      |Emitted(lines, k)| <= start.w && n < |u.lines| - 1 && u.lines[n].cells == Sheet(start.h, lines, k, n, start.w)
  {
    hide *;
    TapeNext(start, lines, k + 1);
    OpenStep(TapeAt(start, lines, k + 1), lines, a, base, k + 1);
    SheetGap(start.h, lines, k, base + (k - a), start.w);
  }

  lemma SheetGap(h: int, lines: seq<Row>, k: nat, n: nat, w: int)
    requires k + 1 < |lines| && lines[k + 1].wrapped && Continues(lines, k + 1, w)
    ensures var e := Emitted(lines, k);
      |e| <= w && Sheet(h, lines, k, n, w) == e + (if |e| < w then [Blank(Emitted(lines, k + 1)[0].style)] else [])
  {
    hide Emitted, Paper;
  }

  /** Line k in the end: where it is, what it shows and whether it is marked. */
  lemma AlignedLine(start: Tape, lines: seq<Row>, a: nat, base: nat, k: nat)
    requires Typeable(lines, start.w) && AllCellsOk(lines) && a <= k < |lines|
    requires Reached(TapeAt(start, lines, a), lines, a, base, a)
    requires forall j :: a <= j < |lines| && lines[j].wrapped ==> Continues(lines, j, start.w)
    ensures var u := TapeAt(start, lines, |lines|); var n := base + (k - a);
      && |u.lines| == base + (|lines| - a) && |Emitted(lines, k)| <= start.w
      && u.lines[n].cells == Sheet(start.h, lines, k, n, start.w)
      && u.lines[n].wrapped == (lines[k].wrapped && (start.h == 1 || n > |u.lines| - start.h))
  {
    hide Sound, Emitted, Typeable, Typed, Reached, AllCellsOk, Continues, TypeAll, NewLine, BrushAt, Sheet, Extends;
    var u, n := TapeAt(start, lines, |lines|), base + (k - a);
    ReachedAt(start, lines, a, base, |lines|);
    ReachedLines(u, lines, a, base, |lines|);
    SheetAt(start, lines, a, base, k);
    if k + 1 < |lines| {
      var j := if lines[k + 1].wrapped then k + 2 else k + 1;
      ReachedAt(start, lines, a, base, k + 1);
      ReachedLines(TapeAt(start, lines, k + 1), lines, a, base, k + 1);
      TapeExtends(start, lines, j, |lines|);
      Frozen(TapeAt(start, lines, j), u, n);
    }
    assert u.lines[n].wrapped == (lines[a + (n - base)].wrapped && (start.h == 1 || n > |u.lines| - start.h));
  }

  lemma Frozen(t: Tape, u: Tape, n: nat)
    requires Extends(t, u) && n < |t.lines| - 1
    ensures n < |u.lines| && u.lines[n].cells == t.lines[n].cells
  {
    hide Sound;
  }

  // ---------------------------------------------------------------------------
  // A line that does not fit
  // ---------------------------------------------------------------------------

  lemma CutShort(cells: seq<Cell>, room: nat)
    requires |cells| > room
    ensures Cut(cells, room) <= room
  {
  }

  /** Where a line that does not fit is cut. */
  lemma CutAt(t: Tape, cells: seq<Cell>, x: nat)
    requires LineOk(cells) && |cells| <= t.w && t.col + |cells| > t.w && x < t.w
    ensures var n, u, k := Cut(cells, t.w - t.col), TypeAll(t, cells), |t.lines|;
      && n < |cells| && |u.lines| == k + 1 && u.col == |cells| - n && u.w == t.w && u.h == t.h
      && (t.col <= x < t.col + n ==> u.lines[k - 1].cells[x] == cells[x - t.col])
      && (t.col + n <= x ==> x == t.w - 1 && u.lines[k - 1].cells[x] == Blank(cells[n].style))
      && u.lines[k].cells[x] == (if x < |cells| - n then cells[n + x] else Blank(if k < t.h then PLAIN else cells[n].style))
      && u.lines[k].wrapped
  {
    hide *;
    TapeShape(t);
    var n := Cut(cells, t.w - t.col);
    CutShort(cells, t.w - t.col);
    CutWhole(cells, t.w - t.col);
    RowWraps(t, cells);
    LineCells(cells[..n]);
    LineCells(cells[n..]);
    var t1 := Inked(t, cells[..n]);
    InkedAt(t, cells[..n], x);
    CutAfter(t, t1, cells, n, x);
  }

  lemma CutAfter(t: Tape, t1: Tape, cells: seq<Cell>, n: nat, x: nat)
    requires n < |cells| <= t.w && x < t.w && Paired(cells[n..]) && t1.w == t.w && t1.h == t.h
    requires |t1.lines| == |t.lines| && t1.col == t.col + n && t.w - 1 <= t1.col
    requires t1.lines[|t.lines| - 1].cells[x] == if t.col <= x < t.col + n then cells[..n][x - t.col] else t.lines[|t.lines| - 1].cells[x]
    ensures Wrapped(t1, cells[n].style).col + |cells[n..]| <= Wrapped(t1, cells[n].style).w
    ensures var u, k := Inked(Wrapped(t1, cells[n].style), cells[n..]), |t.lines|;
      && |u.lines| == k + 1 && u.col == |cells| - n && u.w == t.w && u.h == t.h
      && (t.col <= x < t.col + n ==> u.lines[k - 1].cells[x] == cells[x - t.col])
      && (t.col + n <= x ==> x == t.w - 1 && u.lines[k - 1].cells[x] == Blank(cells[n].style))
      && u.lines[k].cells[x] == (if x < |cells| - n then cells[n + x] else Blank(if k < t.h then PLAIN else cells[n].style))
      && u.lines[k].wrapped
  {
    hide Wrapped, Inked, Paired, Sound;
    TapeShape(t);
    WrappedAt(t1, cells[n].style, x);
    InkedAt(Wrapped(t1, cells[n].style), cells[n..], x);
  }

  lemma WrappedAt(t: Tape, st: Style, x: nat)
    requires t.w - 1 <= t.col && x < t.w
    ensures var u, n := Wrapped(t, st), |t.lines|;
      && |u.lines| == n + 1 && u.col == 0 && u.w == t.w && u.h == t.h
      && u.lines[n - 1].cells[x] == (if t.col <= x then Blank(st) else t.lines[n - 1].cells[x])
      && u.lines[n].cells[x] == Blank(if n < t.h then PLAIN else st) && u.lines[n].wrapped
  {
    hide Wrapped;
    TapeShape(t);
    WrappedIs(t, st, |t.lines| - 1);
    WrappedIs(t, st, |t.lines|);
  }

  lemma InkedAt(t: Tape, cells: seq<Cell>, x: nat)
    requires Paired(cells) && t.col + |cells| <= t.w && x < t.w
    ensures var u, n := Inked(t, cells), |t.lines| - 1;
      && |u.lines| == |t.lines| && u.col == t.col + |cells| && u.w == t.w && u.h == t.h
      && u.lines[n].cells[x] == (if t.col <= x < t.col + |cells| then cells[x - t.col] else t.lines[n].cells[x])
      && (forall i :: 0 <= i < n ==> u.lines[i] == t.lines[i]) && u.lines[n].wrapped == t.lines[n].wrapped
  {
    hide Paired;
    TapeShape(t);
  }

  /** What a line leaves on the tape stays there. */
  lemma RowStays(start: Tape, lines: seq<Row>, k: nat)
    requires AllCellsOk(lines) && k < |lines|
    ensures CellsOk(Emitted(lines, k))
    ensures Extends(TypeAll(TapeAt(start, lines, k), Emitted(lines, k)), TapeAt(start, lines, |lines|))
  {
    hide *;
    var v := TapeAt(start, lines, k);
    TapeNext(start, lines, k);
    TypedExtends(v, lines, k);
    TapeExtends(start, lines, k + 1, |lines|);
    ExtendsMore(TypeAll(v, Emitted(lines, k)), Typed(v, lines, k), TapeAt(start, lines, |lines|));
  }
}
