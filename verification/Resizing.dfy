/** Changing the size: columns are cut or padded, lines leave to and come back
    from the scrollback, nothing is re-wrapped. */
module Resizing {
  import opened Utf8
  import opened Cells
  import opened Parser
  import opened Sequences
  import opened Terminal
  import opened Dispatch
  import opened Content

  function FitRows(rows: seq<Row>, w: nat): (r: seq<Row>)
    ensures |r| == |rows| && forall y :: 0 <= y < |r| ==> r[y] == Fitted(rows[y], w)
  {
    seq(|rows|, y requires 0 <= y < |rows| => Fitted(rows[y], w))
  }

  /** How many of the last rows below line y are blank, up to n. */
  function BlankTail(rows: seq<Row>, y: int, n: nat): (k: nat)
    ensures k <= n && k <= |rows|
    ensures y >= 0 ==> k == 0 || |rows| - k > y
    ensures forall i :: |rows| - k <= i < |rows| ==> LastVisible(rows[i].cells) == 0
    decreases n
  {
    if n == 0 || |rows| == 0 || |rows| - 1 <= y || LastVisible(rows[|rows| - 1].cells) != 0 then 0
    else 1 + BlankTail(rows[..|rows| - 1], y, n - 1)
  }

  /** How many lines come back when n rows are added. */
  function Returning(sb: nat, rows: nat, y: int, n: nat): nat {
    if y != rows - 1 then 0 else if n < sb then n else sb
  }

  function Taller(s: Screen, w: nat, h: nat, useScrollback: bool): Screen
    requires |s.rows| <= h
  {
    var add := h - |s.rows|;
    var n := if useScrollback then Returning(|s.scrollback|, |s.rows|, s.cur.y, add) else 0;
    var back := FitRows(s.scrollback[|s.scrollback| - n..], w);
    s.(rows := back + s.rows + BlankRows(add - n, w, PLAIN), scrollback := s.scrollback[..|s.scrollback| - n],
       cur := s.cur.(y := s.cur.y + n), saved := s.saved.(y := s.saved.y + n))
  }

  function Shorter(s: Screen, h: nat, useScrollback: bool, max: nat): Screen
    requires h <= |s.rows|
  {
    var remove := |s.rows| - h;
    var blank := BlankTail(s.rows, s.cur.y, remove);
    var n := remove - blank;
    var rows := s.rows[..|s.rows| - blank];
    s.(rows := rows[n..], scrollback := if useScrollback then PushAll(s.scrollback, rows[..n], max) else s.scrollback,
       cur := s.cur.(y := Max(s.cur.y - n, 0)), saved := s.saved.(y := Max(s.saved.y - n, 0)))
  }

  /** resizeScreen, for a screen that was w0 columns wide. */
  function ResizeScreen(s: Screen, w0: nat, w: nat, h: nat, useScrollback: bool, max: nat): Screen
    requires w >= 1 && h >= 1
  {
    var s1 := if w == w0 then s
      else s.(rows := FitRows(s.rows, w), cur := s.cur.(x := Min(s.cur.x, w - 1)), saved := s.saved.(x := Min(s.saved.x, w - 1)));
    var s2 := if h < |s1.rows| then Shorter(s1, h, useScrollback, max) else Taller(s1, w, h, useScrollback);
    s2.(cur := s2.cur.(y := Min(s2.cur.y, h - 1), pendingWrap := false), saved := s2.saved.(y := Min(s2.saved.y, h - 1)),
        top := 0, bot := h - 1)
  }

  /** Rows and ranges right for w columns, whatever the height. */
  predicate Across(s: Screen, w: int) {
    RowsFit(s.rows, w) && 0 <= s.cur.x < w && 0 <= s.saved.x < w && s.cur.y >= 0 && s.saved.y >= 0 && 0 <= s.saved.charsets.gl <= 1
  }

  lemma ShorterAcross(s: Screen, w: int, h: nat, useScrollback: bool, max: nat)
    requires Across(s, w) && h <= |s.rows|
    ensures var s' := Shorter(s, h, useScrollback, max);
      Across(s', w) && |s'.rows| == h && (!useScrollback ==> s'.scrollback == s.scrollback)
  {
    hide BlankTail, PushAll;
  }

  lemma TallerAcross(s: Screen, w: nat, h: nat, useScrollback: bool)
    requires Across(s, w) && |s.rows| <= h
    ensures var s' := Taller(s, w, h, useScrollback);
      Across(s', w) && |s'.rows| == h && (!useScrollback ==> s'.scrollback == s.scrollback)
  {
    hide Fitted;
  }

  lemma ResizedFits(s: Screen, w0: nat, h0: nat, w: nat, h: nat, useScrollback: bool, max: nat)
    requires ScreenFits(s, w0, h0) && w >= 1 && h >= 1
    ensures ScreenFits(ResizeScreen(s, w0, w, h, useScrollback, max), w, h)
    ensures !useScrollback ==> ResizeScreen(s, w0, w, h, useScrollback, max).scrollback == s.scrollback
  {
    hide Shorter, Taller, Fitted;
    var s1 := if w == w0 then s
      else s.(rows := FitRows(s.rows, w), cur := s.cur.(x := Min(s.cur.x, w - 1)), saved := s.saved.(x := Min(s.saved.x, w - 1)));
    assert Across(s1, w);
    if h < |s1.rows| {
      ShorterAcross(s1, w, h, useScrollback, max);
    } else {
      TallerAcross(s1, w, h, useScrollback);
    }
  }

  /** Resize. A terminal of one column is outside the model. */
  function Resize(t: T, w: int, h: int): T
    requires w >= 2
  {
    var h' := if h < 1 then 1 else h;
    if w == t.w && h' == t.h then t
    else
      ResizedFits(t.main, t.w, t.h, w, h', true, t.maxScrollback);
      ResizedFits(t.alt, t.w, t.h, w, h', false, t.maxScrollback);
      t.(main := ResizeScreen(t.main, t.w, w, h', true, t.maxScrollback),
         alt := ResizeScreen(t.alt, t.w, w, h', false, t.maxScrollback),
         w := w, h := h', tabStops := DefaultTabStops(w))
  }

  /** SetMaxScrollback: the oldest lines beyond the limit are dropped at once. */
  function SetMaxScrollback(t: T, n: int): T {
    var max := if n < 0 then 0 else n;
    var sb := t.main.scrollback;
    t.(maxScrollback := max, main := t.main.(scrollback := if |sb| > max then sb[|sb| - max..] else sb))
  }

  // ---------------------------------------------------------------------------
  // Geometry over all runs
  // ---------------------------------------------------------------------------

  datatype Event = Output(data: seq<byte>) | Sized(w: int, h: int) | Limited(n: int)

  predicate Wide(ev: Event) { ev.Sized? ==> ev.w >= 2 }

  type WideEvent = ev: Event | Wide(ev) witness Output([])

  function Do(e: Emulator, ev: WideEvent): Emulator {
    match ev
    case Output(data) => Write(e, data)
    case Sized(w, h) => e.(t := Resize(e.t, w, h))
    case Limited(n) => e.(t := SetMaxScrollback(e.t, n))
  }

  function Run(e: Emulator, evs: seq<WideEvent>): Emulator
    decreases |evs|
  {
    if evs == [] then e else Run(Do(e, evs[0]), evs[1..])
  }

  lemma {:induction false} RunBounded(e: Emulator, evs: seq<WideEvent>)
    requires Bounded(e.p)
    ensures Bounded(Run(e, evs).p)
    decreases |evs|
  {
    hide Write, Bounded, Resize, SetMaxScrollback;
    if evs != [] {
      if evs[0].Output? {
        WriteBounded(e, evs[0].data);
      }
      RunBounded(Do(e, evs[0]), evs[1..]);
    }
  }

  lemma WriteBounded(e: Emulator, data: seq<byte>)
    requires Bounded(e.p)
    ensures Bounded(Write(e, data).p)
  {
    hide Parse, ApplyAll, Bounded;
    ParseBounded(e.p, data);
  }

  /** Over all runs of output, resizes and limit changes both screens keep their
      rows and columns, cursors and regions stay in range, a wrap is pending only
      in the last column, and the parser's buffers stay bounded. */
  lemma GeometryHolds(w: nat, h: nat, max: nat, evs: seq<WideEvent>)
    requires w >= 2 && h >= 1
    ensures var e := Run(NewEmulator(w, h, max), evs);
      && Fits(e.t) && |e.p.params| <= MAX_PARAMS
      && (forall i :: 0 <= i < |e.p.params| ==> e.p.params[i].value <= MAX_VALUE)
      && |e.p.osc| <= MAX_OSC_BYTES + 3
  {
    hide Run, ScreenFits, OscFits;
    InitBounded();
    RunBounded(NewEmulator(w, h, max), evs);
    BoundedOscLength(Run(NewEmulator(w, h, max), evs).p);
  }

  // ---------------------------------------------------------------------------
  // Height resizing conserves lines
  // ---------------------------------------------------------------------------

  /** Lines without trailing blanks, and without blank lines at the end. */
  function Text(lines: seq<Row>): seq<Row> {
    if lines == [] then []
    else if LastVisible(lines[|lines| - 1].cells) == 0 then Text(lines[..|lines| - 1])
    else Trims(lines)
  }

  lemma TrimTwice(r: Row)
    ensures Trimmed(Trimmed(r)) == Trimmed(r) && LastVisible(Trimmed(r).cells) == LastVisible(r.cells)
  {
    var n := LastVisible(r.cells);
    LastVisibleIs(r.cells[..n], n);
  }

  lemma {:induction false} SameText(a: seq<Row>, b: seq<Row>)
    requires Trims(a) == Trims(b)
    ensures Text(a) == Text(b)
    decreases |a|
  {
    hide LastVisible;
    assert |a| == |Trims(a)| == |Trims(b)| == |b|;
    if a != [] {
      var k := |a| - 1;
      assert Trimmed(a[k]) == Trims(a)[k] == Trims(b)[k] == Trimmed(b[k]);
      TrimTwice(a[k]);
      TrimTwice(b[k]);
      assert Trims(a[..k]) == Trims(a)[..k] == Trims(b)[..k] == Trims(b[..k]);
      SameText(a[..k], b[..k]);
    }
  }

  lemma {:induction false} BlankLinesGone(a: seq<Row>, b: seq<Row>)
    requires forall y :: 0 <= y < |b| ==> LastVisible(b[y].cells) == 0
    ensures Text(a + b) == Text(a)
    decreases |b|
  {
    hide LastVisible;
    if b == [] {
      assert a + b == a;
    } else {
      assert (a + b)[..|a + b| - 1] == a + b[..|b| - 1];
      BlankLinesGone(a, b[..|b| - 1]);
    }
  }

  /** A stored line comes back whole when it is fitted to w columns. */
  predicate Storable(r: Row, w: nat) { |r.cells| <= w && (|r.cells| == w > 0 ==> r.cells[w - 1].width != 2) }

  predicate AllStorable(rows: seq<Row>, w: nat) { forall y :: 0 <= y < |rows| ==> Storable(rows[y], w) }

  /** Every line of the screen, on it or scrolled off, comes back whole. */
  predicate Whole(s: Screen, w: nat) {
    AllStorable(s.scrollback, w) && AllStorable(s.rows, w)
  }

  lemma FittedTrims(r: Row, w: nat)
    requires Storable(r, w)
    ensures Trimmed(Fitted(r, w)) == Trimmed(r) && Storable(Fitted(r, w), w)
  {
    var f := Fitted(r, w);
    var n := LastVisible(r.cells);
    assert forall x :: 0 <= x < |r.cells| ==> f.cells[x] == r.cells[x];
    assert forall x :: |r.cells| <= x < w ==> f.cells[x] == BLANK;
    LastVisibleIs(f.cells, n);
    assert f.cells[..n] == r.cells[..n];
  }

  lemma TrimmedStorable(r: Row, w: nat)
    requires Storable(r, w)
    ensures Storable(Trimmed(r), w)
  {
  }

  lemma PushOne(sb: seq<Row>, r: Row, max: nat)
    requires |sb| < max
    ensures Push(sb, r, max) == sb + [Trimmed(r)]
  {
    hide Trimmed;
  }

  lemma ConcatThrice(a: seq<Row>, b: seq<Row>, c: seq<Row>)
    ensures a + (b + c) == (a + b) + c && a + [] == a
  {
  }

  lemma {:induction false} PushAllIs(sb: seq<Row>, rs: seq<Row>, max: nat)
    requires |sb| + |rs| <= max
    ensures PushAll(sb, rs, max) == sb + Trims(rs)
    decreases |rs|
  {
    hide Trimmed, Push, Trims;
    if rs == [] {
      assert Trims(rs) == [];
      ConcatThrice(sb, [], []);
    } else {
      TrimsFirst(rs);
      ConcatThrice(sb, [Trimmed(rs[0])], Trims(rs[1..]));
      PushOne(sb, rs[0], max);
      PushAllIs(sb + [Trimmed(rs[0])], rs[1..], max);
    }
  }

  function Lines(s: Screen): seq<Row> { s.scrollback + s.rows }

  /** What is left when the blank lines below the cursor are gone, cut in two. */
  lemma ShorterParts(s: Screen, h: nat, max: nat) returns (rows: seq<Row>, n: nat)
    requires h <= |s.rows| && s.cur.y >= 0 && |s.scrollback| + (|s.rows| - h) <= max
    ensures n <= |rows| <= |s.rows| && rows == s.rows[..|rows|]
    ensures var s' := Shorter(s, h, true, max); s'.rows == rows[n..] && s'.scrollback == s.scrollback + Trims(rows[..n])
    ensures forall y :: |rows| <= y < |s.rows| ==> LastVisible(s.rows[y].cells) == 0
  {
    hide LastVisible, PushAll;
    var remove := |s.rows| - h;
    var blank := BlankTail(s.rows, s.cur.y, remove);
    n := remove - blank;
    rows := s.rows[..|s.rows| - blank];
    PushAllIs(s.scrollback, rows[..n], max);
  }

  lemma ShorterText(sb: seq<Row>, rows: seq<Row>, n: nat, gone: seq<Row>)
    requires n <= |rows| && forall y :: 0 <= y < |gone| ==> LastVisible(gone[y].cells) == 0
    ensures Text((sb + Trims(rows[..n])) + rows[n..]) == Text(sb + (rows + gone))
  {
    hide LastVisible, Text, Trims;
    assert sb + (rows + gone) == (sb + rows) + gone;
    BlankLinesGone(sb + rows, gone);
    var x, y := rows[..n], rows[n..];
    assert rows == x + y;
    TrimsTwice(x);
    TrimsConcat(sb, Trims(x));
    TrimsConcat(sb + Trims(x), y);
    TrimsConcat(x, y);
    TrimsConcat(sb, rows);
    ConcatThrice(Trims(sb), Trims(x), Trims(y));
    SameText((sb + Trims(x)) + y, sb + rows);
  }

  lemma TrimsTwice(rows: seq<Row>)
    ensures Trims(Trims(rows)) == Trims(rows)
  {
    hide Trimmed, LastVisible;
    forall y | 0 <= y < |rows| ensures Trims(Trims(rows))[y] == Trims(rows)[y] {
      TrimTwice(rows[y]);
    }
  }

  lemma TrimsConcat(a: seq<Row>, b: seq<Row>)
    ensures Trims(a + b) == Trims(a) + Trims(b)
  {
    hide Trimmed;
  }

  lemma ShorterKeeps(s: Screen, w: nat, h: nat, max: nat)
    requires h <= |s.rows| && s.cur.y >= 0 && Whole(s, w) && |s.scrollback| + (|s.rows| - h) <= max
    ensures var s' := Shorter(s, h, true, max); Text(Lines(s')) == Text(Lines(s)) && Whole(s', w)
  {
    hide LastVisible, Text, Storable, Shorter;
    var rows, n := ShorterParts(s, h, max);
    var gone := s.rows[|rows|..];
    assert s.rows == rows + gone;
    ShorterText(s.scrollback, rows, n, gone);
    var sb, s' := s.scrollback, Shorter(s, h, true, max);
    forall k | 0 <= k < |s'.scrollback| ensures Storable(s'.scrollback[k], w) {
      if k >= |sb| {
        TrimmedStorable(s.rows[k - |sb|], w);
      }
    }
  }

  lemma FitTrimsSame(rows: seq<Row>, w: nat)
    requires AllStorable(rows, w)
    ensures Trims(FitRows(rows, w)) == Trims(rows) && AllStorable(FitRows(rows, w), w)
  {
    hide Trimmed, Fitted, Storable;
    forall y | 0 <= y < |rows| ensures Trims(FitRows(rows, w))[y] == Trims(rows)[y] && Storable(FitRows(rows, w)[y], w) {
      FittedTrims(rows[y], w);
    }
  }

  lemma TallerText(a: seq<Row>, b: seq<Row>, rows: seq<Row>, w: nat, blanks: seq<Row>)
    requires AllStorable(b, w) && forall y :: 0 <= y < |blanks| ==> LastVisible(blanks[y].cells) == 0
    ensures Text(a + (FitRows(b, w) + rows + blanks)) == Text((a + b) + rows)
  {
    hide LastVisible, Text, Trims, Storable;
    var back := FitRows(b, w);
    assert a + (back + rows + blanks) == (a + back) + rows + blanks;
    BlankLinesGone((a + back) + rows, blanks);
    FitTrimsSame(b, w);
    TrimsConcat(a, back);
    TrimsConcat(a, b);
    TrimsConcat(a + back, rows);
    TrimsConcat(a + b, rows);
    SameText((a + back) + rows, (a + b) + rows);
  }

  lemma TallerKeeps(s: Screen, w: nat, h: nat)
    requires |s.rows| <= h && Whole(s, w)
    ensures var s' := Taller(s, w, h, true); Text(Lines(s')) == Text(Lines(s)) && Whole(s', w)
  {
    hide LastVisible, Text, Storable, Fitted, Returning;
    var add := h - |s.rows|;
    var n := Returning(|s.scrollback|, |s.rows|, s.cur.y, add);
    ReturningFits(|s.scrollback|, |s.rows|, s.cur.y, add);
    var sb, m, s' := s.scrollback, |s.scrollback| - n, Taller(s, w, h, true);
    BlankRowsBlank(add - n, w);
    TallerText(sb[..m], sb[m..], s.rows, w, BlankRows(add - n, w, PLAIN));
    assert sb[..m] + sb[m..] == sb;
    FitTrimsSame(sb[m..], w);
  }

  lemma ReturningFits(sb: nat, rows: nat, y: int, n: nat)
    ensures Returning(sb, rows, y, n) <= n && Returning(sb, rows, y, n) <= sb
  {
  }

  lemma BlankRowsBlank(n: nat, w: nat)
    ensures forall y :: 0 <= y < n ==> LastVisible(BlankRows(n, w, PLAIN)[y].cells) == 0 && Storable(BlankRows(n, w, PLAIN)[y], w)
  {
    LastVisibleIs(Blanks(w, PLAIN), 0);
  }

  /** One change of height loses no text, while the scrollback limit holds. */
  lemma HeightKeeps(t: T, h: int)
    requires Whole(t.main, t.w) && |t.main.scrollback| + t.h <= t.maxScrollback + Max(h, 1)
    ensures var u := Resize(t, t.w, h);
      Text(Lines(u.main)) == Text(Lines(t.main)) && Whole(u.main, u.w) && u.w == t.w && u.maxScrollback == t.maxScrollback
  {
    hide Text, Storable, Shorter, Taller, RowsFit, ResizeScreen;
    var h' := if h < 1 then 1 else h;
    if h' != t.h {
      ResizeSteps(t, h');
      if h' < t.h {
        ShorterKeeps(t.main, t.w, h', t.maxScrollback);
      } else {
        TallerKeeps(t.main, t.w, h');
      }
    }
  }

  lemma ResizeSteps(t: T, h: nat)
    requires h >= 1
    ensures |t.main.rows| == t.h && t.main.cur.y >= 0
    ensures var s := ResizeScreen(t.main, t.w, t.w, h, true, t.maxScrollback);
      var s' := if h < t.h then Shorter(t.main, h, true, t.maxScrollback) else Taller(t.main, t.w, h, true);
      s.rows == s'.rows && s.scrollback == s'.scrollback && s.cur.x == s'.cur.x && s.cur.y == Min(s'.cur.y, h - 1) && !s.cur.pendingWrap
  {
    hide Shorter, Taller, RowsFit;
  }

  function Heights(t: T, hs: seq<int>): T
    decreases |hs|
  {
    if hs == [] then t else Heights(Resize(t, t.w, hs[0]), hs[1..])
  }

  /** The scrollback has room for every line that leaves the screen. */
  predicate NeverFull(t: T, hs: seq<int>)
    decreases |hs|
  {
    hs != [] ==> |t.main.scrollback| + t.h <= t.maxScrollback + Max(hs[0], 1) && NeverFull(Resize(t, t.w, hs[0]), hs[1..])
  }

  /** Height resizing conserves lines: after any changes of height that never fill
      the scrollback, scrollback and screen together hold the same lines, trailing
      blanks and trailing blank lines aside. */
  lemma {:induction false} HeightsConserve(t: T, hs: seq<int>)
    requires Whole(t.main, t.w) && NeverFull(t, hs)
    ensures Text(Lines(Heights(t, hs).main)) == Text(Lines(t.main))
    decreases |hs|
  {
    hide Text, Whole, Resize;
    if hs != [] {
      HeightKeeps(t, hs[0]);
      HeightsConserve(Resize(t, t.w, hs[0]), hs[1..]);
    }
  }

  // ---------------------------------------------------------------------------
  // There and back again
  // ---------------------------------------------------------------------------

  lemma FittedBack(r: Row, w: nat)
    requires |r.cells| == w && Storable(r, w) && CellsOk(r.cells)
    ensures Fitted(Trimmed(r), w) == r
  {
    hide CellOk;
    var n := LastVisible(r.cells);
    forall x | n <= x < w ensures r.cells[x] == BLANK {
      BlankIs(r.cells[x]);
    }
    assert r.cells[..n] + Blanks(w - n, PLAIN) == r.cells;
  }

  lemma FitTrims(rows: seq<Row>, w: nat)
    requires forall y :: 0 <= y < |rows| ==> |rows[y].cells| == w && Storable(rows[y], w) && CellsOk(rows[y].cells)
    ensures FitRows(Trims(rows), w) == rows
  {
    hide Fitted, Trimmed, CellsOk, Storable;
    var got := FitRows(Trims(rows), w);
    forall y | 0 <= y < |rows| ensures got[y] == rows[y] {
      FittedBack(rows[y], w);
    }
    assert |got| == |rows|;
  }

  /** Shrinking with the cursor on the bottom row scrolls the top rows off. */
  lemma ShorterAtBottom(s: Screen, h: nat, max: nat)
    requires 1 <= h <= |s.rows| && s.cur.y == |s.rows| - 1 && |s.scrollback| + (|s.rows| - h) <= max
    ensures var n := |s.rows| - h; var s' := Shorter(s, h, true, max);
      s'.rows == s.rows[n..] && s'.scrollback == s.scrollback + Trims(s.rows[..n]) && s'.cur == s.cur.(y := h - 1)
  {
    hide LastVisible, PushAll;
    var n := |s.rows| - h;
    assert BlankTail(s.rows, s.cur.y, n) == 0;
    assert s.rows[..|s.rows| - 0] == s.rows;
    PushAllIs(s.scrollback, s.rows[..n], max);
  }

  /** Growing it back fetches them. */
  lemma TallerAtBottom(s: Screen, w: nat, h: nat, sb: seq<Row>, top: seq<Row>)
    requires |s.rows| + |top| == h && s.cur.y == |s.rows| - 1 && s.scrollback == sb + Trims(top)
    ensures var s' := Taller(s, w, h, true);
      s'.rows == FitRows(Trims(top), w) + s.rows && s'.scrollback == sb && s'.cur == s.cur.(y := s.cur.y + |top|)
  {
    hide Fitted, Trimmed;
    assert s.scrollback[|sb|..] == Trims(top) && s.scrollback[..|sb|] == sb;
    assert FitRows(Trims(top), w) + s.rows + BlankRows(0, w, PLAIN) == FitRows(Trims(top), w) + s.rows;
  }

  /** Shrink, then grow back, with the cursor on the bottom row: screen, scrollback
      and cursor position are as they were. */
  lemma ShrinkGrow(t: T, h: nat)
    requires 1 <= h < t.h && t.main.cur.y == t.h - 1 && |t.main.scrollback| + (t.h - h) <= t.maxScrollback
    requires Whole(t.main, t.w) && forall y :: 0 <= y < t.h ==> CellsOk(t.main.rows[y].cells)
    ensures var u := Resize(Resize(t, t.w, h), t.w, t.h);
      u.main.rows == t.main.rows && u.main.scrollback == t.main.scrollback
      && u.main.cur == Cursor(t.main.cur.x, t.main.cur.y, false)
  {
    hide RowsFit, Storable, CellsOk, Shorter, Taller, Fitted, Trimmed, ResizeScreen;
    var n := t.h - h;
    var s, top := t.main, t.main.rows[..n];
    var t1 := Resize(t, t.w, h);
    TermRowsAre(t);
    ResizeSteps(t, h);
    ShorterAtBottom(s, h, t.maxScrollback);
    ResizedTo(t, h);
    ResizeSteps(t1, t.h);
    SameTaller(t1.main, Shorter(s, h, true, t.maxScrollback), t.w, t.h);
    TallerAtBottom(t1.main, t.w, t.h, s.scrollback, top);
    FitTrims(top, t.w);
    ResizedTo(t1, t.h);
    assert top + s.rows[n..] == s.rows;
  }

  lemma TermRowsAre(t: T)
    ensures |t.main.rows| == t.h && forall y :: 0 <= y < t.h ==> |t.main.rows[y].cells| == t.w
  {
  }

  lemma ResizedTo(t: T, h: nat)
    requires h >= 1 && h != t.h
    ensures var u := Resize(t, t.w, h);
      u.w == t.w && u.h == h && u.maxScrollback == t.maxScrollback && u.main == ResizeScreen(t.main, t.w, t.w, h, true, t.maxScrollback)
  {
    hide ResizeScreen, RowsFit;
  }

  lemma SameTaller(a: Screen, b: Screen, w: nat, h: nat)
    requires a.rows == b.rows && a.scrollback == b.scrollback && a.cur.y == b.cur.y && |a.rows| <= h
    ensures Taller(a, w, h, true).rows == Taller(b, w, h, true).rows
  {
  }
}
