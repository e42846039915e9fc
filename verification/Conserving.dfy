/** Runs of output, changes of size and changes of the limit: everything stays such
    as a snapshot can write, and runs that never change the width keep every line
    whole, so that changes of height after them conserve lines. */
module Conserving {
  import opened Utf8
  import opened Cells
  import opened Parser
  import opened Sequences
  import opened Terminal
  import opened Dispatch
  import opened Content
  import opened Reachable
  import Resizing
  import Storing

  // ---------------------------------------------------------------------------
  // A change of size keeps lines fine
  // ---------------------------------------------------------------------------

  lemma FittedFine(r: Row, w: nat)
    requires w >= 1 && CellsOk(r.cells)
    ensures Fine(Fitted(r, w).cells, w)
  {
    hide CellOk;
    BlankTidy(PLAIN);
  }

  lemma FitFine(rows: seq<Row>, w: nat)
    requires w >= 1 && AllCellsOk(rows)
    ensures RowsOk(Resizing.FitRows(rows, w), w)
  {
    hide Fine, Fitted, CellsOk;
    forall y | 0 <= y < |rows| ensures Fine(Resizing.FitRows(rows, w)[y].cells, w) {
      FittedFine(rows[y], w);
    }
  }

  lemma RowsCells(rows: seq<Row>, w: int)
    requires RowsOk(rows, w)
    ensures AllCellsOk(rows)
  {
    hide CellsOk;
  }

  lemma SliceCells(rows: seq<Row>, i: nat)
    requires AllCellsOk(rows) && i <= |rows|
    ensures AllCellsOk(rows[..i]) && AllCellsOk(rows[i..])
  {
    hide CellsOk;
  }

  lemma TallerFine(s: Screen, w: nat, h: nat, useScrollback: bool)
    requires w >= 1 && |s.rows| <= h && ScreenOk(s, w)
    ensures ScreenOk(Resizing.Taller(s, w, h, useScrollback), w)
  {
    hide RowsOk, LinkOk, Resizing.FitRows, AllCellsOk;
    var add := h - |s.rows|;
    var n := if useScrollback then Resizing.Returning(|s.scrollback|, |s.rows|, s.cur.y, add) else 0;
    var k := |s.scrollback| - n;
    SliceCells(s.scrollback, k);
    FitFine(s.scrollback[k..], w);
    BlankRowsTidy(add - n, w, PLAIN);
    NoRowsTidy(w);
    JoinTidy(w, Resizing.FitRows(s.scrollback[k..], w), s.rows, BlankRows(add - n, w, PLAIN), []);
    var rows := Resizing.FitRows(s.scrollback[k..], w) + s.rows + BlankRows(add - n, w, PLAIN);
    assert rows + [] == rows;
  }

  lemma ShorterFine(s: Screen, w: nat, h: nat, useScrollback: bool, max: nat)
    requires h <= |s.rows| && ScreenOk(s, w)
    ensures ScreenOk(Resizing.Shorter(s, h, useScrollback, max), w)
  {
    hide RowsOk, LinkOk, AllCellsOk, PushAll, Resizing.BlankTail;
    var remove := |s.rows| - h;
    var blank := Resizing.BlankTail(s.rows, s.cur.y, remove);
    var n := remove - blank;
    var rows := s.rows[..|s.rows| - blank];
    SliceTidy(s.rows, w, 0, |s.rows| - blank);
    assert s.rows[0..|s.rows| - blank] == rows;
    SliceTidy(rows, w, n, |rows|);
    assert rows[n..|rows|] == rows[n..];
    FirstTidy(rows, w, n);
    PushAllTidy(s.scrollback, rows[..n], w, max);
  }

  lemma ScreenFine(s: Screen, w0: nat, w: nat, h: nat, useScrollback: bool, max: nat)
    requires w >= 1 && h >= 1 && ScreenOk(s, w0)
    ensures ScreenOk(Resizing.ResizeScreen(s, w0, w, h, useScrollback, max), w)
  {
    hide RowsOk, LinkOk, Resizing.Shorter, Resizing.Taller, AllCellsOk, Resizing.FitRows;
    RowsCells(s.rows, w0);
    FitFine(s.rows, w);
    var s1 := if w == w0 then s
      else s.(rows := Resizing.FitRows(s.rows, w), cur := s.cur.(x := Min(s.cur.x, w - 1)), saved := s.saved.(x := Min(s.saved.x, w - 1)));
    if h < |s1.rows| {
      ShorterFine(s1, w, h, useScrollback, max);
    } else {
      TallerFine(s1, w, h, useScrollback);
    }
  }

  lemma ResizeTidy(t: T, w: int, h: int)
    requires w >= 2 && Tidy(t)
    ensures var u := Resizing.Resize(t, w, h); Tidy(u) && u.w == w
  {
    hide ScreenOk, LinkOk, TextOk, ModesOk, Resizing.ResizeScreen;
    var h' := if h < 1 then 1 else h;
    Wide(t);
    ScreenFine(t.main, t.w, w, h', true, t.maxScrollback);
    ScreenFine(t.alt, t.w, w, h', false, t.maxScrollback);
  }

  lemma Wide(t: T)
    ensures t.w >= 2
  {
  }

  lemma LimitTidy(t: T, n: int)
    requires Tidy(t)
    ensures var u := Resizing.SetMaxScrollback(t, n); Tidy(u) && u.w == t.w
  {
    hide RowsOk, LinkOk, TextOk, ModesOk, AllCellsOk;
    var sb, max := t.main.scrollback, if n < 0 then 0 else n;
    if |sb| > max {
      SliceCells(sb, |sb| - max);
    }
  }

  // ---------------------------------------------------------------------------
  // Runs
  // ---------------------------------------------------------------------------

  /** All output of a run. */
  function Written(evs: seq<Resizing.WideEvent>): seq<byte> {
    if evs == [] then [] else (if evs[0].Output? then evs[0].data else []) + Written(evs[1..])
  }

  /** A terminal and parser between writes. */
  predicate Steady(e: Emulator) { Tidy(e.t) && Bounded(e.p) && Pending(e.p) && NoControls(e.p.osc) }

  lemma NewSteady(w: nat, h: nat, max: nat)
    requires w >= 2 && h >= 1
    ensures Steady(NewEmulator(w, h, max))
  {
    hide Tidy, Bounded, Pending, NoControls;
    InitBounded();
    InitPending();
    NewTidy(w, h, max);
  }

  lemma OutputSteady(e: Emulator, data: seq<byte>, rest: seq<byte>)
    requires Steady(e) && NoTorn(e.p.partial + (data + rest))
    ensures var e' := Write(e, data); Steady(e') && NoTorn(e'.p.partial + rest)
    ensures AllOk(Parse(e.p, data).acts) && AllClean(Parse(e.p, data).acts)
  {
    hide Tidy, Bounded, Pending, NoControls, NoTorn, Parse, ApplyAll, ActionOk, ActionClean;
    ParseCut(e.p, data, rest);
    NoTornPart(e.p.partial, data, rest);
    ParseBounded(e.p, data);
    ParseClean(e.p, data);
    ApplyAllTidy(e.t, Parse(e.p, data).acts);
  }

  lemma NoTornPart(a: seq<byte>, b: seq<byte>, c: seq<byte>)
    requires NoTorn(a + (b + c))
    ensures NoTorn(a + b)
  {
    hide NoTorn;
    assert a + (b + c) == (a + b) + c;
    NoTornPrefix((a + b) + c, |a + b|);
    assert ((a + b) + c)[..|a + b|] == a + b;
  }

  lemma EventSteady(e: Emulator, ev: Resizing.WideEvent, rest: seq<byte>)
    requires Steady(e) && NoTorn(e.p.partial + ((if ev.Output? then ev.data else []) + rest))
    ensures Steady(Resizing.Do(e, ev)) && NoTorn(Resizing.Do(e, ev).p.partial + rest)
  {
    hide Tidy, Bounded, Pending, NoControls, NoTorn, Write, Resizing.Resize, Resizing.SetMaxScrollback;
    match ev {
      case Output(data) =>
        OutputSteady(e, data, rest);
      case Sized(w, h) =>
        ResizeTidy(e.t, w, h);
        assert [] + rest == rest;
      case Limited(n) =>
        LimitTidy(e.t, n);
        assert [] + rest == rest;
    }
  }

  lemma {:induction false} RunSteady(e: Emulator, evs: seq<Resizing.WideEvent>)
    requires Steady(e) && NoTorn(e.p.partial + Written(evs))
    ensures Tidy(Resizing.Run(e, evs).t)
    decreases |evs|
  {
    hide Steady, NoTorn, Resizing.Do;
    if evs == [] {
      SteadyTidy(e);
    } else {
      EventSteady(e, evs[0], Written(evs[1..]));
      RunSteady(Resizing.Do(e, evs[0]), evs[1..]);
    }
  }

  lemma SteadyTidy(e: Emulator)
    requires Steady(e)
    ensures Tidy(e.t)
  {
    hide Tidy, Bounded, Pending, NoControls;
  }

  /** After any run of well-formed output, changes of size and changes of the limit,
      cells, links, title and modes can be written. */
  lemma RunsTidy(w: nat, h: nat, max: nat, evs: seq<Resizing.WideEvent>)
    requires w >= 2 && h >= 1 && NoTorn(Written(evs))
    ensures Tidy(Resizing.Run(NewEmulator(w, h, max), evs).t)
  {
    hide Tidy, Steady, NoTorn, Resizing.Run;
    NewSteady(w, h, max);
    assert INIT.partial + Written(evs) == Written(evs);
    RunSteady(NewEmulator(w, h, max), evs);
  }

  // ---------------------------------------------------------------------------
  // Runs that keep the width
  // ---------------------------------------------------------------------------

  predicate SameWidth(ev: Resizing.Event, w: int) { ev.Sized? ==> ev.w == w }

  predicate AllSameWidth(evs: seq<Resizing.WideEvent>, w: int) { forall i :: 0 <= i < |evs| ==> SameWidth(evs[i], w) }

  /** The stored lines come back whole. */
  predicate Shelved(t: T) { Resizing.AllStorable(t.main.scrollback, t.w) }

  lemma SliceShelved(rows: seq<Row>, w: nat, i: nat)
    requires Resizing.AllStorable(rows, w) && i <= |rows|
    ensures Resizing.AllStorable(rows[..i], w) && Resizing.AllStorable(rows[i..], w)
  {
    hide Resizing.Storable;
  }

  lemma ShorterShelved(s: Screen, w: nat, h: nat, max: nat)
    requires w >= 1 && h <= |s.rows| && RowsOk(s.rows, w) && Resizing.AllStorable(s.scrollback, w)
    ensures Resizing.AllStorable(Resizing.Shorter(s, h, true, max).scrollback, w)
  {
    hide RowsOk, PushAll, Resizing.BlankTail, Resizing.AllStorable;
    var remove := |s.rows| - h;
    var blank := Resizing.BlankTail(s.rows, s.cur.y, remove);
    var n := remove - blank;
    var rows := s.rows[..|s.rows| - blank];
    FirstTidy(s.rows, w, |s.rows| - blank);
    FirstTidy(rows, w, n);
    Storing.PushAllWhole(s.scrollback, rows[..n], w, max);
  }

  lemma TallerShelved(s: Screen, w: nat, h: nat)
    requires |s.rows| <= h && Resizing.AllStorable(s.scrollback, w)
    ensures Resizing.AllStorable(Resizing.Taller(s, w, h, true).scrollback, w)
  {
    hide Resizing.FitRows, Resizing.AllStorable;
    var n := Resizing.Returning(|s.scrollback|, |s.rows|, s.cur.y, h - |s.rows|);
    SliceShelved(s.scrollback, w, |s.scrollback| - n);
  }

  lemma HeightShelved(t: T, h: int)
    requires Tidy(t) && Shelved(t)
    ensures var u := Resizing.Resize(t, t.w, h); Shelved(u) && u.w == t.w
  {
    hide RowsOk, LinkOk, TextOk, ModesOk, RowsFit, Resizing.Shorter, Resizing.Taller, Resizing.AllStorable, AllCellsOk;
    var h' := if h < 1 then 1 else h;
    if h' < t.h {
      ShorterShelved(t.main, t.w, h', t.maxScrollback);
    } else if h' > t.h {
      TallerShelved(t.main, t.w, h');
    }
  }

  lemma LimitShelved(t: T, n: int)
    requires Shelved(t)
    ensures var u := Resizing.SetMaxScrollback(t, n); Shelved(u) && u.w == t.w
  {
    hide Resizing.AllStorable;
    var sb, max := t.main.scrollback, if n < 0 then 0 else n;
    if |sb| > max {
      SliceShelved(sb, t.w, |sb| - max);
    }
  }

  lemma OutputShelved(e: Emulator, data: seq<byte>)
    requires Tidy(e.t) && Shelved(e.t) && AllOk(Parse(e.p, data).acts) && AllClean(Parse(e.p, data).acts)
    ensures var e' := Write(e, data); Shelved(e'.t) && e'.t.w == e.t.w
  {
    hide Tidy, Parse, ApplyAll, ActionOk, ActionClean, Resizing.AllStorable;
    Wide(e.t);
    Storing.RunWhole(e.t, Parse(e.p, data).acts);
  }

  lemma EventShelved(e: Emulator, ev: Resizing.WideEvent, rest: seq<byte>)
    requires Steady(e) && NoTorn(e.p.partial + ((if ev.Output? then ev.data else []) + rest)) && SameWidth(ev, e.t.w) && Shelved(e.t)
    ensures Shelved(Resizing.Do(e, ev).t) && Resizing.Do(e, ev).t.w == e.t.w
  {
    hide Steady, NoTorn, Write, Resizing.Resize, Resizing.SetMaxScrollback, Shelved, ActionOk, ActionClean, Tidy, AllOk, AllClean;
    SteadyTidy(e);
    match ev {
      case Output(data) =>
        OutputSteady(e, data, rest);
        OutputShelved(e, data);
      case Sized(w, h) =>
        HeightShelved(e.t, h);
      case Limited(n) =>
        LimitShelved(e.t, n);
    }
  }

  lemma {:induction false} RunShelved(e: Emulator, evs: seq<Resizing.WideEvent>)
    requires Steady(e) && NoTorn(e.p.partial + Written(evs)) && AllSameWidth(evs, e.t.w) && Shelved(e.t)
    ensures Shelved(Resizing.Run(e, evs).t)
    decreases |evs|
  {
    hide Steady, NoTorn, Resizing.Do, Shelved, SameWidth;
    if evs != [] {
      assert SameWidth(evs[0], e.t.w);
      EventSteady(e, evs[0], Written(evs[1..]));
      EventShelved(e, evs[0], Written(evs[1..]));
      RunShelved(Resizing.Do(e, evs[0]), evs[1..]);
    }
  }

  lemma TidyWhole(t: T)
    requires Tidy(t) && Shelved(t)
    ensures Resizing.Whole(t.main, t.w)
  {
    hide CellsOk, LinkOk, TextOk, ModesOk;
  }

  /** After any run of well-formed output, changes of height and of the limit, in
      whatever order, further changes of height conserve lines as long as they do
      not fill the scrollback. */
  lemma RunsConserve(w: nat, h: nat, max: nat, evs: seq<Resizing.WideEvent>, hs: seq<int>)
    requires w >= 2 && h >= 1 && AllSameWidth(evs, w) && NoTorn(Written(evs))
    ensures var t := Resizing.Run(NewEmulator(w, h, max), evs).t;
      Resizing.NeverFull(t, hs) ==>
        Resizing.Text(Resizing.Lines(Resizing.Heights(t, hs).main)) == Resizing.Text(Resizing.Lines(t.main))
  {
    hide Tidy, Steady, NoTorn, Resizing.Whole, Resizing.Run, Resizing.NeverFull, Resizing.Heights;
    var e := NewEmulator(w, h, max);
    NewSteady(w, h, max);
    RunsTidy(w, h, max, evs);
    assert INIT.partial + Written(evs) == Written(evs);
    RunShelved(e, evs);
    var t := Resizing.Run(e, evs).t;
    TidyWhole(t);
    if Resizing.NeverFull(t, hs) {
      Resizing.HeightsConserve(t, hs);
    }
  }
}
