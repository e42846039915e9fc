/** The snapshot round trip of every run: from a fresh terminal, any well-formed
    output, any changes of size and of the limit, in whatever order. */
module Restorable {
  import opened Utf8
  import opened Cells
  import opened Parser
  import opened Sequences
  import opened Terminal
  import opened Dispatch
  import opened Snapshots
  import opened Content
  import opened Restore
  import opened RoundTrip
  import opened Exactness
  import opened AltRoundTrip
  import opened Reachable
  import Resizing
  import Storing
  import Conserving

  lemma LinesTidy(a: seq<Row>, b: seq<Row>, w: int)
    requires AllCellsOk(a) && RowsOk(b, w)
    ensures AllCellsOk(a + b) && AllCellsOk(b)
  {
    hide CellsOk;
  }

  /** A tidy terminal on its main screen holds nothing its snapshot could not write. */
  lemma TidyPresents(t: T)
    requires Tidy(t) && !t.altActive && t.w <= MAX_VALUE && t.h <= MAX_VALUE
    ensures Presentable(t)
  {
    hide RowsOk, AllCellsOk, LinkOk, TextOk, MouseOk, MouseEncOk, ScreenFits;
    LinesTidy(t.main.scrollback, t.main.rows, t.w);
  }

  lemma MainTidy(t: T)
    requires Tidy(t)
    ensures Tidy(MainOf(t)) && !MainOf(t).altActive && MainOf(t).w == t.w && MainOf(t).h == t.h
  {
    hide ScreenOk, LinkOk, TextOk, ScreenFits;
  }

  lemma AltLinesTidy(t: T)
    requires Tidy(t)
    ensures AllCellsOk(t.alt.rows)
  {
    hide RowsOk, AllCellsOk, LinkOk, TextOk, ModesOk, ScreenFits;
    NoLines();
    LinesTidy([], t.alt.rows, t.w);
  }

  lemma NoLines()
    ensures AllCellsOk([])
  {
  }

  lemma TidyAltPresents(t: T)
    requires Tidy(t) && t.altActive && t.w <= MAX_VALUE && t.h <= MAX_VALUE
    ensures AltPresentable(t)
  {
    hide Tidy, Presentable, MainOf, AllCellsOk;
    MainTidy(t);
    TidyPresents(MainOf(t));
    AltLinesTidy(t);
  }

  /** Snapshot round trip over all runs that end on the main screen: the snapshot
      rebuilds the terminal, in a fresh one of its size and limit, exactly when its
      lines are laid as typing them again lays them, no line bleeds, the saved cursor
      is plain, the pending wrap can be drawn and origin mode reaches the cursor. */
  lemma RunRoundTrip(w: nat, h: nat, max: nat, evs: seq<Resizing.WideEvent>)
    requires w >= 2 && h >= 1 && NoTorn(Conserving.Written(evs))
    ensures var t := Resizing.Run(NewEmulator(w, h, max), evs).t;
      !t.altActive && t.w <= MAX_VALUE && t.h <= MAX_VALUE ==>
        var e := Write(NewEmulator(t.w, t.h, t.maxScrollback), Snapshot(t));
        && Ready(e.p)
        && (SameState(e.t, t) <==> Laid(t, t.maxScrollback) && NoBleed(t) && SavedPlain(t) && WrapDrawn(t) && Reaches(t))
  {
    hide Write, Resizing.Run, NoTorn, Tidy, Laid, Presentable, Snapshot, SameState, SavedPlain, WrapDrawn, NoBleed, Reaches;
    var t := Resizing.Run(NewEmulator(w, h, max), evs).t;
    Conserving.RunsTidy(w, h, max, evs);
    if !t.altActive && t.w <= MAX_VALUE && t.h <= MAX_VALUE {
      TidyPresents(t);
      SnapshotRoundTrip(t, t.maxScrollback);
    }
  }

  /** The round trip over all runs that end on the alternate screen: both screens come
      back exactly when each of the two does. */
  lemma RunAltRoundTrip(w: nat, h: nat, max: nat, evs: seq<Resizing.WideEvent>)
    requires w >= 2 && h >= 1 && NoTorn(Conserving.Written(evs))
    ensures var t := Resizing.Run(NewEmulator(w, h, max), evs).t;
      t.altActive && t.w <= MAX_VALUE && t.h <= MAX_VALUE ==>
        var e := Write(NewEmulator(t.w, t.h, t.maxScrollback), Snapshot(t));
        && AllCellsOk(t.alt.rows) && Ready(e.p)
        && (SameScreens(e.t, t) <==> MainExact(t, t.maxScrollback) && AltExact(t))
  {
    hide Write, Resizing.Run, NoTorn, Tidy, AltPresentable, Snapshot, SameScreens, MainExact, AltExact, AllCellsOk;
    var t := Resizing.Run(NewEmulator(w, h, max), evs).t;
    Conserving.RunsTidy(w, h, max, evs);
    if t.altActive && t.w <= MAX_VALUE && t.h <= MAX_VALUE {
      TidyAltPresents(t);
      AltSnapshotRoundTrip(t, t.maxScrollback);
    }
  }

  /** Runs of output alone store only trimmed lines that fit, within the limit: what
      a line stored before a change of width may break. */
  lemma OutputStores(w: nat, h: nat, max: nat, chunks: seq<seq<byte>>)
    requires w >= 2 && h >= 1
    ensures var t := WriteAll(NewEmulator(w, h, max), chunks).t;
      t.w == w && t.h == h && t.maxScrollback == max && Archived(t.main.scrollback, w, max)
  {
    hide Write, WriteAll, ParseAll, ApplyAll;
    var e := NewEmulator(w, h, max);
    WriteAllIs(e, chunks);
    NothingArchived(w, max);
    Storing.RunStored(e.t, ParseAll(e.p, chunks).acts);
  }
}
