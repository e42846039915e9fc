/** A client that starts from the snapshot keeps showing what the server's
    terminal shows. */
module Rejoin {
  import opened Utf8
  import opened Parser
  import opened Resync
  import opened Sequences
  import opened Terminal
  import opened Dispatch
  import opened Snapshots
  import opened Content
  import opened RoundTrip
  import opened Receiving
  import opened Fidelity
  import opened Exactness
  import opened AltRoundTrip
  import opened Simulation

  /** What a snapshot writes, of the active screen or of both, can be read. */
  predicate Drawable(t: T) { if t.altActive then AltPresentable(t) else Presentable(t) }

  /** The snapshot reproduces the state, of the active screen or of both. */
  predicate Reproduced(t: T)
    requires Drawable(t)
  {
    if t.altActive then MainExact(t, t.maxScrollback) && AltExact(t)
    else Laid(t, t.maxScrollback) && NoBleed(t) && SavedPlain(t) && WrapDrawn(t) && Reaches(t)
  }

  /** A terminal whose snapshot says everything of it: it is reproduced exactly, its
      tab stops are the default ones, and no cursor is saved on an alternate screen
      that is not active. */
  predicate Telling(t: T) {
    && Drawable(t) && Reproduced(t) && t.tabStops == DefaultTabStops(t.w)
    && (t.main.saved.valid || t.main.saved == NO_SAVED)
    && (if t.altActive then t.alt.saved.valid || t.alt.saved == NO_SAVED else t.alt.saved == NO_SAVED)
  }

  /** A server a client may join: its snapshot says everything of its terminal, and
      its parser is between sequences. */
  predicate Joinable(e: Emulator) { Ready(e.p) && Telling(e.t) }

  /** The client's emulator once it has read the snapshot. */
  function Joined(t: T): Emulator { Write(NewEmulator(t.w, t.h, t.maxScrollback), Snapshot(t)) }

  lemma JoinedParts(d: T, t: T)
    requires Presentable(t) && !t.altActive && AllCellsOk(AllLines(t))
    requires var u := Retyped(t);
      |ScreenOf(u)| == t.h && RowsFit(ScreenOf(u), t.w) && Rebuilt(d, t, t.maxScrollback, ScreenOf(u), HistoryOf(u, t.maxScrollback))
    requires SameState(d, t) <==> Reproduced(t)
    ensures Sim(false, d, t) <==> Telling(t)
  {
    hide Presentable, ScreenFits, NoBleed, Laid, Retyped, ScreenOf, HistoryOf, Back, Redrawn, WrapDrawn, Reaches, AllCellsOk, Reproduced;
    SavedSame(t.main.saved);
    FreshSaved(t.w, t.h);
  }

  lemma SavedSame(sv: Saved)
    ensures Kept(sv) == sv <==> SameSaved(Kept(sv), sv) && (sv.valid || sv == NO_SAVED)
  {
  }

  lemma FreshSaved(w: nat, h: nat)
    requires w >= 2 && h >= 1
    ensures NewScreen(w, h).saved == NO_SAVED
  {
  }

  lemma AltJoinedParts(d: T, t: T)
    requires AltPresentable(t) && AllCellsOk(t.alt.rows) && AllCellsOk(AllLines(MainOf(t)))
    requires !AsMain(t).altActive && AsMain(t).w == t.w && AsMain(t).h == t.h
    requires |ScreenOf(AltTyped(t))| == t.h && RowsFit(ScreenOf(AltTyped(t)), t.w)
    requires AltRebuilt(d, t, LeftBehind(t, t.maxScrollback), ScreenOf(AltTyped(t)), t.maxScrollback)
    ensures Sim(false, d, t) <==> Telling(t)
  {
    hide Presentable, ScreenFits, MainOf, AsMain, Redrawn, Back, MainExact, AltExact, AllCellsOk, ScreenOf, AltTyped, Reaches, RowsFit,
      HistoryOf, Retyped;
    AltRebuiltExact(d, t, t.maxScrollback);
    AltEmpty(t);
    SavedSame(t.alt.saved);
  }

  /** The client that read the snapshot is similar to the server exactly when the
      snapshot says everything. */
  lemma JoinedExact(t: T)
    requires Drawable(t)
    ensures Ready(Joined(t).p) && (Sim(false, Joined(t).t, t) <==> Telling(t))
  {
    hide Write, Snapshot, Presentable, SavedPlain, WrapDrawn, NoBleed, Laid, Reaches, Rebuilt, Sim, AltPresentable, AltExact, MainExact,
      AltRebuilt, MainOf, AsMain, Telling, SameState, ScreenOf, HistoryOf, Retyped, AltTyped, LeftBehind, AllCellsOk, RowsFit;
    if t.altActive {
      AltSnapshotRebuilds(t, t.maxScrollback);
      AltJoinedParts(Joined(t).t, t);
    } else {
      SnapshotRebuilds(t, t.maxScrollback);
      SnapshotRoundTrip(t, t.maxScrollback);
      JoinedParts(Joined(t).t, t);
    }
  }

  lemma JoinedSim(e: Emulator)
    requires Joinable(e)
    ensures Ready(Joined(e.t).p) && Sim(false, Joined(e.t).t, e.t)
  {
    hide Reproduced, Joined, Sim, AltPresentable, Presentable;
    JoinedExact(e.t);
  }

  lemma ReadyLive(p: PState, q: PState)
    requires Ready(p) && Ready(q)
    ensures LiveEq(p, q)
  {
  }

  /** Whatever the program prints next, server and client react alike, unless it
      repeats a rune it printed before the snapshot. */
  lemma JoinedFollows(e: Emulator, out: seq<byte>) returns (known: bool)
    requires Joinable(e) && RepeatsOwn(false, e.t, Parse(e.p, out).acts)
    ensures Sim(known, Write(Joined(e.t), out).t, Write(e, out).t)
    ensures LiveEq(Write(Joined(e.t), out).p, Write(e, out).p)
  {
    hide ParseLoop, ApplyAll, RepeatsOwn, Sim, Joined, Telling;
    JoinedSim(e);
    var c := Joined(e.t);
    ReadyLive(c.p, e.p);
    LoopLive(c.p, e.p, out);
    known := SimRun(false, c.t, e.t, Parse(e.p, out).acts);
  }

  /** What similar terminals show: lines, history, cursor, pen, modes, title. */
  lemma SimShows(known: bool, d: T, t: T)
    requires Sim(known, d, t)
    ensures Active(d) == Active(t) && d.main == t.main && d.altActive == t.altActive
    ensures d.pen == t.pen && d.link == t.link && d.modes == t.modes && d.title == t.title && d.charsets == t.charsets
  {
    hide ScreenFits;
  }
}
