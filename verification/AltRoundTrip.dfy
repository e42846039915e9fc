/** The snapshot round trip with the alternate screen active. The receiver enters its
    alternate screen with the main cursor's position, and the rows are written from
    there; the line feeds between them scroll that offset away again. */
module AltRoundTrip {
  import opened Utf8
  import opened Cells
  import opened Parser
  import opened Sequences
  import opened Terminal
  import opened Dispatch
  import opened Snapshots
  import opened Content
  import opened Paint
  import opened Typewriter
  import opened Receiving
  import opened Restore
  import opened RoundTrip
  import opened Fidelity
  import opened Exactness
  import opened Carrying
  import opened Twins

  // ---------------------------------------------------------------------------
  // The two screens as main screens
  // ---------------------------------------------------------------------------

  /** The terminal on its main screen, as the snapshot writes it: outside origin mode. */
  function MainOf(t: T): T { t.(altActive := false, modes := t.modes.(origin := false)) }

  /** The terminal as if its alternate screen were its main one. */
  function AsMain(t: T): T { t.(altActive := false, main := t.alt) }

  /** A terminal on its alternate screen that holds nothing the snapshot could not write. */
  predicate AltPresentable(t: T) { t.altActive && Presentable(MainOf(t)) && AllCellsOk(t.alt.rows) }

  lemma MainParts(t: T)
    ensures var m := MainOf(t);
      && !m.altActive && m.main == t.main && m.w == t.w && m.h == t.h && !m.modes.origin && Reaches(m)
      && AllLines(m) == t.main.scrollback + t.main.rows && 0 <= t.main.cur.x < t.w && 0 <= t.main.cur.y < t.h && t.w >= 2
  {
    hide RowsFit;
  }

  lemma AltParts(t: T)
    ensures var v := AsMain(t);
      && !v.altActive && v.main == t.alt && v.w == t.w && v.h == t.h && v.pen == t.pen && v.link == t.link && v.modes == t.modes
      && v.title == t.title && v.charsets == t.charsets && AllLines(v) == v.main.rows == t.alt.rows
  {
    hide RowsFit;
    assert t.alt.scrollback == [];
    assert AllLines(AsMain(t)) == t.alt.rows;
  }

  lemma AltPresents(t: T)
    requires AltPresentable(t)
    ensures Presentable(AsMain(t)) && Presentable(MainOf(t)) && t.altActive
    ensures !AsMain(t).altActive && AllCellsOk(AsMain(t).main.rows) && !MainOf(t).altActive && AllCellsOk(AllLines(MainOf(t)))
    ensures MouseOk(t.modes.mouse) && MouseEncOk(t.modes.mouseEnc)
  {
    hide AllCellsOk, ScreenFits, LinkOk, TextOk, MouseOk, MouseEncOk;
    AltParts(t);
    MainParts(t);
  }

  // ---------------------------------------------------------------------------
  // Entering the alternate screen
  // ---------------------------------------------------------------------------

  /** What 1049 saves on the receiver: the main cursor's position and a plain pen. */
  function Entry(t: T): Saved { Saved(t.main.cur.x, t.main.cur.y, PLAIN, [], ASCII_SETS, false, true) }

  /** The receiver's main screen from then on. */
  function Left(t: T, rows: seq<Row>, sb: seq<Row>): Screen
    requires |rows| == t.h && RowsFit(rows, t.w)
  {
    var s := t.main;
    Screen(Back(MainOf(t), rows), Cursor(s.cur.x, s.cur.y, Redrawn(MainOf(t))), Entry(t), s.top, s.bot, sb)
  }

  lemma DoEnter(d: T)
    ensures Do(d, SetPiece(1049)) == EnterAlt(d, true)
  {
    hide Do, EnterAlt;
    DoPrivate(d, 1049, true);
  }

  /** The tape with which the alternate screen starts: a blank line for each row above
      the main cursor, and its column. */
  function EntryTape(t: T): (u: Tape)
    ensures u.w == t.w && u.h == t.h
  {
    MainParts(t);
    FreshTape(t.w, t.h, t.main.cur.y, t.main.cur.x)
  }

  /** The twin of the receiver that has just entered its alternate screen. */
  lemma EntryIs(t: T, max: nat, r: Rune)
    ensures Takes(Base(t.w, t.h, max), EntryTape(t))
    ensures On(Base(t.w, t.h, max), EntryTape(t), DRY, r)
      == Frame(Base(t.w, t.h, max), BlankRows(t.h, t.w, PLAIN), [], Cursor(t.main.cur.x, t.main.cur.y, false), DRY, r)
  {
    hide Base, Sound, ScreenOf, HistoryOf, RowsFit, Plain;
    MainParts(t);
    BaseIs(t.w, t.h, max);
    FreshIs(t.w, t.h, t.main.cur.y, t.main.cur.x, max);
    OnIs(Base(t.w, t.h, max), EntryTape(t), DRY, r);
  }

  /** The receiver that has drawn the main screen and enters the alternate one. */
  lemma EnterTwin(d: T, t: T, max: nat, rows: seq<Row>, sb: seq<Row>)
    requires t.altActive && |rows| == t.h && RowsFit(rows, t.w) && Placed(d, MainOf(t), max, rows, sb)
    ensures Takes(Base(t.w, t.h, max), EntryTape(t))
    ensures Twin(Left(t, rows, sb), max, EnterAlt(d, true), On(Base(t.w, t.h, max), EntryTape(t), DRY, d.lastPrinted))
  {
    hide Back, Redrawn, ClearRows, On, Base, RowsFit, EntryTape;
    MainParts(t);
    EntryIs(t, max, d.lastPrinted);
    BaseIs(t.w, t.h, max);
    ClearedRows(t.h, t.w);
  }

  lemma ClearedRows(h: nat, w: nat)
    ensures RowsFit(BlankRows(h, w, PLAIN), w)
    ensures ClearRows(BlankRows(h, w, PLAIN), 0, h, w, PLAIN) == BlankRows(h, w, PLAIN)
  {
    var rows := BlankRows(h, w, PLAIN);
    var got := ClearRows(rows, 0, h, w, PLAIN);
    forall y | 0 <= y < h ensures got[y] == rows[y] {
    }
    assert |got| == |rows|;
  }

  // ---------------------------------------------------------------------------
  // All pieces in turn
  // ---------------------------------------------------------------------------

  lemma MainScreen(t: T)
    requires t.altActive
    ensures !MainOf(t).altActive && ScreenPieces(t, t.main, true) == LinePieces(AllLines(MainOf(t))) + TailPieces(MainOf(t))
  {
    hide LinesPieces, WipePieces, SavedPieces, RegionPieces, CursorPieces, PendingPieces, RowsFit, LinesBrush;
    assert MainOf(t).main == t.main && MainOf(t).w == t.w && MainOf(t).h == t.h && !MainOf(t).modes.origin;
    var a, b := LinesPieces(AllLines(MainOf(t)), 0, DRY), WipePieces(LinesBrush(AllLines(MainOf(t)), 0, DRY));
    assert a + (b + TailPieces(MainOf(t))) == (a + b) + TailPieces(MainOf(t));
  }

  lemma AltScreen(t: T)
    requires t.altActive
    ensures !AsMain(t).altActive && ScreenPieces(t, t.alt, false) == LinePieces(t.alt.rows) + TailPieces(AsMain(t))
  {
    hide LinesPieces, WipePieces, SavedPieces, RegionPieces, CursorPieces, PendingPieces, RowsFit, LinesBrush;
    AltParts(t);
    var a, b := LinesPieces(t.alt.rows, 0, DRY), WipePieces(LinesBrush(t.alt.rows, 0, DRY));
    assert a + (b + TailPieces(AsMain(t))) == (a + b) + TailPieces(AsMain(t));
  }

  /** What is written once the alternate screen is entered. */
  function EditorPieces(t: T): seq<Piece> {
    LinePieces(t.alt.rows) + (TailPieces(AsMain(t)) + StatePieces(t))
  }

  lemma AltPieces(t: T)
    requires t.altActive
    ensures !MainOf(t).altActive && Pieces(t) == PROLOGUE + (LinePieces(AllLines(MainOf(t)))
      + (TailPieces(MainOf(t)) + ([SetPiece(1049)] + EditorPieces(t))))
  {
    hide ScreenPieces, LinePieces, TailPieces, StatePieces, MainOf, AsMain, ScreenFits;
    MainScreen(t);
    AltScreen(t);
    var l, tail, alt, st := LinePieces(AllLines(MainOf(t))), TailPieces(MainOf(t)), ScreenPieces(t, t.alt, false), StatePieces(t);
    assert l + tail + ([SetPiece(1049)] + alt + st) == l + (tail + ([SetPiece(1049)] + (alt + st)));
    assert alt + st == EditorPieces(t);
  }

  /** The tape that the alternate screen's rows leave. */
  function AltTyped(t: T): (u: Tape)
    requires AllCellsOk(t.alt.rows)
    ensures u.w == t.w && u.h == t.h
  {
    TapeAt(EntryTape(t), t.alt.rows, |t.alt.rows|)
  }

  /** On the twin the rows are drawn and the rest is restored. */
  lemma EditorRebuilds(t: T, max: nat, r: Rune)
    requires AltPresentable(t) && AllCellsOk(t.alt.rows)
    ensures Takes(Base(t.w, t.h, max), EntryTape(t)) && !AsMain(t).altActive
    ensures var u := AltTyped(t);
      && |ScreenOf(u)| == t.h && RowsFit(ScreenOf(u), t.w) && AsMain(t).w == t.w && AsMain(t).h == t.h
      && Rebuilt(Run(On(Base(t.w, t.h, max), EntryTape(t), DRY, r), EditorPieces(t)), AsMain(t), max, ScreenOf(u), HistoryOf(u, max))
  {
    hide Run, LinePieces, TailPieces, StatePieces, On, Shows, Rebuilt, MouseOk, MouseEncOk, ScreenOf, HistoryOf, AllCellsOk, Base, Plain,
      AltPresentable, Presentable, EntryTape, TapeAt, AsMain, CellOk, ScreenFits;
    AltParts(t);
    AltPresents(t);
    var v, u := AsMain(t), AltTyped(t);
    LastOk(v);
    EntryIs(t, max, r);
    var d := On(Base(t.w, t.h, max), EntryTape(t), DRY, r);
    LinesShown(v, max, EntryTape(t), r, t.alt.rows);
    StateSame(v, t);
    TailRebuilds(Run(d, LinePieces(t.alt.rows)), v, max, ScreenOf(u), HistoryOf(u, max));
    RunAppend(d, LinePieces(t.alt.rows), TailPieces(v) + StatePieces(v));
  }

  // ---------------------------------------------------------------------------
  // The alternate screen follows its twin
  // ---------------------------------------------------------------------------

  lemma QuietTail(t: T)
    requires !t.altActive
    ensures AllQuiet(TailPieces(t))
  {
    hide SavedPieces, RegionPieces, CursorPieces, PendingOf, AllQuiet, RowsFit;
    QuietSaved(t.main.saved, t);
    QuietPlace(t);
    QuietPending(t);
    QuietConcat(CursorPieces(t.main, t.modes.origin), PendingOf(t));
    QuietConcat(RegionPieces(t.main, t.h), CursorPieces(t.main, t.modes.origin) + PendingOf(t));
    QuietConcat(SavedPieces(t.main.saved), RegionPieces(t.main, t.h) + (CursorPieces(t.main, t.modes.origin) + PendingOf(t)));
  }

  lemma QuietSaved(saved: Saved, t: T)
    requires saved == t.main.saved
    ensures AllQuiet(SavedPieces(saved))
  {
    hide Quiet, SgrPiece, CupPiece, RowsFit;
    if saved.valid {
      QuietSgr(saved.pen);
      QuietCup(saved.x, saved.y);
      QuietSave();
    }
  }

  lemma QuietPlace(t: T)
    requires !t.altActive
    ensures AllQuiet(RegionPieces(t.main, t.h)) && AllQuiet(CursorPieces(t.main, t.modes.origin))
  {
    hide Quiet, CupPiece, RowsFit;
    QuietRegion([P(t.main.top + 1), P(t.main.bot + 1)]);
    QuietCup(t.main.cur.x, t.main.cur.y);
    QuietOrigin();
    if t.modes.origin {
      QuietCup(t.main.cur.x, t.main.cur.y - t.main.top);
    }
  }

  lemma QuietPending(t: T)
    requires !t.altActive
    ensures AllQuiet(PendingOf(t))
  {
    hide Quiet, SgrPiece, RowsFit;
    var c := Line(t)[t.w - 1];
    QuietSgr(c.style);
    QuietText(c.ch);
  }

  lemma QuietOne(p: Piece)
    requires Quiet(p)
    ensures AllQuiet([p])
  {
    hide Quiet;
  }

  lemma QuietStep(c: bool, p: Piece, rest: seq<Piece>)
    requires (c ==> Quiet(p)) && AllQuiet(rest)
    ensures AllQuiet(When(c, p) + rest)
  {
    hide Quiet;
  }

  lemma MouseSimple(m: Modes)
    requires MouseOk(m.mouse) && MouseEncOk(m.mouseEnc)
    ensures Simple(m.mouse) && Simple(m.mouseEnc) && Simple(1) && Simple(7) && Simple(25) && Simple(2004) && Simple(1004)
  {
  }

  lemma QuietModePieces(m: Modes)
    requires MouseOk(m.mouse) && MouseEncOk(m.mouseEnc)
    ensures AllQuiet(ModePieces(m))
  {
    hide Quiet, AllQuiet, When, MousePieces, LatePieces, ModePieces, SetPiece, ResetPiece, Simple, MouseOk, MouseEncOk;
    MouseSimple(m);
    ModeParts(m);
    LateParts(m);
    MouseParts(m);
    QuietModes(4);
    QuietModes(20);
    QuietModes(1);
    QuietModes(7);
    QuietModes(2004);
    QuietModes(1004);
    QuietModes(m.mouse);
    QuietModes(m.mouseEnc);
    QuietModes(m.cursorStyle);
    var r8 := When(m.cursorStyle != 0, Csi(0, [P(m.cursorStyle)], ' ' as int, 'q' as int));
    var r7 := When(m.mouseEnc != 0, SetPiece(m.mouseEnc)) + r8;
    var r5 := When(m.focusEvents, SetPiece(1004)) + MousePieces(m);
    var r3 := When(!m.autowrap, ResetPiece(7)) + LatePieces(m);
    var r2 := When(m.cursorKeys, SetPiece(1)) + r3;
    var r1 := When(m.lineFeedNewline, Csi(0, [P(20)], 0, 'h' as int)) + r2;
    QuietWhen(m.cursorStyle != 0, Csi(0, [P(m.cursorStyle)], ' ' as int, 'q' as int));
    QuietStep(m.mouseEnc != 0, SetPiece(m.mouseEnc), r8);
    QuietStep(m.mouse != 0, SetPiece(m.mouse), r7);
    QuietStep(m.focusEvents, SetPiece(1004), MousePieces(m));
    QuietStep(m.bracketedPaste, SetPiece(2004), r5);
    QuietStep(!m.autowrap, ResetPiece(7), LatePieces(m));
    QuietStep(m.cursorKeys, SetPiece(1), r3);
    QuietStep(m.lineFeedNewline, Csi(0, [P(20)], 0, 'h' as int), r2);
    QuietStep(m.insert, Csi(0, [P(4)], 0, 'h' as int), r1);
  }

  lemma QuietCharsets(cs: Charsets)
    ensures AllQuiet(CharsetPieces(cs))
  {
    hide Quiet, AllQuiet, When;
    QuietSets();
    var p0, p1, p2 := Esc('(' as int, '0' as int), Esc(')' as int, '0' as int), Control(0x0e);
    QuietWhen(cs.gl == 1, p2);
    QuietStep(cs.g1.Graphics?, p1, When(cs.gl == 1, p2));
    QuietStep(cs.g0.Graphics?, p0, When(cs.g1.Graphics?, p1) + When(cs.gl == 1, p2));
  }

  lemma QuietState(t: T)
    requires MouseOk(t.modes.mouse) && MouseEncOk(t.modes.mouseEnc)
    ensures AllQuiet(StatePieces(t))
  {
    hide Quiet, AllQuiet, When, CharsetPieces, ModePieces, SgrPiece, LinkPiece, TitlePiece, SetPiece, StatePieces, MouseOk, MouseEncOk,
      Simple, ScreenFits;
    StateParts(t);
    MouseSimple(t.modes);
    QuietSgr(t.pen);
    QuietOsc(t.link);
    QuietOsc(t.title);
    QuietCharsets(t.charsets);
    QuietModePieces(t.modes);
    QuietModes(25);
    var r5 := When(t.modes.cursorVisible, SetPiece(25));
    var r4 := When(t.title != [], TitlePiece(t.title)) + r5;
    QuietWhen(t.modes.cursorVisible, SetPiece(25));
    QuietStep(t.title != [], TitlePiece(t.title), r5);
    QuietConcat(ModePieces(t.modes), r4);
    QuietConcat(CharsetPieces(t.charsets), ModePieces(t.modes) + r4);
    QuietStep(t.link != [], LinkPiece(t.link), CharsetPieces(t.charsets) + (ModePieces(t.modes) + r4));
    QuietOne(SgrPiece(t.pen));
    QuietConcat([SgrPiece(t.pen)], When(t.link != [], LinkPiece(t.link)) + (CharsetPieces(t.charsets) + (ModePieces(t.modes) + r4)));
  }

  lemma EditorQuiet(t: T)
    requires t.altActive && MouseOk(t.modes.mouse) && MouseEncOk(t.modes.mouseEnc)
    ensures AllQuiet(EditorPieces(t))
  {
    hide AsMain, AllQuiet, LinesPieces, WipePieces, LinesBrush, TailPieces, StatePieces, MouseOk, MouseEncOk, ScreenFits;
    AltParts(t);
    QuietTail(AsMain(t));
    QuietState(t);
    QuietLines(t.alt.rows, 0, DRY);
    QuietWipe(LinesBrush(t.alt.rows, 0, DRY));
    QuietConcat(LinesPieces(t.alt.rows, 0, DRY), WipePieces(LinesBrush(t.alt.rows, 0, DRY)));
    QuietConcat(TailPieces(AsMain(t)), StatePieces(t));
    QuietConcat(LinePieces(t.alt.rows), TailPieces(AsMain(t)) + StatePieces(t));
  }

  // ---------------------------------------------------------------------------
  // Both screens
  // ---------------------------------------------------------------------------

  /** The receiver in the end; `left` is its main screen, `rows` what was drawn of the
      alternate one. */
  predicate AltRebuilt(d: T, t: T, left: Screen, rows: seq<Row>, max: nat)
    requires !AsMain(t).altActive && AsMain(t).w == t.w && AsMain(t).h == t.h && |rows| == t.h && RowsFit(rows, t.w)
  {
    var v := AsMain(t);
    && d.altActive && d.w == t.w && d.h == t.h && d.main == left
    && d.alt.scrollback == [] && d.alt.saved == Kept(t.alt.saved) && d.alt.top == t.alt.top && d.alt.bot == t.alt.bot
    && (if Reaches(v) then d.alt.rows == Back(v, rows) && d.alt.cur == Cursor(t.alt.cur.x, t.alt.cur.y, Redrawn(v))
        else d.alt.cur.y == Nearest(v))
    && d.pen == t.pen && d.link == t.link && d.modes == t.modes && d.title == t.title && d.charsets == t.charsets
    && d.maxScrollback == max && d.tabStops == DefaultTabStops(t.w)
  }

  lemma TwinRebuilt(d: T, m: T, t: T, left: Screen, rows: seq<Row>, sb: seq<Row>, max: nat)
    requires !AsMain(t).altActive && AsMain(t).w == t.w && AsMain(t).h == t.h && |rows| == t.h && RowsFit(rows, t.w)
    requires Twin(left, max, d, m) && Rebuilt(m, AsMain(t), max, rows, sb)
    ensures AltRebuilt(d, t, left, rows, max)
  {
    hide ScreenFits, Back, Redrawn, Reaches, AsMain;
    AltParts(t);
  }

  /** The main screen is drawn before the alternate one is entered. */
  lemma MainDrawn(t: T, max: nat)
    requires AltPresentable(t) && !MainOf(t).altActive && AllCellsOk(AllLines(MainOf(t)))
    ensures var u, m := Retyped(MainOf(t)), MainOf(t);
      && |ScreenOf(u)| == t.h == m.h && RowsFit(ScreenOf(u), t.w) && m.w == t.w
      && Placed(Run(Run(Base(t.w, t.h, max), LinePieces(AllLines(m))), TailPieces(m)), m, max, ScreenOf(u), HistoryOf(u, max))
  {
    hide AltPresentable, Presentable, MainOf, ScreenFits, Base, Run, LinePieces, TailPieces, Shows, ScreenOf, HistoryOf, Retyped, AllCellsOk,
      Placed, CellOk;
    MainParts(t);
    var m := MainOf(t);
    LastOk(m);
    LinesDrawn(m, max);
    TailRestored(Run(Base(t.w, t.h, max), LinePieces(AllLines(m))), m, max, ScreenOf(Retyped(m)), HistoryOf(Retyped(m), max));
  }

  /** The receiver's main screen in the end. */
  function LeftBehind(t: T, max: nat): Screen
    requires AllCellsOk(AllLines(MainOf(t)))
  {
    MainParts(t);
    var u := Retyped(MainOf(t));
    Left(t, ScreenOf(u), HistoryOf(u, max))
  }

  /** The pieces of the snapshot rebuild both screens. */
  lemma AltPiecesRebuild(t: T, max: nat)
    requires AltPresentable(t) && AllCellsOk(t.alt.rows) && AllCellsOk(AllLines(MainOf(t)))
    ensures !AsMain(t).altActive && AsMain(t).w == t.w && AsMain(t).h == t.h
    ensures |ScreenOf(AltTyped(t))| == t.h && RowsFit(ScreenOf(AltTyped(t)), t.w)
    ensures AltRebuilt(Run(New(t.w, t.h, max), Pieces(t)), t, LeftBehind(t, max), ScreenOf(AltTyped(t)), max)
  {
    hide AltPresentable, Presentable, MainOf, AsMain, ScreenFits, Base, New, Run, LinePieces, TailPieces, EditorPieces, Pieces, On, Plain,
      Placed, Twin, Rebuilt, Left, EnterAlt, Do, AllQuiet, AltRebuilt, ScreenOf, HistoryOf, Retyped, AltTyped, EntryTape, AllCellsOk, MouseOk,
      MouseEncOk;
    MainParts(t);
    AltParts(t);
    AltPresents(t);
    var m, u := MainOf(t), Retyped(MainOf(t));
    var d0, d1 := New(t.w, t.h, max), Base(t.w, t.h, max);
    var lines := LinePieces(AllLines(m));
    var d2 := Run(d1, lines);
    var e := Run(d2, TailPieces(m));
    var q, left := EditorPieces(t), LeftBehind(t, max);
    AltPieces(t);
    OpeningWritten(t.w, t.h, max);
    MainDrawn(t, max);
    DoEnter(e);
    EnterTwin(e, t, max, ScreenOf(u), HistoryOf(u, max));
    var twin := On(d1, EntryTape(t), DRY, e.lastPrinted);
    EditorQuiet(t);
    TwinRun(left, max, EnterAlt(e, true), twin, q);
    EditorRebuilds(t, max, e.lastPrinted);
    TwinRebuilt(Run(EnterAlt(e, true), q), Run(twin, q), t, left, ScreenOf(AltTyped(t)), HistoryOf(AltTyped(t), max), max);
    RunAppend(d0, PROLOGUE, lines + (TailPieces(m) + ([SetPiece(1049)] + q)));
    RunAppend(d1, lines, TailPieces(m) + ([SetPiece(1049)] + q));
    RunAppend(d2, TailPieces(m), [SetPiece(1049)] + q);
    RunCons(e, SetPiece(1049), q);
  }

  lemma AltSnapshotOk(t: T)
    requires AltPresentable(t)
    ensures PiecesOk(Pieces(t))
  {
    hide AltPresentable, Presentable, AsMain, MainOf, ScreenFits, PieceOk, PiecesOk, LinePieces, TailPieces, StatePieces, Pieces, AllCellsOk,
      MouseOk, MouseEncOk;
    AltPresents(t);
    AltParts(t);
    var m, v := MainOf(t), AsMain(t);
    var l, tail, l', tail', st := LinePieces(AllLines(m)), TailPieces(m), LinePieces(t.alt.rows), TailPieces(v), StatePieces(t);
    AltPieces(t);
    LinePiecesOk(AllLines(m));
    TailOk(m);
    SetOk(1049);
    OkOne(SetPiece(1049));
    LinePiecesOk(t.alt.rows);
    TailOk(v);
    StateSame(v, t);
    StatePiecesOk(v);
    WipeOk(DRY);
    OkConcat(tail', st);
    OkConcat(l', tail' + st);
    OkConcat([SetPiece(1049)], EditorPieces(t));
    OkConcat(tail, [SetPiece(1049)] + EditorPieces(t));
    OkConcat(l, tail + ([SetPiece(1049)] + EditorPieces(t)));
    OkConcat(PROLOGUE, l + (tail + ([SetPiece(1049)] + EditorPieces(t))));
  }

  /** The snapshot's bytes rebuild both screens and leave the parser at rest. */
  lemma AltSnapshotRebuilds(t: T, max: nat)
    requires AltPresentable(t)
    ensures !AsMain(t).altActive && AsMain(t).w == t.w && AsMain(t).h == t.h && AllCellsOk(t.alt.rows) && AllCellsOk(AllLines(MainOf(t)))
    ensures |ScreenOf(AltTyped(t))| == t.h && RowsFit(ScreenOf(AltTyped(t)), t.w)
    ensures var e := Write(NewEmulator(t.w, t.h, max), Snapshot(t));
      Ready(e.p) && AltRebuilt(e.t, t, LeftBehind(t, max), ScreenOf(AltTyped(t)), max)
  {
    hide ParseLoop, ApplyAll, Run, Bytes, Acts, Pieces, AltPresentable, Presentable, AltRebuilt, New, AsMain, MainOf, LeftBehind, AltTyped,
      ScreenOf, AllCellsOk, RowsFit;
    AltPresents(t);
    AltParts(t);
    AltSnapshotOk(t);
    PiecesRead(INIT, Pieces(t));
    AltPiecesRebuild(t, max);
    RunIs(New(t.w, t.h, max), Pieces(t));
  }

  // ---------------------------------------------------------------------------
  // When that is the state itself
  // ---------------------------------------------------------------------------

  predicate SameScreen(a: Screen, b: Screen) {
    && a.rows == b.rows && a.scrollback == b.scrollback && a.cur == b.cur && SameSaved(a.saved, b.saved)
    && a.top == b.top && a.bot == b.bot
  }

  /** Equal in all but tab stops and the last printed rune. */
  predicate SameScreens(d: T, t: T) {
    && d.w == t.w && d.h == t.h && d.altActive == t.altActive
    && SameScreen(d.main, t.main) && SameScreen(d.alt, t.alt)
    && d.pen == t.pen && d.link == t.link && d.modes == t.modes && d.title == t.title && d.charsets == t.charsets
  }

  /** The main screen: it comes back as on its own, and its saved cursor is what entering
      the alternate screen saves again. */
  predicate MainExact(t: T, max: nat)
    requires t.altActive
  {
    var m := MainOf(t);
    Laid(m, max) && NoBleed(m) && WrapDrawn(m) && SameSaved(Entry(t), t.main.saved)
  }

  /** The alternate screen: its rows are laid right for where the main cursor is, its
      saved cursor is plain, its wrap can be drawn and origin mode reaches its cursor. */
  predicate AltExact(t: T)
    requires t.altActive && AllCellsOk(t.alt.rows)
  {
    AltParts(t);
    MainParts(t);
    var v := AsMain(t);
    RowsLaid(v, t.main.cur.y, t.main.cur.x) && SavedPlain(v) && WrapDrawn(v) && Reaches(v)
  }

  lemma MainSame(t: T, max: nat)
    requires t.altActive && AllCellsOk(AllLines(MainOf(t)))
    ensures SameScreen(LeftBehind(t, max), t.main) <==> MainExact(t, max)
  {
    hide ScreenFits, Back, Retyped, ScreenOf, HistoryOf, Redrawn, Laid, NoBleed, WrapDrawn, AllCellsOk, MainOf, Line;
    MainParts(t);
    LinesExact(MainOf(t), max);
    WrapIs(MainOf(t));
  }

  lemma AltSame(d: T, t: T, left: Screen, max: nat)
    requires t.altActive && AllCellsOk(t.alt.rows)
    requires !AsMain(t).altActive && AsMain(t).w == t.w && AsMain(t).h == t.h
    requires |ScreenOf(AltTyped(t))| == t.h && RowsFit(ScreenOf(AltTyped(t)), t.w)
    requires AltRebuilt(d, t, left, ScreenOf(AltTyped(t)), max)
    ensures SameScreen(d.alt, t.alt) <==> AltExact(t)
  {
    hide ScreenFits, Back, TapeAt, ScreenOf, Redrawn, RowsLaid, WrapDrawn, AllCellsOk, AsMain, Reaches, SavedPlain, Line, Kept;
    AltParts(t);
    MainParts(t);
    var v := AsMain(t);
    RowsExact(v, t.main.cur.y, t.main.cur.x);
    WrapIs(v);
    KeptSame(v);
    NearestDiffers(v);
    AltEmpty(t);
  }

  lemma AltEmpty(t: T)
    ensures t.alt.scrollback == []
  {
    hide ScreenFits;
  }

  /** What was rebuilt is the state itself exactly when both screens come back. */
  lemma AltRebuiltExact(d: T, t: T, max: nat)
    requires AltPresentable(t) && AllCellsOk(t.alt.rows) && AllCellsOk(AllLines(MainOf(t)))
    requires !AsMain(t).altActive && AsMain(t).w == t.w && AsMain(t).h == t.h
    requires |ScreenOf(AltTyped(t))| == t.h && RowsFit(ScreenOf(AltTyped(t)), t.w)
    requires AltRebuilt(d, t, LeftBehind(t, max), ScreenOf(AltTyped(t)), max)
    ensures SameScreens(d, t) <==> MainExact(t, max) && AltExact(t)
  {
    hide Presentable, MainOf, ScreenFits, ScreenOf, MainExact, AltExact, SameScreen, LeftBehind, AltTyped, AsMain, AllCellsOk, Back, Redrawn,
      Reaches, Kept;
    MainSame(t, max);
    AltSame(d, t, LeftBehind(t, max), max);
  }

  /** Snapshot round trip on the alternate screen: written into a fresh terminal of the
      same size, the snapshot gives the same state of both screens exactly when the
      main screen comes back as on its own and 1049 saves the very cursor that was
      saved, and the alternate screen's rows are laid right for where the main cursor
      is, its saved cursor plain, its wrap drawable and its cursor in reach. */
  lemma AltSnapshotRoundTrip(t: T, max: nat)
    requires AltPresentable(t)
    ensures t.altActive && AllCellsOk(t.alt.rows)
    ensures var e := Write(NewEmulator(t.w, t.h, max), Snapshot(t));
      Ready(e.p) && (SameScreens(e.t, t) <==> MainExact(t, max) && AltExact(t))
  {
    hide Write, Presentable, AltRebuilt, RowsFit, SameScreens, AltExact, MainExact, Snapshot, AsMain, MainOf, LeftBehind, AltTyped, ScreenOf,
      AllCellsOk;
    AltSnapshotRebuilds(t, max);
    AltRebuiltExact(Write(NewEmulator(t.w, t.h, max), Snapshot(t)).t, t, max);
  }
}
