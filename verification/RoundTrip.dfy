/** Writing a snapshot into a fresh terminal: what its pieces leave there, one after
    the other. */
module RoundTrip {
  import opened Utf8
  import opened Cells
  import opened Parser
  import opened Sequences
  import opened Terminal
  import opened Dispatch
  import opened Snapshots
  import opened Content
  import opened Paint
  import opened Typewriter
  import opened Receiving
  import opened Restore
  import opened Cursors

  // ---------------------------------------------------------------------------
  // What is compared
  // ---------------------------------------------------------------------------

  function AllLines(t: T): seq<Row> { t.main.scrollback + t.main.rows }

  /** A terminal on its main screen that holds nothing the snapshot could not write. */
  predicate Presentable(t: T) {
    && !t.altActive && t.w <= MAX_VALUE && t.h <= MAX_VALUE && AllCellsOk(AllLines(t))
    && MouseOk(t.modes.mouse) && MouseEncOk(t.modes.mouseEnc) && t.modes.cursorStyle <= MAX_VALUE
    && LinkOk(t.link) && TextOk(t.title, 2)
  }

  /** Origin mode can reach the cursor. */
  predicate Reaches(t: T) { t.modes.origin ==> t.main.top <= t.main.cur.y <= t.main.bot }

  /** The line of the region nearest to the cursor. */
  function Nearest(t: T): int { Clamp(t.main.cur.y, t.main.top, t.main.bot) }

  lemma NearestDiffers(t: T)
    ensures !Reaches(t) ==> Nearest(t) != t.main.cur.y
  {
    hide RowsFit;
  }

  /** A valid saved cursor is all in its pen and position. */
  predicate SavedPlain(t: T) {
    var sv := t.main.saved;
    sv.valid ==> sv.link == [] && sv.charsets == ASCII_SETS && !sv.origin
  }

  /** The last cell under a pending wrap can be written again unchanged. */
  predicate WrapDrawn(t: T)
    requires !t.altActive
  {
    var c := Line(t)[t.w - 1];
    t.main.cur.pendingWrap ==> c.width == 1 && c.ch != [] && c.link == []
  }

  predicate SameSaved(a: Saved, b: Saved) { a.valid == b.valid && (a.valid ==> a == b) }

  /** Equal in all but tab stops, the last printed rune and the inactive screen. */
  predicate SameState(d: T, t: T)
    requires !t.altActive
  {
    && d.w == t.w && d.h == t.h && !d.altActive
    && d.main.rows == t.main.rows && d.main.scrollback == t.main.scrollback
    && d.main.cur == t.main.cur && SameSaved(d.main.saved, t.main.saved)
    && d.main.top == t.main.top && d.main.bot == t.main.bot
    && d.pen == t.pen && d.link == t.link && d.modes == t.modes
    && d.title == t.title && d.charsets == t.charsets
  }

  // ---------------------------------------------------------------------------
  // The lines
  // ---------------------------------------------------------------------------

  /** The receiver once the snapshot's opening is written. */
  function Base(w: nat, h: nat, max: nat): T
    requires w >= 2 && h >= 1
  {
    WithModes(New(w, h, max), Opening(false))
  }

  lemma OpeningWritten(w: nat, h: nat, max: nat)
    requires w >= 2 && h >= 1
    ensures Run(New(w, h, max), PROLOGUE) == Base(w, h, max)
  {
    hide Run, Do, New, ScreenFits, RowsFit;
    var d := New(w, h, max);
    NewIs(w, h, max);
    var m1 := d.modes.(origin := false);
    DoReset(d);
    DoSimple(d, 7, true);
    DoPrivate(d, 6, false);
    DoSimple(d, 25, false);
    assert PROLOGUE == [RESET] + ([SetPiece(7)] + ([ResetPiece(6)] + [ResetPiece(25)]));
    RunCons(d, RESET, [SetPiece(7)] + ([ResetPiece(6)] + [ResetPiece(25)]));
    RunCons(d, SetPiece(7), [ResetPiece(6)] + [ResetPiece(25)]);
    RunCons(d, ResetPiece(6), [ResetPiece(25)]);
    Run1(d, ResetPiece(25));
  }

  /** What the opening relies on. */
  lemma NewIs(w: nat, h: nat, max: nat)
    requires w >= 2 && h >= 1
    ensures var d := New(w, h, max);
      && WithBrush(d, Brush(PLAIN, d.link)) == d && WithModes(d, PrivateFlag(d.modes, 7, true)) == d
      && SetPrivateMode(d, 6, false) == d && PrivateFlag(d.modes, 25, false) == Opening(false)
  {
    hide RowsFit;
  }

  lemma BaseIs(w: nat, h: nat, max: nat)
    requires w >= 2 && h >= 1
    ensures var b := Base(w, h, max);
      && b.w == w && b.h == h && b.maxScrollback == max && Plain(b)
      && b.modes == Opening(false) && b.title == [] && b.main.saved == NO_SAVED
      && b.main.scrollback == [] && b.main.rows == BlankRows(h, w, PLAIN) && b.main.cur == Cursor(0, 0, false)
      && BrushOf(b) == DRY && b.lastPrinted == 0 && b.tabStops == DefaultTabStops(w) && b.alt == NewScreen(w, h)
  {
    hide RowsFit;
  }

  /** After the opening the receiver holds one blank line. */
  lemma BaseOn(w: nat, h: nat, max: nat)
    requires w >= 2 && h >= 1
    ensures var b, t := Base(w, h, max), FreshTape(w, h, 0, 0); Takes(b, t) && On(b, t, DRY, 0) == b
  {
    hide Base, Sound, ScreenOf, RowsFit;
    BaseIs(w, h, max);
    FreshIs(w, h, 0, 0, max);
  }

  /** A tape of blank lines shows a blank screen. */
  lemma FreshIs(w: nat, h: nat, n: nat, x: nat, max: nat)
    requires w >= 2 && h >= 1 && x <= w && n < h
    ensures var t := FreshTape(w, h, n, x);
      && t.w == w && t.h == h && ScreenOf(t) == BlankRows(h, w, PLAIN) && HistoryOf(t, max) == []
      && CursorOf(t) == Cursor(if x < w then x else w - 1, n, x == w) && |t.lines| == n + 1
  {
    var t := FreshTape(w, h, n, x);
    hide Sound;
    var got, want := ScreenOf(t), BlankRows(h, w, PLAIN);
    forall y | 0 <= y < h ensures got[y] == want[y] {
    }
    assert got == want;
  }

  /** What the snapshot writes of the lines, and the wiping of the brush. */
  function LinePieces(lines: seq<Row>): seq<Piece> {
    LinesPieces(lines, 0, DRY) + WipePieces(LinesBrush(lines, 0, DRY))
  }

  // ---------------------------------------------------------------------------
  // Stage by stage
  // ---------------------------------------------------------------------------

  /** The receiver shows the given lines; the rest is fresh but for what is given. */
  predicate Shows(d: T, t: T, max: nat, rows: seq<Row>, sb: seq<Row>, saved: Saved, top: int, bot: int, origin: bool) {
    && d.w == t.w && d.h == t.h && !d.altActive
    && d.main.rows == rows && d.main.scrollback == sb
    && d.main.saved == saved && d.main.top == top && d.main.bot == bot
    && BrushOf(d) == DRY && d.title == [] && d.charsets == ASCII_SETS && d.modes == Opening(origin)
    && d.maxScrollback == max && d.tabStops == DefaultTabStops(t.w) && d.alt == NewScreen(t.w, t.h)
  }

  lemma DoWipe(d: T)
    ensures Run(d, WipePieces(BrushOf(d))) == WithBrush(d, DRY)
  {
    hide Do, Run, ScreenFits;
    var d1 := WithBrush(d, Brush(PLAIN, d.link));
    var a := if d.pen != PLAIN then [RESET] else [];
    var b := if d.link != [] then [LinkPiece([])] else [];
    DoReset(d);
    DoLink(d1, []);
    RunAppend(d, a, b);
    Run1(d, RESET);
    Run1(d1, LinkPiece([]));
  }

  lemma WipeShows(d: T, t: T, max: nat, b: T, rows: seq<Row>, sb: seq<Row>)
    requires d == Frame(b, rows, sb, d.main.cur, BrushOf(d), d.lastPrinted)
    requires Plain(b) && b.w == t.w && b.h == t.h && b.modes == Opening(false) && b.title == [] && b.main.saved == NO_SAVED
    requires b.maxScrollback == max && b.tabStops == DefaultTabStops(t.w) && b.alt == NewScreen(t.w, t.h)
    ensures Shows(WithBrush(d, DRY), t, max, rows, sb, NO_SAVED, 0, t.h - 1, false)
  {
    hide ScreenFits;
  }

  /** All lines are written, from a tape of blank lines on, and the brush is wiped. */
  lemma LinesShown(t: T, max: nat, start: Tape, r: Rune, lines: seq<Row>)
    requires start.w == t.w && start.h == t.h && AllCellsOk(lines)
    ensures var b, u := Base(t.w, t.h, max), TapeAt(start, lines, |lines|);
      && Takes(b, start)
      && Shows(Run(On(b, start, DRY, r), LinePieces(lines)), t, max, ScreenOf(u), HistoryOf(u, max), NO_SAVED, 0, t.h - 1, false)
  {
    hide Run, ScreenFits, Sound, LinesPieces, LinesBrush, WipePieces, Base, Shows, On, Plain, ScreenOf, HistoryOf, AllCellsOk, Typed;
    var b, u := Base(t.w, t.h, max), TapeAt(start, lines, |lines|);
    BaseIs(t.w, t.h, max);
    var r' := OnLines(b, start, r, lines, 0);
    var brush := BrushAt(lines, |lines|);
    var d := On(b, u, brush, r');
    OnIs(b, u, brush, r');
    RunAppend(On(b, start, DRY, r), LinesPieces(lines, 0, DRY), WipePieces(brush));
    DoWipe(d);
    FrameLast(d, b, ScreenOf(u), HistoryOf(u, max), brush, r');
    WipeShows(d, t, max, b, ScreenOf(u), HistoryOf(u, max));
  }

  lemma FrameLast(d: T, b: T, rows: seq<Row>, sb: seq<Row>, brush: Brush, r: Rune)
    requires d == Frame(b, rows, sb, d.main.cur, brush, r)
    ensures d.lastPrinted == r && BrushOf(d) == brush
  {
    hide ScreenFits;
  }

  /** What the snapshot keeps of a saved cursor. */
  function Kept(sv: Saved): Saved {
    if sv.valid then Saved(sv.x, sv.y, sv.pen, [], ASCII_SETS, false, true) else NO_SAVED
  }

  /** The pen set, the cursor moved and saved, the pen reset. */
  function SavedAt(d: T, sv: Saved): T
    requires 0 <= sv.x < d.w && 0 <= sv.y < d.h
  {
    WithBrush(SaveCursor(SetCur(WithBrush(d, Brush(sv.pen, d.link)), sv.x, sv.y, false)), Brush(PLAIN, d.link))
  }

  lemma DoSaved(d: T, sv: Saved)
    requires !d.altActive && !d.modes.origin && sv.valid && 0 <= sv.x < d.w && 0 <= sv.y < d.h
    ensures Run(d, SavedPieces(sv)) == SavedAt(d, sv)
  {
    hide Run, Do, ScreenFits, SgrPiece, CupPiece, SaveCursor;
    var d1 := WithBrush(d, Brush(sv.pen, d.link));
    var d2 := SetCur(d1, sv.x, sv.y, false);
    var d3 := SaveCursor(d2);
    DoSgr(d, sv.pen);
    DoCup(d1, sv.x, sv.y);
    DoSave(d2);
    DoReset(d3);
    SaveLink(d2);
    CurLink(d1, sv.x, sv.y);
    var p1, p2, p3 := SgrPiece(sv.pen), CupPiece(sv.x, sv.y), Esc(0, '7' as int);
    assert SavedPieces(sv) == [p1] + ([p2] + ([p3] + [RESET]));
    RunCons(d, p1, [p2] + ([p3] + [RESET]));
    RunCons(d1, p2, [p3] + [RESET]);
    RunCons(d2, p3, [RESET]);
    Run1(d3, RESET);
  }

  lemma SaveLink(d: T)
    ensures SaveCursor(d).link == d.link
  {
    hide ScreenFits;
  }

  lemma CurLink(d: T, x: int, y: int)
    requires 0 <= x < d.w && 0 <= y < d.h
    ensures SetCur(d, x, y, false).link == d.link
  {
    hide ScreenFits;
  }

  lemma SavedStage(d: T, t: T, max: nat, rows: seq<Row>, sb: seq<Row>)
    requires Shows(d, t, max, rows, sb, NO_SAVED, 0, t.h - 1, false)
    ensures Shows(Run(d, SavedPieces(t.main.saved)), t, max, rows, sb, Kept(t.main.saved), 0, t.h - 1, false)
  {
    hide Run, RowsFit, SavedPieces, SavedAt;
    var sv := t.main.saved;
    if sv.valid {
      DoSaved(d, sv);
      SavedShows(d, t, max, rows, sb, sv);
    } else {
      Run1(d, RESET);
      assert SavedPieces(sv) == [] by { SavedNothing(sv); }
    }
  }

  lemma SavedNothing(sv: Saved)
    requires !sv.valid
    ensures SavedPieces(sv) == []
  {
  }

  lemma SavedShows(d: T, t: T, max: nat, rows: seq<Row>, sb: seq<Row>, sv: Saved)
    requires Shows(d, t, max, rows, sb, NO_SAVED, 0, t.h - 1, false) && sv.valid && 0 <= sv.x < d.w && 0 <= sv.y < d.h
    ensures Shows(SavedAt(d, sv), t, max, rows, sb, Kept(sv), 0, t.h - 1, false)
  {
    hide RowsFit;
  }

  lemma RegionStage(d: T, t: T, max: nat, rows: seq<Row>, sb: seq<Row>, saved: Saved)
    requires Shows(d, t, max, rows, sb, saved, 0, t.h - 1, false)
    ensures Shows(Run(d, RegionPieces(t.main, t.h)), t, max, rows, sb, saved, t.main.top, t.main.bot, false)
  {
    hide Run, Do, RowsFit;
    Run1(d, RESET);
    var s := t.main;
    if s.top != 0 || s.bot != t.h - 1 {
      DoRegion(d, s.top, s.bot);
      Run1(d, Csi(0, [P(s.top + 1), P(s.bot + 1)], 0, 'r' as int));
    }
  }

  /** In origin mode the cursor is set relative to the region, and stays in it. */
  lemma OriginStage(d: T, t: T, max: nat, rows: seq<Row>, sb: seq<Row>, saved: Saved)
    requires t.modes.origin && Shows(d, t, max, rows, sb, saved, t.main.top, t.main.bot, false)
    ensures var d' := Run(d, CursorPieces(t.main, true));
      && Shows(d', t, max, rows, sb, saved, t.main.top, t.main.bot, true) && !d'.main.cur.pendingWrap
      && d'.main.cur.y == Nearest(t)
      && (Reaches(t) ==> d'.main.cur == Cursor(t.main.cur.x, t.main.cur.y, false))
  {
    hide Run, Do, RowsFit, CupPiece;
    var s := t.main;
    var d1 := WithOrigin(d);
    var cup := CupPiece(s.cur.x, s.cur.y - s.top);
    DoOrigin(d);
    DoCupClipped(d1, s.cur.x, s.cur.y - s.top);
    RunCons(d, SetPiece(6), [cup]);
    Run1(d1, cup);
    assert CursorPieces(s, true) == [SetPiece(6)] + [cup];
  }

  lemma CursorStage(d: T, t: T, max: nat, rows: seq<Row>, sb: seq<Row>, saved: Saved)
    requires Shows(d, t, max, rows, sb, saved, t.main.top, t.main.bot, false)
    ensures var d' := Run(d, CursorPieces(t.main, t.modes.origin));
      && Shows(d', t, max, rows, sb, saved, t.main.top, t.main.bot, t.modes.origin) && !d'.main.cur.pendingWrap
      && (if Reaches(t) then d'.main.cur == Cursor(t.main.cur.x, t.main.cur.y, false) else d'.main.cur.y == Nearest(t))
  {
    hide Run, Do, RowsFit, CupPiece;
    if t.modes.origin {
      OriginStage(d, t, max, rows, sb, saved);
    } else {
      DoCup(d, t.main.cur.x, t.main.cur.y);
      Run1(d, CupPiece(t.main.cur.x, t.main.cur.y));
    }
  }

  /** The snapshot writes the last cell again to leave the wrap pending. */
  predicate Redrawn(t: T)
    requires !t.altActive
  {
    var c := Line(t)[t.w - 1];
    t.main.cur.pendingWrap && c.width == 1 && c.ch != []
  }

  function PendingOf(t: T): seq<Piece>
    requires !t.altActive
  {
    PendingPieces(t.main, t.w)
  }

  /** The rows with that cell written over whatever is there, without its link. */
  function Back(t: T, rows: seq<Row>): (r: seq<Row>)
    requires !t.altActive && |rows| == t.h && RowsFit(rows, t.w)
    ensures |r| == t.h && RowsFit(r, t.w)
  {
    if !Redrawn(t) then rows
    else
      var y, c := t.main.cur.y, Line(t)[t.w - 1];
      rows[y := rows[y].(cells := PlaceInLine(rows[y].cells, t.w - 1, c.ch, 1, c.style, []))]
  }

  lemma DoPending(d: T, c: Cell)
    requires !d.altActive && d.charsets == ASCII_SETS && !d.modes.insert && CellOk(c) && c.width == 1 && c.ch != []
    requires !d.main.cur.pendingWrap && d.link == []
    ensures Run(d, [SgrPiece(c.style), Text(c.ch), RESET])
      == WithBrush(Over(WithBrush(d, Brush(c.style, [])), c.(link := []), c.ch[0]), DRY)
  {
    hide Run, Do, ScreenFits, SgrPiece, Over, CellOk;
    var d1 := WithBrush(d, Brush(c.style, []));
    var d2 := Over(d1, c.(link := []), c.ch[0]);
    var p1, p2 := SgrPiece(c.style), Text(c.ch);
    DoSgr(d, c.style);
    BrushKeeps(d, Brush(c.style, []));
    DoOver(d1, c);
    OverLink(d1, c.(link := []), c.ch[0]);
    DoReset(d2);
    assert [p1, p2, RESET] == [p1] + ([p2] + [RESET]);
    RunCons(d, p1, [p2] + [RESET]);
    RunCons(d1, p2, [RESET]);
    Run1(d2, RESET);
  }

  lemma BrushKeeps(d: T, brush: Brush)
    ensures var e := WithBrush(d, brush);
      && e.main == d.main && e.w == d.w && e.altActive == d.altActive && e.charsets == d.charsets
      && e.modes == d.modes && BrushOf(e) == brush
  {
    hide ScreenFits;
  }

  lemma OverLink(d: T, c: Cell, r: Rune)
    requires !d.altActive
    ensures Over(d, c, r).link == d.link
  {
    hide ScreenFits;
  }

  lemma OverShows(d: T, t: T, max: nat, rows: seq<Row>, sb: seq<Row>, saved: Saved, c: Cell, r: Rune)
    requires Shows(d, t, max, rows, sb, saved, t.main.top, t.main.bot, t.modes.origin) && !t.altActive && Redrawn(t)
    requires !d.main.cur.pendingWrap && c == Line(t)[t.w - 1]
    ensures var e := WithBrush(Over(WithBrush(d, Brush(c.style, [])), c.(link := []), r), DRY);
      && Shows(e, t, max, e.main.rows, sb, saved, t.main.top, t.main.bot, t.modes.origin)
      && e.main.cur.y == d.main.cur.y
      && (d.main.cur == Cursor(t.main.cur.x, t.main.cur.y, false) ==>
            |rows| == t.h && RowsFit(rows, t.w)
            && e.main.rows == Back(t, rows) && e.main.cur == Cursor(t.main.cur.x, t.main.cur.y, true))
  {
    hide PlaceInLine;
  }

  lemma PendingStage(d: T, t: T, max: nat, rows: seq<Row>, sb: seq<Row>, saved: Saved)
    requires !t.altActive && CellOk(Line(t)[t.w - 1]) && |rows| == t.h && RowsFit(rows, t.w)
    requires Shows(d, t, max, rows, sb, saved, t.main.top, t.main.bot, t.modes.origin) && !d.main.cur.pendingWrap
    ensures var d' := Run(d, PendingOf(t));
      && Shows(d', t, max, d'.main.rows, sb, saved, t.main.top, t.main.bot, t.modes.origin)
      && d'.main.cur.y == d.main.cur.y
      && (d.main.cur == Cursor(t.main.cur.x, t.main.cur.y, false) ==>
            d'.main.rows == Back(t, rows) && d'.main.cur == Cursor(t.main.cur.x, t.main.cur.y, Redrawn(t)))
  {
    hide Run, Do, RowsFit, SgrPiece, CellOk, Over, Back, PendingPieces;
    Run1(d, RESET);
    if Redrawn(t) {
      var c := Line(t)[t.w - 1];
      PendingIs(t);
      DoPending(d, c);
      OverShows(d, t, max, rows, sb, saved, c, c.ch[0]);
    } else {
      NotRedrawn(t, rows);
    }
  }

  lemma PendingIs(t: T)
    requires !t.altActive && Redrawn(t)
    ensures var c := Line(t)[t.w - 1]; PendingOf(t) == [SgrPiece(c.style), Text(c.ch), RESET]
  {
    hide RowsFit, SgrPiece;
  }

  lemma NotRedrawn(t: T, rows: seq<Row>)
    requires !t.altActive && !Redrawn(t) && |rows| == t.h && RowsFit(rows, t.w)
    ensures Back(t, rows) == rows && PendingOf(t) == []
  {
    hide RowsFit;
  }
}
