/** Programs on the alternate screen whose picture a snapshot keeps or spoils. */
module Editors {
  import opened Utf8
  import opened Cells
  import opened Parser
  import opened Terminal
  import opened Dispatch
  import opened Snapshots
  import opened Content
  import opened Paint
  import opened Typewriter
  import opened Receiving
  import opened Alignment
  import opened Restore
  import opened Cursors
  import opened RoundTrip
  import opened Bleeding
  import opened Fidelity
  import opened Exactness
  import opened Shifting
  import opened Carrying
  import opened Twins
  import opened AltRoundTrip
  import opened Samples
  import Shortfalls
  import Losses

  /** A fresh terminal reproduces both screens of t from its snapshot. */
  predicate BothSurvive(t: T) {
    SameScreens(Write(NewEmulator(t.w, t.h, t.maxScrollback), Snapshot(t)).t, t)
  }

  // ---------------------------------------------------------------------------
  // A fresh terminal enters its alternate screen
  // ---------------------------------------------------------------------------

  lemma FreshEntered(w: nat, h: nat, max: nat)
    requires 2 <= w <= MAX_VALUE && 1 <= h <= MAX_VALUE
    ensures var t := EnterAlt(New(w, h, max), true);
      && t.w == w && t.h == h && t.maxScrollback == max && t.altActive && t.main.scrollback == [] && t.modes == INIT_MODES
      && t.main == NewScreen(w, h).(saved := Saved(0, 0, PLAIN, [], ASCII_SETS, false, true)) && t.alt == NewScreen(w, h)
      && t.link == [] && t.title == []
  {
    hide RowsFit, ClearRows;
    ClearedRows(h, w);
  }

  predicate Untouched(t: T) {
    && 2 <= t.w <= MAX_VALUE && 1 <= t.h <= MAX_VALUE && t.altActive && t.modes == INIT_MODES && t.link == [] && t.title == []
    && t.main == NewScreen(t.w, t.h).(saved := Saved(0, 0, PLAIN, [], ASCII_SETS, false, true)) && t.alt == NewScreen(t.w, t.h)
  }

  lemma UntouchedPresents(t: T)
    requires Untouched(t)
    ensures AltPresentable(t) && AllLines(MainOf(t)) == t.main.rows == t.alt.rows == BlankRows(t.h, t.w, PLAIN)
  {
    hide RowsFit, CellsOk, BlankRow;
    NothingText();
    Losses.BlankRowsOk(t.w, t.h);
    assert [] + BlankRows(t.h, t.w, PLAIN) == BlankRows(t.h, t.w, PLAIN);
  }

  /** Blank rows are laid right wherever they are typed from. */
  lemma {:induction false} BlankDry(w: nat, h: nat, k: nat)
    requires k <= h
    ensures BrushAt(BlankRows(h, w, PLAIN), k) == DRY
    decreases k
  {
    hide DipAll, LastVisible;
    if k > 0 {
      BlankDry(w, h, k - 1);
      BlankRowOk(w);
      NoCells(DRY);
    }
  }

  lemma BlankLine(w: nat, h: nat, k: nat)
    requires k < h
    ensures var rows := BlankRows(h, w, PLAIN);
      PenAt(rows, k).bg == Default && !rows[k].wrapped && Paired(rows[k].cells) && !Bleeds(h, rows, k, 0, w)
  {
    hide BrushAt, Emitted, Paired;
    BlankDry(w, h, k);
    BlankRowOk(w);
  }

  lemma BlankLaid(w: nat, h: nat)
    ensures var rows := BlankRows(h, w, PLAIN);
      AllPaired(rows) && Chained(rows, 0, w) && forall k :: 0 <= k < h ==> !rows[k].wrapped && !Bleeds(h, rows, k, 0, w)
  {
    hide PenAt, Emitted, Paired, BlankRow, Bleeds;
    var rows := BlankRows(h, w, PLAIN);
    forall k | 0 <= k < h ensures !rows[k].wrapped && Paired(rows[k].cells) && !Bleeds(h, rows, k, 0, w) {
      BlankLine(w, h, k);
    }
  }

  lemma UntouchedMain(t: T)
    requires Untouched(t)
    ensures MainExact(t, t.maxScrollback)
  {
    hide Paired, BlankRow, Bleeds, Continues, AllPaired, Chained, RowsFit;
    UntouchedPresents(t);
    BlankLaid(t.w, t.h);
    NothingArchived(t.w, t.maxScrollback);
  }

  lemma UntouchedAlt(t: T)
    requires Untouched(t) && AllCellsOk(t.alt.rows)
    ensures AltExact(t)
  {
    hide BlankRow, Bleeds, AllPaired, Chained, RowsFit, AllCellsOk;
    AltParts(t);
    MainParts(t);
    BlankLaid(t.w, t.h);
  }

  lemma UntouchedKept(t: T)
    requires Untouched(t)
    ensures t.altActive && BothSurvive(t)
  {
    hide AltPresentable, AltExact, MainExact, SameScreens, Snapshot, Write, AllCellsOk, MainOf;
    UntouchedPresents(t);
    AltSnapshotRoundTrip(t, t.maxScrollback);
    UntouchedMain(t);
    UntouchedAlt(t);
  }

  /** A fresh terminal that enters its alternate screen is reproduced exactly. */
  lemma FreshAlternate(w: nat, h: nat, max: nat)
    requires 2 <= w <= MAX_VALUE && 1 <= h <= MAX_VALUE
    ensures var t := Output(w, h, max, [SetPiece(1049)]); t.altActive && BothSurvive(t)
  {
    hide Output, New, Run, BothSurvive, EnterAlt, PiecesOk, SetPiece, PieceOk, Do, NewScreen;
    SetOk(1049);
    OkOne(SetPiece(1049));
    OutputIs(w, h, max, [SetPiece(1049)]);
    Run1(New(w, h, max), SetPiece(1049));
    DoEnter(New(w, h, max));
    FreshEntered(w, h, max);
    UntouchedKept(Output(w, h, max, [SetPiece(1049)]));
  }

  // ---------------------------------------------------------------------------
  // A row of text beside the prompt
  // ---------------------------------------------------------------------------

  /** The main cursor is not in the first column, as after a prompt, and the first row
      of the alternate screen begins with a narrow character: whatever its length and
      whatever continues it, the screens do not come back, unless the wrap is pending
      on that row or on one that continues it. */
  lemma TitleMoved(t: T)
    requires AltPresentable(t) && t.main.cur.x > 0
    requires t.alt.rows != [] && t.alt.rows[0].cells != [] && t.alt.rows[0].cells[0].width == 1 && t.alt.rows[0].cells[0].ch != []
    requires t.alt.cur.pendingWrap ==> t.alt.cur.y > GroupEnd(t.alt.rows, 0)
    ensures !BothSurvive(t)
  {
    hide AltPresentable, SameScreens, Snapshot, Write, AllCellsOk, AsMain, MainOf, RowsLaid, MainExact, WrapDrawn, Reaches, SavedPlain, Line,
      GroupEnd;
    AltParts(t);
    MainParts(t);
    AltSnapshotRoundTrip(t, t.maxScrollback);
    TitleMoves(AsMain(t), t.main.cur.y, t.main.cur.x);
  }

  // ---------------------------------------------------------------------------
  // Two columns and one row
  // ---------------------------------------------------------------------------

  predicate Tiny(b: T) { Plain(b) && b.w == 2 && b.h == 1 }

  /** A receiver of one row. */
  function One(b: T, left: Cell, right: Cell, wrapped: bool, x: int, pending: bool, r: Rune): Term {
    Frame(b, [Row([left, right], wrapped)], [], Cursor(x, 0, pending), DRY, r)
  }

  lemma OneIs(b: T, left: Cell, right: Cell, wrapped: bool, x: int, pending: bool, r: Rune)
    requires Tiny(b) && 0 <= x < 2 && (pending ==> x == 1)
    ensures var d := One(b, left, right, wrapped, x, pending, r);
      && Fits(d) && Plain(d) && d.w == 2 && BrushOf(d) == DRY && Line(d) == [left, right] && d.main.cur == Cursor(x, 0, pending)
      && d.modes == b.modes && d.charsets == b.charsets && !d.altActive
  {
  }

  /** A letter in the default rendition, over a narrow cell. */
  lemma OneLetter(b: T, left: Cell, right: Cell, wrapped: bool, x: int, r: Rune, g: Rune)
    requires Tiny(b) && 0 <= x < 2 && left.width == right.width == 1 && 0x21 <= g < 0x7f
    ensures Fits(One(b, left, right, wrapped, x, false, r))
    ensures Do(One(b, left, right, wrapped, x, false, r), Text([g]))
      == (if x == 0 then One(b, Plainly(g), right, wrapped, 1, false, g) else One(b, left, Plainly(g), wrapped, 1, true, g))
  {
    hide Do, Plain, Put, CellOk, Plainly;
    OneIs(b, left, right, wrapped, x, false, r);
    var d := One(b, left, right, wrapped, x, false, r);
    PlainlyOk(g);
    Losses.LetterPieces(g);
    PaintText(d, Plainly(g));
    OnePut(b, left, right, wrapped, x, r, g);
  }

  lemma OnePut(b: T, left: Cell, right: Cell, wrapped: bool, x: int, r: Rune, g: Rune)
    requires Tiny(b) && 0 <= x < 2 && left.width == right.width == 1 && Fits(One(b, left, right, wrapped, x, false, r))
    ensures var d := One(b, left, right, wrapped, x, false, r);
      && Room(d, 1)
      && Put(d, Cell([g], 1, PLAIN, []), g)
        == (if x == 0 then One(b, Plainly(g), right, wrapped, 1, false, g) else One(b, left, Plainly(g), wrapped, 1, true, g))
  {
    OneIs(b, left, right, wrapped, x, false, r);
    var row := Row([left, right], wrapped);
    assert [left, right][0 := Plainly(g)] == [Plainly(g), right];
    assert [left, right][1 := Plainly(g)] == [left, Plainly(g)];
    assert [row][0 := row.(cells := [Plainly(g), right])] == [Row([Plainly(g), right], wrapped)];
    assert [row][0 := row.(cells := [left, Plainly(g)])] == [Row([left, Plainly(g)], wrapped)];
  }

  lemma OneCup(b: T, left: Cell, right: Cell, wrapped: bool, x: int, pending: bool, r: Rune)
    requires Tiny(b) && 0 <= x < 2 && (pending ==> x == 1)
    ensures Fits(One(b, left, right, wrapped, x, pending, r))
    ensures Do(One(b, left, right, wrapped, x, pending, r), CupPiece(0, 0)) == One(b, left, right, wrapped, 0, false, r)
  {
    hide Do, CupPiece, RowsFit;
    OneIs(b, left, right, wrapped, x, pending, r);
    DoCup(One(b, left, right, wrapped, x, pending, r), 0, 0);
  }

  lemma OneFresh(max: nat)
    ensures Tiny(New(2, 1, max)) && New(2, 1, max) == One(New(2, 1, max), BLANK, BLANK, false, 0, false, 0)
  {
    BlankTwo();
    assert BlankRows(1, 2, PLAIN) == [BlankRow(2, PLAIN)];
  }

  lemma BlankTwo()
    ensures BlankRow(2, PLAIN) == Row([BLANK, BLANK], false) && RowsFit([BlankRow(2, PLAIN)], 2)
  {
    assert Blanks(2, PLAIN) == [BLANK, BLANK];
  }

  /** The main screen under the editor: a prompt of one letter. */
  function Prompt(): Screen {
    Screen([Row([Plainly(A), BLANK], false)], Cursor(1, 0, false), Saved(1, 0, PLAIN, [], ASCII_SETS, false, true), 0, 0, [])
  }

  /** The editor has started. */
  function Started(max: nat): Term { One(New(2, 1, 0), BLANK, BLANK, false, 1, false, A) }

  lemma StartedTwin(max: nat)
    ensures var d := One(New(2, 1, max), Plainly(A), BLANK, false, 1, false, A);
      && Fits(d) && Fits(Started(max)) && Twin(Prompt(), max, EnterAlt(d, true), Started(max))
  {
    OneFresh(max);
    OneFresh(0);
    OneIs(New(2, 1, max), Plainly(A), BLANK, false, 1, false, A);
    OneIs(New(2, 1, 0), BLANK, BLANK, false, 1, false, A);
    ClearedRows(1, 2);
    BlankTwo();
    assert BlankRows(1, 2, PLAIN) == [BlankRow(2, PLAIN)];
    hide RowsFit, ClearRows, BlankRow, Plainly;
  }

  /** After the prompt, an editor writes on its screen as on a main screen of its own. */
  lemma EditorTyped(max: nat, ps: seq<Piece>)
    requires AllQuiet(ps)
    ensures Fits(Started(max)) && Twin(Prompt(), max, Run(New(2, 1, max), [Text([A])] + ([SetPiece(1049)] + ps)), Run(Started(max), ps))
  {
    hide Run, Do, New, One, AllQuiet, EnterAlt, Twin, SetPiece, Tiny;
    var b := New(2, 1, max);
    var d := Do(b, Text([A]));
    OneFresh(max);
    BlankNarrow();
    OneLetter(b, BLANK, BLANK, false, 0, 0, A);
    StartedTwin(max);
    DoEnter(d);
    RunCons(b, Text([A]), [SetPiece(1049)] + ps);
    RunCons(d, SetPiece(1049), ps);
    TwinRun(Prompt(), max, EnterAlt(d, true), Started(max), ps);
  }

  lemma BlankNarrow()
    ensures BLANK.width == 1 && forall r :: Plainly(r).width == 1
  {
  }

  /** An editor shows one row after a prompt of one letter. */
  predicate Showing(t: T, max: nat, left: Cell, right: Cell, x: int) {
    && t.altActive && t.w == 2 && t.h == 1 && t.maxScrollback == max && t.main == Prompt()
    && t.alt == Screen([Row([left, right], false)], Cursor(x, 0, false), NO_SAVED, 0, 0, [])
    && t.pen == PLAIN && t.link == [] && t.modes == INIT_MODES && t.title == [] && t.charsets == ASCII_SETS
  }

  lemma ShowingIs(t: T, max: nat, left: Cell, right: Cell, x: int, r: Rune)
    requires 0 <= x < 2 && Fits(One(New(2, 1, 0), left, right, false, x, false, r))
    requires Twin(Prompt(), max, t, One(New(2, 1, 0), left, right, false, x, false, r))
    ensures Showing(t, max, left, right, x)
  {
    hide RowsFit;
  }

  lemma ShowingPresents(t: T, max: nat, left: Cell, right: Cell, x: int)
    requires Showing(t, max, left, right, x) && CellOk(left) && CellOk(right)
    ensures AltPresentable(t) && t.main.cur.x == 1
  {
    hide RowsFit, CellOk, Plainly;
    NothingText();
    PlainlyOk(A);
  }

  /** What the alternate screen's one row becomes, typed from the prompt's column. */
  lemma Comes(t: T, max: nat, left: Cell, right: Cell, row: Row)
    requires Showing(t, max, left, right, t.alt.cur.x) && CellOk(left) && CellOk(right) && left.width == right.width == 1
    requires AllCellsOk(t.alt.rows) && ScreenOf(AltTyped(t)) == [row]
    ensures Write(NewEmulator(2, 1, max), Snapshot(t)).t.alt.rows == [row]
  {
    hide Write, Snapshot, AltPresentable, AllCellsOk, ScreenOf, AltTyped, RowsFit, LeftBehind, CellOk;
    ShowingPresents(t, max, left, right, t.alt.cur.x);
    AltSnapshotRebuilds(t, max);
    Unpending(t);
  }

  lemma Unpending(t: T)
    requires !t.alt.cur.pendingWrap && !t.modes.origin
    ensures !AsMain(t).altActive && !Redrawn(AsMain(t)) && Reaches(AsMain(t))
  {
    hide Line, RowsFit;
  }

  lemma EmittedRow(left: Cell, right: Cell)
    requires CellOk(left) && CellOk(right) && !IsBlank(left)
    ensures var rows := [Row([left, right], false)];
      AllCellsOk(rows) && Emitted(rows, 0) == if IsBlank(right) then [left] else [left, right]
  {
    hide CellOk, IsBlank, LastVisible;
    if IsBlank(right) {
      VisibleOne(left, [right]);
      assert [left] + [right] == [left, right];
    } else {
      VisibleAll([left, right]);
    }
  }

  lemma CarriedTape(c: Cell)
    requires c.width == 1
    ensures var u := Type(FreshTape(2, 1, 0, 1), c); u.w == 2 && u.h == 1 && u.col == 2 && u.lines == [Row([BLANK, c], false)]
  {
    hide Sound;
    var t := FreshTape(2, 1, 0, 1);
    assert Last(t) == [BLANK, BLANK];
    assert Last(Type(t, c)) == [BLANK, c];
  }

  // ---------------------------------------------------------------------------
  // The first row beside the prompt
  // ---------------------------------------------------------------------------

  const LETTER_PIECES := [CupPiece(0, 0)] + [Text([B])]

  /** A prompt of one letter, then an editor that shows one letter. */
  const CARRIED_PIECES := [Text([A])] + ([SetPiece(1049)] + LETTER_PIECES)

  lemma LetterQuiet()
    ensures AllQuiet(LETTER_PIECES) && PiecesOk(CARRIED_PIECES)
  {
    hide Quiet, PieceOk, CupPiece, AllQuiet, PiecesOk, SetPiece;
    QuietCup(0, 0);
    QuietText([B]);
    AltRoundTrip.QuietOne(CupPiece(0, 0));
    AltRoundTrip.QuietOne(Text([B]));
    QuietConcat([CupPiece(0, 0)], [Text([B])]);
    PlainlyOk(A);
    PlainlyOk(B);
    OkOne(Text([A]));
    OkOne(Text([B]));
    SetOk(1049);
    OkOne(SetPiece(1049));
    CupOk(0, 0);
    OkOne(CupPiece(0, 0));
    OkConcat([CupPiece(0, 0)], [Text([B])]);
    OkConcat([SetPiece(1049)], LETTER_PIECES);
    OkConcat([Text([A])], [SetPiece(1049)] + LETTER_PIECES);
  }

  lemma LetterTyped(max: nat) returns (t: T)
    ensures t == Output(2, 1, max, CARRIED_PIECES) && Showing(t, max, Plainly(B), BLANK, 1)
  {
    hide Run, Do, One, AllQuiet, PiecesOk, Twin, Showing, CupPiece, Write, New, Plainly, Tiny;
    var b := New(2, 1, 0);
    LetterQuiet();
    OutputIs(2, 1, max, CARRIED_PIECES);
    EditorTyped(max, LETTER_PIECES);
    OneFresh(0);
    BlankNarrow();
    OneCup(b, BLANK, BLANK, false, 1, false, A);
    OneLetter(b, BLANK, BLANK, false, 0, A, B);
    RunCons(Started(max), CupPiece(0, 0), [Text([B])]);
    Run1(One(b, BLANK, BLANK, false, 0, false, A), Text([B]));
    t := Output(2, 1, max, CARRIED_PIECES);
    OneIs(b, Plainly(B), BLANK, false, 1, false, B);
    ShowingIs(t, max, Plainly(B), BLANK, 1, B);
  }

  /** One row typed. */
  lemma RowTaped(start: Tape, rows: seq<Row>, cells: seq<Cell>)
    requires AllCellsOk(rows) && |rows| == 1 && Emitted(rows, 0) == cells
    ensures CellsOk(cells) && TapeAt(start, rows, 1) == TypeAll(start, cells)
  {
    hide Sound, TypeAll, Emitted, AllCellsOk, CellsOk, BrushAt;
    EmittedCellsOk(rows, 0);
    assert TapeAt(start, rows, 0) == start;
  }

  lemma TypeOne(start: Tape, c: Cell)
    requires CellOk(c) && c.width == 1
    ensures CellsOk([c]) && TypeAll(start, [c]) == Type(start, c)
  {
    hide Sound, Type, CellOk;
    assert [c][1..] == [];
  }

  lemma TypeTwo(start: Tape, c: Cell, d: Cell)
    requires CellOk(c) && CellOk(d) && c.width == d.width == 1
    ensures CellsOk([c, d]) && TypeAll(start, [c, d]) == Type(Type(start, c), d)
  {
    hide Sound, Type, CellOk;
    assert [c, d][1..] == [d];
    TypeOne(Type(start, c), d);
  }

  lemma ShowingRow(t: T, max: nat, left: Cell, right: Cell, x: int)
    requires Showing(t, max, left, right, x)
    ensures t.alt.rows == [Row([left, right], false)]
  {
    hide RowsFit;
  }

  lemma ShowingTape(t: T, max: nat, left: Cell, right: Cell, x: int)
    requires Showing(t, max, left, right, x) && AllCellsOk(t.alt.rows)
    ensures t.alt.rows == [Row([left, right], false)] && AltTyped(t) == TapeAt(FreshTape(2, 1, 0, 1), t.alt.rows, 1)
  {
    hide Sound, TapeAt, AllCellsOk, FreshTape;
    AltParts(t);
  }

  lemma LetterComes(t: T, max: nat)
    requires Showing(t, max, Plainly(B), BLANK, 1)
    ensures AllCellsOk(t.alt.rows) && ScreenOf(AltTyped(t)) == [Row([BLANK, Plainly(B)], false)]
  {
    hide CellOk, IsBlank, Sound, Type, Plainly, AltTyped, TapeAt, TypeAll, Emitted, Showing, FreshTape, CellsOk, AllCellsOk;
    PlainlyOk(B);
    ShowingRow(t, max, Plainly(B), BLANK, 1);
    EmittedRow(Plainly(B), BLANK);
    BlankNarrow();
    CarriedTape(Plainly(B));
    ShowingTape(t, max, Plainly(B), BLANK, 1);
    RowTaped(FreshTape(2, 1, 0, 1), t.alt.rows, [Plainly(B)]);
    TypeOne(FreshTape(2, 1, 0, 1), Plainly(B));
  }

  /** The editor's first row comes back moved right by the prompt. */
  lemma PromptCarried(max: nat)
    ensures var t := Output(2, 1, max, CARRIED_PIECES);
      var e := Write(NewEmulator(2, 1, max), Snapshot(t)).t;
      Showing(t, max, Plainly(B), BLANK, 1) && e.alt.rows == [Row([BLANK, Plainly(B)], false)] && !BothSurvive(t)
  {
    hide Write, New, Run, Output, AltPresentable, Snapshot, ScreenOf, AltTyped, ScreenFits, CellOk, IsBlank, AllCellsOk, Plainly;
    var t := LetterTyped(max);
    PlainlyOk(B);
    BlankNarrow();
    LetterComes(t, max);
    Comes(t, max, Plainly(B), BLANK, Row([BLANK, Plainly(B)], false));
    LetterShows();
  }

  lemma LetterShows()
    ensures Plainly(B) != BLANK
  {
  }

  // ---------------------------------------------------------------------------
  // A first row that does not fit beside the prompt
  // ---------------------------------------------------------------------------

  const FULL_PIECES := [CupPiece(0, 0)] + ([Text([B])] + ([Text([C])] + [CupPiece(0, 0)]))

  /** A prompt of one letter, then an editor that fills its row. */
  const OVERFLOW_PIECES := [Text([A])] + ([SetPiece(1049)] + FULL_PIECES)

  lemma FullQuiet()
    ensures AllQuiet(FULL_PIECES) && PiecesOk(OVERFLOW_PIECES)
  {
    hide Quiet, PieceOk, CupPiece, AllQuiet, PiecesOk, SetPiece;
    QuietCup(0, 0);
    QuietText([B]);
    QuietText([C]);
    AltRoundTrip.QuietOne(CupPiece(0, 0));
    AltRoundTrip.QuietOne(Text([B]));
    AltRoundTrip.QuietOne(Text([C]));
    QuietConcat([Text([C])], [CupPiece(0, 0)]);
    QuietConcat([Text([B])], [Text([C])] + [CupPiece(0, 0)]);
    QuietConcat([CupPiece(0, 0)], [Text([B])] + ([Text([C])] + [CupPiece(0, 0)]));
    PlainlyOk(A);
    PlainlyOk(B);
    PlainlyOk(C);
    OkOne(Text([A]));
    OkOne(Text([B]));
    OkOne(Text([C]));
    SetOk(1049);
    OkOne(SetPiece(1049));
    CupOk(0, 0);
    OkOne(CupPiece(0, 0));
    OkConcat([Text([C])], [CupPiece(0, 0)]);
    OkConcat([Text([B])], [Text([C])] + [CupPiece(0, 0)]);
    OkConcat([CupPiece(0, 0)], [Text([B])] + ([Text([C])] + [CupPiece(0, 0)]));
    OkConcat([SetPiece(1049)], FULL_PIECES);
    OkConcat([Text([A])], [SetPiece(1049)] + FULL_PIECES);
  }

  lemma FullTyped(max: nat) returns (t: T)
    ensures t == Output(2, 1, max, OVERFLOW_PIECES) && Showing(t, max, Plainly(B), Plainly(C), 0)
  {
    hide Run, Do, One, AllQuiet, PiecesOk, Twin, Showing, CupPiece, Write, New, Plainly, Tiny;
    var b := New(2, 1, 0);
    FullQuiet();
    OutputIs(2, 1, max, OVERFLOW_PIECES);
    EditorTyped(max, FULL_PIECES);
    OneFresh(0);
    BlankNarrow();
    OneCup(b, BLANK, BLANK, false, 1, false, A);
    OneLetter(b, BLANK, BLANK, false, 0, A, B);
    OneLetter(b, Plainly(B), BLANK, false, 1, B, C);
    OneCup(b, Plainly(B), Plainly(C), false, 1, true, C);
    RunCons(Started(max), CupPiece(0, 0), [Text([B])] + ([Text([C])] + [CupPiece(0, 0)]));
    RunCons(One(b, BLANK, BLANK, false, 0, false, A), Text([B]), [Text([C])] + [CupPiece(0, 0)]);
    RunCons(One(b, Plainly(B), BLANK, false, 1, false, B), Text([C]), [CupPiece(0, 0)]);
    Run1(One(b, Plainly(B), Plainly(C), false, 1, true, C), CupPiece(0, 0));
    t := Output(2, 1, max, OVERFLOW_PIECES);
    OneIs(b, Plainly(B), Plainly(C), false, 0, false, C);
    ShowingIs(t, max, Plainly(B), Plainly(C), 0, C);
  }

  lemma OverflowTape()
    ensures var u := Type(Type(FreshTape(2, 1, 0, 1), Plainly(B)), Plainly(C));
      u.w == 2 && u.h == 1 && u.col == 1 && |u.lines| == 2 && u.lines[1] == Row([Plainly(C), BLANK], true)
  {
    hide Sound, Type;
    CarriedTape(Plainly(B));
    Shortfalls.WrapTape(Type(FreshTape(2, 1, 0, 1), Plainly(B)), Plainly(C));
  }

  lemma FullComes(t: T, max: nat)
    requires Showing(t, max, Plainly(B), Plainly(C), 0)
    ensures AllCellsOk(t.alt.rows) && ScreenOf(AltTyped(t)) == [Row([Plainly(C), BLANK], true)]
  {
    hide CellOk, IsBlank, Sound, Type, Plainly, AltTyped, TapeAt, TypeAll, Emitted, Showing, FreshTape, CellsOk, AllCellsOk;
    PlainlyOk(B);
    PlainlyOk(C);
    ShowingRow(t, max, Plainly(B), Plainly(C), 0);
    EmittedRow(Plainly(B), Plainly(C));
    BlankNarrow();
    OverflowTape();
    ShowingTape(t, max, Plainly(B), Plainly(C), 0);
    RowTaped(FreshTape(2, 1, 0, 1), t.alt.rows, [Plainly(B), Plainly(C)]);
    TypeTwo(FreshTape(2, 1, 0, 1), Plainly(B), Plainly(C));
  }

  /** The editor fills its row, which does not fit beside the prompt: its last
      letter comes back as the first. */
  lemma OverflowDrawn(max: nat)
    ensures var t := Output(2, 1, max, OVERFLOW_PIECES);
      var e := Write(NewEmulator(2, 1, max), Snapshot(t)).t;
      && Showing(t, max, Plainly(B), Plainly(C), 0)
      && e.alt.rows == [Row([Plainly(C), BLANK], true)] && !BothSurvive(t)
  {
    hide Write, New, Run, Output, AltPresentable, Snapshot, ScreenOf, AltTyped, ScreenFits, CellOk, IsBlank, AllCellsOk, Plainly;
    var t := FullTyped(max);
    PlainlyOk(B);
    PlainlyOk(C);
    BlankNarrow();
    FullComes(t, max);
    Comes(t, max, Plainly(B), Plainly(C), Row([Plainly(C), BLANK], true));
    assert Row([Plainly(C), BLANK], true).wrapped;
  }
}
