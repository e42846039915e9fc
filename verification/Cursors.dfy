/** What the snapshot's cursor, region, charset and title pieces do to the
    receiver, whose main screen is active. */
module Cursors {
  import opened Utf8
  import opened Cells
  import opened Width
  import opened Parser
  import opened Sequences
  import opened Terminal
  import opened Dispatch
  import opened Snapshots
  import opened Content
  import opened Paint
  import opened Restore

  lemma ApplyCup(d: T, n: nat, m: nat)
    requires m >= 1
    ensures Apply(d, CsiDispatch(0, 0, [P(n), P(m)], 'H' as int))
      == MoveCursor(d, m - 1, Max(n, 1) - 1 + if d.modes.origin then Active(d).top else 0)
  {
    hide Apply, ScreenFits, MoveCursor, ApplyEdit, ClearTabs, SetRegion, SaveCursor, RestoreCursor, Sgr, SetModes,
      CursorUp, CursorDown, SetColumn, TabForward, TabBackward;
    var ps := [P(n), P(m)];
    ApplyPlain(d, ps, 'H' as int);
    assert ParamAt(ps, 0, 1) == Max(n, 1) && ParamAt(ps, 1, 1) == m;
  }

  /** Cursor position, outside origin mode and in it. */
  lemma DoCup(d: T, x: int, y: int)
    requires !d.altActive && 0 <= x < d.w
    requires if d.modes.origin then 0 <= y <= d.main.bot - d.main.top else 0 <= y < d.h
    ensures var y' := y + if d.modes.origin then d.main.top else 0;
      0 <= y' < d.h && Do(d, CupPiece(x, y)) == SetCur(d, x, y', false)
  {
    hide Apply, RowsFit;
    Apply1(d, CsiDispatch(0, 0, [P(y + 1), P(x + 1)], 'H' as int));
    ApplyCup(d, y + 1, x + 1);
  }

  /** In origin mode a row outside the region ends up on the region's nearest line; a
      row before the one above the region leaves the cursor where it is. */
  lemma DoCupClipped(d: T, x: nat, y: int)
    requires !d.altActive && d.modes.origin && x < d.w
    ensures y + 1 >= 0 ==> Do(d, CupPiece(x, y)) == SetCur(d, x, Clamp(y + d.main.top, d.main.top, d.main.bot), false)
    ensures y + 1 < 0 ==> Do(d, CupPiece(x, y)) == d
  {
    hide Apply, RowsFit;
    if y + 1 >= 0 {
      Apply1(d, CsiDispatch(0, 0, [P(y + 1), P(x + 1)], 'H' as int));
      ApplyCup(d, y + 1, x + 1);
    } else {
      ApplyNothing(d);
    }
  }

  function WithOrigin(d: T): T
    requires !d.altActive
  {
    SetCur(WithModes(d, d.modes.(origin := true)), 0, d.main.top, false)
  }

  lemma DoOrigin(d: T)
    requires !d.altActive
    ensures Do(d, SetPiece(6)) == WithOrigin(d)
  {
    hide Do, RowsFit;
    DoPrivate(d, 6, true);
  }

  lemma DoSave(d: T)
    ensures Do(d, Esc(0, '7' as int)) == SaveCursor(d)
  {
    hide SaveCursor, ScreenFits, ApplyCsi, ApplyOsc, ApplyExecute, PrintRune, ApplyAll;
    Apply1(d, EscDispatch(0, '7' as int));
  }

  function WithRegion(d: T, top: int, bot: int): T
    requires !d.altActive && 0 <= top < bot < d.h
  {
    SetCur(With(d, d.main.(top := top, bot := bot)), 0, 0, false)
  }

  lemma DoRegion(d: T, top: int, bot: int)
    requires !d.altActive && !d.modes.origin && 0 <= top < bot < d.h
    ensures Do(d, Csi(0, [P(top + 1), P(bot + 1)], 0, 'r' as int)) == WithRegion(d, top, bot)
  {
    hide Apply, RowsFit, ApplyMotion, ApplyEdit, ClearTabs, SaveCursor, RestoreCursor, Sgr, SetModes, IsMotion;
    var ps := [P(top + 1), P(bot + 1)];
    Apply1(d, CsiDispatch(0, 0, ps, 'r' as int));
    ApplyPlain(d, ps, 'r' as int);
    NoMotion('r' as int);
    RegionSet(d, top, bot);
  }

  lemma RegionSet(d: T, top: int, bot: int)
    requires !d.altActive && !d.modes.origin && 0 <= top < bot < d.h
    ensures SetRegion(d, [P(top + 1), P(bot + 1)]) == WithRegion(d, top, bot)
  {
    hide RowsFit;
    var ps := [P(top + 1), P(bot + 1)];
    assert ParamAt(ps, 0, 1) == top + 1 && ParamAt(ps, 1, d.h) == bot + 1;
  }

  lemma DoDesignate(d: T)
    ensures Do(d, Esc('(' as int, '0' as int)) == WithSets(d, d.charsets.(g0 := Graphics))
    ensures Do(d, Esc(')' as int, '0' as int)) == WithSets(d, d.charsets.(g1 := Graphics))
    ensures Do(d, Control(0x0e)) == WithSets(d, d.charsets.(gl := 1))
  {
    hide ScreenFits, ApplyCsi, ApplyOsc, PrintRune, ApplyAll;
    Apply1(d, EscDispatch('(' as int, '0' as int));
    Apply1(d, EscDispatch(')' as int, '0' as int));
    Apply1(d, Execute(0x0e));
  }

  lemma OscTitleParts(title: seq<byte>)
    ensures var data := [0x30, 0x3b] + title;
      Semicolon(data) == 1 && data[..1] == [0x30] && Atoi(data[..1]) == Some(0) && data[2..] == title
  {
    var data := [0x30, 0x3b] + title;
    assert data[1..][0] == 0x3b;
    assert [0x30][1..] == [];
    assert Dispatch.Digits([0x30], 0) == Some(0);
  }

  function WithTitle(d: T, title: seq<byte>): T { d.(title := title) }

  lemma DoTitle(d: T, title: seq<byte>)
    ensures Do(d, TitlePiece(title)) == WithTitle(d, title)
  {
    hide Semicolon, Atoi, ScreenFits, ApplyCsi, ApplyEsc, ApplyExecute, PrintRune, ApplyAll;
    OscTitleParts(title);
    Apply1(d, OscDispatch([0x30, 0x3b] + title));
  }

  /** Charsets restored from the default ones. */
  lemma SetsRestored(d: T, cs: Charsets)
    requires d.charsets == ASCII_SETS && 0 <= cs.gl <= 1
    ensures Run(d, CharsetPieces(cs)) == WithSets(d, cs)
  {
    hide Do, Run, ScreenFits, When;
    var d1 := WithSets(d, ASCII_SETS.(g0 := cs.g0));
    var d2 := WithSets(d, cs.(gl := 0));
    DoDesignate(d);
    DoDesignate(d1);
    DoDesignate(d2);
    var p0, p1, p2 := Esc('(' as int, '0' as int), Esc(')' as int, '0' as int), Control(0x0e);
    DoWhen(d, cs.g0.Graphics?, p0, When(cs.g1.Graphics?, p1) + When(cs.gl == 1, p2), d1);
    DoWhen(d1, cs.g1.Graphics?, p1, When(cs.gl == 1, p2), d2);
    DoWhen(d2, cs.gl == 1, p2, [], WithSets(d, cs));
  }

  // ---------------------------------------------------------------------------
  // The cell under a pending wrap
  // ---------------------------------------------------------------------------

  /** A narrow character over whatever is in the cursor's column. */
  function Over(d: T, c: Cell, r: Rune): T
    requires !d.altActive
  {
    Painted(WithLast(d, r), PlaceInLine(Line(d), d.main.cur.x, c.ch, 1, c.style, c.link), d.main.cur.x + 1)
  }

  lemma OverBase(d: T, g: Rune)
    requires !d.altActive && d.charsets == ASCII_SETS && !d.modes.insert && RuneWidth(g) == 1 && !d.main.cur.pendingWrap
    ensures PrintRune(d, g) == Over(d, Cell(Glyph(g), 1, d.pen, d.link), g)
  {
    hide RuneWidth, Combine, WrapToNextLine, InsertCells, RowsFit, SetLine, PlaceInLine;
    assert Translate(d.charsets, g) == g;
    var d1 := WithLast(d, g);
    assert Line(d1) == Line(d);
    assert TakeWrap(d1) == d1 && MakeRoom(d1, 1) == d1 && MoveAside(d1, 1) == d1;
    LineSet(d1, PlaceInLine(Line(d), d.main.cur.x, Glyph(g), 1, d.pen, d.link));
  }

  lemma PlacedText(cells: seq<Cell>, x: nat, ch: seq<Rune>, ch': seq<Rune>, pen: Style, link: seq<byte>)
    requires x < |cells|
    ensures PlaceInLine(cells, x, ch, 1, pen, link)[x] == Cell(ch, 1, pen, link)
    ensures PlaceInLine(cells, x, ch, 1, pen, link)[x := Cell(ch', 1, pen, link)] == PlaceInLine(cells, x, ch', 1, pen, link)
  {
  }

  lemma OverMarks(d: T, c: Cell, r: Rune, marks: seq<Rune>)
    requires !d.altActive && d.charsets == ASCII_SETS && c.width == 1
    ensures var x := d.main.cur.x; 0 <= x < d.w && Over(d, c, r).w == d.w && Written(Over(d, c, r), x)
    ensures WithMarks(Over(d, c, r), d.main.cur.x, marks) == Over(d, c.(ch := Marked(c.ch, marks)), r)
  {
    hide RowsFit, Painted, SetLine, Line, PlaceInLine;
    var x, ch := d.main.cur.x, Marked(c.ch, marks);
    PlacedText(Line(d), x, c.ch, ch, c.style, c.link);
    var a, b := PlaceInLine(Line(d), x, c.ch, 1, c.style, c.link), PlaceInLine(Line(d), x, ch, 1, c.style, c.link);
    PaintedIs(WithLast(d, r), a, x + 1);
    PaintedLine(WithLast(d, r), a, b, x + 1);
    assert a[x := a[x].(ch := Marked(a[x].ch, marks))] == b;
  }

  lemma DoOver(d: T, c: Cell)
    requires !d.altActive && d.charsets == ASCII_SETS && !d.modes.insert && CellOk(c) && c.width == 1 && c.ch != []
    requires !d.main.cur.pendingWrap
    ensures Do(d, Text(c.ch)) == Over(d, Cell(c.ch, 1, d.pen, d.link), c.ch[0])
  {
    hide PrintRune, ApplyAll, RuneWidth, CellOk, WithMarks, Written, Prints, Over, Line, RowsFit;
    BaseWidth(c);
    var g := c.ch[0];
    OverBase(d, g);
    var first := Cell(Glyph(g), 1, d.pen, d.link);
    OverMarks(d, first, g, c.ch[1..]);
    CombineAll(Over(d, first, g), d.main.cur.x, c.ch[1..]);
    PrintsCons(c.ch);
    ApplyAppend(d, [Print(g)], Prints(c.ch[1..]));
    Apply1(d, Print(g));
  }
}
