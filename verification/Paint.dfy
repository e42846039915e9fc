/** Cells and lines that were written appear on a blank line of the receiver. */
module Paint {
  import opened Utf8
  import opened Cells
  import opened Width
  import opened Parser
  import opened Sequences
  import opened Terminal
  import opened Dispatch
  import opened Snapshots
  import opened Renditions
  import opened Content

  function Do(t: T, p: Piece): T { ApplyAll(t, PieceActs(p)) }

  function Run(t: T, ps: seq<Piece>): T
    decreases |ps|
  {
    if ps == [] then t else Run(Do(t, ps[0]), ps[1..])
  }

  lemma {:induction false} RunIs(t: T, ps: seq<Piece>)
    ensures Run(t, ps) == ApplyAll(t, Acts(ps))
    decreases |ps|
  {
    hide ApplyAll, PieceActs;
    if ps == [] {
      ApplyNothing(t);
    } else {
      ApplyAppend(t, PieceActs(ps[0]), Acts(ps[1..]));
      RunIs(Do(t, ps[0]), ps[1..]);
    }
  }

  lemma ApplyNothing(t: T)
    ensures ApplyAll(t, []) == t
  {
  }

  lemma {:induction false} RunAppend(t: T, a: seq<Piece>, b: seq<Piece>)
    ensures Run(t, a + b) == Run(Run(t, a), b)
    decreases |a|
  {
    hide Do;
    if a == [] {
      assert a + b == b;
    } else {
      assert (a + b)[1..] == a[1..] + b;
      RunAppend(Do(t, a[0]), a[1..], b);
    }
  }

  lemma Run1(t: T, p: Piece)
    ensures Run(t, [p]) == Do(t, p)
    ensures Run(t, []) == t
  {
    hide Do;
    assert [p][1..] == [];
  }

  lemma Apply1(t: T, a: Action)
    ensures ApplyAll(t, [a]) == Apply(t, a)
  {
    hide Apply;
    assert [a][1..] == [];
  }

  function BrushOf(d: T): Brush { Brush(d.pen, d.link) }

  function WithBrush(d: T, b: Brush): T { d.(pen := b.pen, link := b.link) }

  function WithLast(d: T, r: Rune): T { d.(lastPrinted := r) }

  /** A control sequence without marker or intermediate is a plain one. */
  lemma ApplyPlain(t: T, ps: seq<Param>, f: byte)
    ensures Apply(t, CsiDispatch(0, 0, ps, f)) == ApplyPlainCsi(t, ps, f)
  {
    hide ApplyPlainCsi, ScreenFits, Fits, SetPrivateModes, SoftReset, PrintRune, ApplyExecute, ApplyEsc, ApplyOsc;
  }

  lemma NoMotion(f: byte)
    requires 'g' as int <= f != 'd' as int
    ensures !IsMotion(f)
  {
  }

  lemma ApplySgr(t: T, ps: seq<Param>)
    ensures Apply(t, CsiDispatch(0, 0, ps, 'm' as int)) == WithBrush(t, Brush(Sgr(ps, t.pen), t.link))
  {
    hide Apply, ApplyMotion, ApplyEdit, SetModes, ClearTabs, SetRegion,
      SaveCursor, RestoreCursor, ScreenFits, Fits, Sgr, IsMotion, RawParam;
    NoMotion('m' as int);
    ApplyPlain(t, ps, 'm' as int);
  }

  lemma PrintsCons(rs: seq<Rune>)
    requires rs != []
    ensures Prints(rs) == [Print(rs[0])] + Prints(rs[1..])
  {
  }

  lemma DoSgr(t: T, st: Style)
    ensures Do(t, SgrPiece(st)) == WithBrush(t, Brush(st, t.link))
  {
    hide Sgr, SgrParams, Apply, ApplyAll, ScreenFits;
    SgrRoundTrip(st, t.pen);
    Apply1(t, CsiDispatch(0, 0, SgrParams(st), 'm' as int));
    ApplySgr(t, SgrParams(st));
  }

  lemma DoReset(t: T)
    ensures Do(t, RESET) == WithBrush(t, Brush(PLAIN, t.link))
  {
    hide Apply, ApplyAll, ScreenFits, SgrRun;
    Apply1(t, CsiDispatch(0, 0, [P(0)], 'm' as int));
    ApplySgr(t, [P(0)]);
    RunStep([P(0)], t.pen);
    assert [P(0)][1..] == [];
    RunNothing(PLAIN);
  }

  lemma OscLinkParts(link: seq<byte>)
    ensures var data := [0x38, 0x3b, 0x3b] + link;
      && Semicolon(data) == 1 && data[..1] == [0x38] && Atoi(data[..1]) == Some(8)
      && data[2..] == [0x3b] + link && Semicolon(data[2..]) == 0 && data[2..][1..] == link
  {
    var data := [0x38, 0x3b, 0x3b] + link;
    assert data[1..][0] == 0x3b;
    assert [0x38][1..] == [];
    assert Dispatch.Digits([0x38], 0) == Some(8);
  }

  lemma ApplyLink(t: T, link: seq<byte>)
    ensures Apply(t, OscDispatch([0x38, 0x3b, 0x3b] + link)) == WithBrush(t, Brush(t.pen, link))
  {
    hide Semicolon, Atoi, ScreenFits, ApplyCsi, ApplyEsc, ApplyExecute, PrintRune;
    OscLinkParts(link);
  }

  lemma DoLink(t: T, link: seq<byte>)
    ensures Do(t, LinkPiece(link)) == WithBrush(t, Brush(t.pen, link))
  {
    hide Apply, ApplyAll, ScreenFits;
    ApplyLink(t, link);
    Apply1(t, OscDispatch([0x38, 0x3b, 0x3b] + link));
  }

  /** A receiver as the snapshot's opening leaves it. */
  predicate Plain(d: T) {
    && !d.altActive && d.charsets == ASCII_SETS
    && d.modes.autowrap && !d.modes.insert && !d.modes.origin && !d.modes.lineFeedNewline
    && d.main.top == 0 && d.main.bot == d.h - 1
  }

  /** The cursor where writing n columns of a line leaves it. */
  predicate AtColumn(d: T, n: int) {
    && 0 <= n <= d.w
    && d.main.cur.x == (if n < d.w then n else d.w - 1)
    && d.main.cur.pendingWrap == (n == d.w)
  }

  /** The cursor's line replaced, and the cursor after column n. */
  function Painted(d: T, cells: seq<Cell>, n: int): T
    requires !d.altActive && |cells| == d.w && 0 <= n <= d.w
  {
    SetCur(SetLine(d, cells), if n < d.w then n else d.w - 1, d.main.cur.y, n == d.w)
  }

  // ---------------------------------------------------------------------------
  // One cell
  // ---------------------------------------------------------------------------

  /** The line with a character of the given width stored at column x. */
  function Stored(cells: seq<Cell>, x: int, c: Cell): (r: seq<Cell>)
    requires 0 <= x && 1 <= c.width <= 2 && x + c.width <= |cells|
    ensures |r| == |cells|
  {
    if c.width == 1 then cells[x := c] else cells[x := c][x + 1 := Half(c)]
  }

  /** No half of a wide character from column x on. */
  predicate Fresh(cells: seq<Cell>, x: int) { forall i :: 0 <= x <= i < |cells| ==> cells[i].width == 1 }

  /** The receiver has fresh room for a character of the given width. */
  predicate Room(d: T, width: int) {
    && Plain(d) && !d.main.cur.pendingWrap && 1 <= width <= 2 && 0 <= d.main.cur.x <= d.w - width
    && Fresh(Line(d), d.main.cur.x)
  }

  /** The receiver with cell c written at the cursor, r the last rune printed. */
  function Put(d: T, c: Cell, r: Rune): T
    requires Room(d, c.width)
  {
    Painted(WithLast(d, r), Stored(Line(d), d.main.cur.x, c), d.main.cur.x + c.width)
  }

  lemma PlaceFresh(cells: seq<Cell>, x: int, ch: seq<Rune>, width: int, pen: Style, link: seq<byte>)
    requires 0 <= x < |cells| && 1 <= width <= 2 && x + width <= |cells| && Fresh(cells, x)
    ensures PlaceInLine(cells, x, ch, width, pen, link) == Stored(cells, x, Cell(ch, width, pen, link))
  {
  }

  lemma RoomAlready(d: T, width: int)
    requires Room(d, width)
    ensures TakeWrap(d) == d && MakeRoom(d, width) == d && MoveAside(d, width) == d
  {
    hide WrapToNextLine, SetCur, SetLine, InsertCells, ScreenFits, Fresh;
  }

  lemma LineSet(d: T, cells: seq<Cell>)
    requires |cells| == d.w
    ensures var e := SetLine(d, cells);
      Line(e) == cells && Active(e).cur == Active(d).cur && e.w == d.w && e.h == d.h
      && e.altActive == d.altActive && e.modes == d.modes && e.charsets == d.charsets
      && e.main.top == d.main.top && e.main.bot == d.main.bot
      && e.pen == d.pen && e.link == d.link
  {
  }

  function Glyph(g: Rune): seq<Rune> { if g == 0x20 then [] else [g] }

  lemma PlacePlain(d: T, g: Rune, width: int)
    requires Room(d, width)
    ensures Place(d, g, width) == Put(d, Cell(Glyph(g), width, d.pen, d.link), d.lastPrinted)
  {
    hide PlaceInLine, Stored, SetLine, SetCur, Fresh, ScreenFits;
    var c := Cell(Glyph(g), width, d.pen, d.link);
    PlaceFresh(Line(d), d.main.cur.x, Glyph(g), width, d.pen, d.link);
    LineSet(d, Stored(Line(d), d.main.cur.x, c));
    assert WithLast(d, d.lastPrinted) == d;
  }

  lemma RoomLast(d: T, width: int, r: Rune)
    requires Room(d, width)
    ensures Room(WithLast(d, r), width)
  {
    hide Fresh, ScreenFits;
    assert Line(WithLast(d, r)) == Line(d);
  }

  lemma PutLast(d: T, c: Cell, r: Rune)
    requires Room(d, c.width) && Room(WithLast(d, r), c.width)
    ensures Put(WithLast(d, r), c, r) == Put(d, c, r)
  {
    hide Fresh, ScreenFits, Painted, Stored, Plain;
    assert Line(WithLast(d, r)) == Line(d);
    assert WithLast(WithLast(d, r), r) == WithLast(d, r);
  }

  /** The base rune of a cell, printed on a fresh stretch of a line. */
  lemma PrintBase(d: T, g: Rune)
    requires Room(d, RuneWidth(g))
    ensures PrintRune(d, g) == Put(d, Cell(Glyph(g), RuneWidth(g), d.pen, d.link), g)
  {
    hide Place, TakeWrap, MakeRoom, MoveAside, RuneWidth, Combine, Stored, Painted, ScreenFits, Put, Fresh;
    assert Translate(d.charsets, g) == g;
    var d1 := WithLast(d, g);
    var width := RuneWidth(g);
    RoomLast(d, width, g);
    RoomAlready(d1, width);
    PlacePlain(d1, g, width);
    PutLast(d, Cell(Glyph(g), width, d.pen, d.link), g);
  }

  /** A cell's text after some of its marks have arrived. */
  function Marked(ch: seq<Rune>, marks: seq<Rune>): seq<Rune> {
    if marks == [] then ch else (if ch == [] then [0x20] else ch) + marks
  }

  /** The cell at column x was the last one written. */
  predicate Written(d: T, x: int) {
    && !d.altActive && d.charsets == ASCII_SETS && 0 <= x < d.w
    && var c := Line(d)[x];
    && 1 <= c.width <= 2 && AtColumn(d, x + c.width)
    && (c.width == 2 ==> Line(d)[x + 1].width == 0)
    && (c.ch == [] ==> c.width == 1)
  }

  function WithMarks(d: T, x: int, marks: seq<Rune>): T
    requires 0 <= x < d.w
  {
    SetLine(d, Line(d)[x := Line(d)[x].(ch := Marked(Line(d)[x].ch, marks))])
  }

  /** One mark joins the character just before the cursor. */
  lemma CombineOne(d: T, x: int, m: Rune)
    requires Written(d, x) && RuneWidth(m) == 0
    ensures PrintRune(d, m) == WithMarks(d, x, [m])
  {
    hide Place, TakeWrap, MakeRoom, MoveAside, RuneWidth, SetLine, ScreenFits;
    assert Translate(d.charsets, m) == m;
  }

  lemma MarksMore(d: T, x: int, m: Rune, marks: seq<Rune>)
    requires Written(d, x)
    ensures Written(WithMarks(d, x, [m]), x) && WithMarks(d, x, [m]).w == d.w
    ensures WithMarks(WithMarks(d, x, [m]), x, marks) == WithMarks(d, x, [m] + marks)
  {
    hide SetLine, ScreenFits;
    var ch := Line(d)[x].ch;
    var a := Line(d)[x := Line(d)[x].(ch := Marked(ch, [m]))];
    var b := Line(d)[x := Line(d)[x].(ch := Marked(ch, [m] + marks))];
    LineSet(d, a);
    SetLineTwice(d, a, b);
    assert Marked(Marked(ch, [m]), marks) == Marked(ch, [m] + marks);
    assert a[x := a[x].(ch := Marked(a[x].ch, marks))] == b;
  }

  lemma {:induction false} CombineAll(d: T, x: int, marks: seq<Rune>)
    requires 0 <= x < d.w && Written(d, x) && forall i :: 0 <= i < |marks| ==> RuneWidth(marks[i]) == 0
    ensures ApplyAll(d, Prints(marks)) == WithMarks(d, x, marks)
    decreases |marks|
  {
    hide PrintRune, ApplyAll, RuneWidth, ScreenFits, WithMarks, Written;
    if marks == [] {
      ApplyNothing(d);
      NoMarks(d, x);
      assert Prints(marks) == [];
    } else {
      var m := marks[0];
      CombineOne(d, x, m);
      MarksMore(d, x, m, marks[1..]);
      CombineAll(WithMarks(d, x, [m]), x, marks[1..]);
      PrintsCons(marks);
      ApplyAppend(d, [Print(m)], Prints(marks[1..]));
      Apply1(d, Print(m));
      assert [m] + marks[1..] == marks;
    }
  }

  lemma NoMarks(d: T, x: int)
    requires Written(d, x)
    ensures WithMarks(d, x, []) == d
  {
    hide ScreenFits;
    assert Line(d)[x := Line(d)[x]] == Line(d);
    PaintedSame(d);
  }

  lemma PaintedSame(d: T)
    ensures SetLine(d, Line(d)) == d
  {
    var s := Active(d);
    assert s.rows[s.cur.y := s.rows[s.cur.y].(cells := Line(d))] == s.rows;
  }

  lemma SetLineTwice(d: T, a: seq<Cell>, b: seq<Cell>)
    requires |a| == |b| == d.w
    ensures SetLine(SetLine(d, a), b) == SetLine(d, b)
  {
    var s := Active(d);
    assert s.rows[s.cur.y := s.rows[s.cur.y].(cells := a)][s.cur.y := s.rows[s.cur.y].(cells := b)]
      == s.rows[s.cur.y := s.rows[s.cur.y].(cells := b)];
  }

  lemma PaintedIs(d: T, cells: seq<Cell>, n: int)
    requires !d.altActive && |cells| == d.w && 0 <= n <= d.w
    ensures var e := Painted(d, cells, n);
      && Line(e) == cells && AtColumn(e, n) && e.w == d.w && e.h == d.h
      && e.pen == d.pen && e.link == d.link && (Plain(d) ==> Plain(e))
      && e.main.cur.y == d.main.cur.y && e.altActive == d.altActive && e.charsets == d.charsets
  {
  }

  lemma PaintedLine(d: T, a: seq<Cell>, b: seq<Cell>, n: int)
    requires !d.altActive && |a| == |b| == d.w && 0 <= n <= d.w
    ensures SetLine(Painted(d, a, n), b) == Painted(d, b, n)
  {
    var y := d.main.cur.y;
    assert d.main.rows[y := d.main.rows[y].(cells := a)][y := d.main.rows[y].(cells := b)]
      == d.main.rows[y := d.main.rows[y].(cells := b)];
  }

  /** Marks join the cell that was just put. */
  lemma PutMarks(d: T, c: Cell, r: Rune, marks: seq<Rune>)
    requires Room(d, c.width) && (c.ch == [] ==> c.width == 1)
    ensures Written(Put(d, c, r), d.main.cur.x) && d.main.cur.x < Put(d, c, r).w
    ensures WithMarks(Put(d, c, r), d.main.cur.x, marks) == Put(d, c.(ch := Marked(c.ch, marks)), r)
  {
    hide SetLine, ScreenFits, Painted, Fresh;
    var x := d.main.cur.x;
    var c' := c.(ch := Marked(c.ch, marks));
    var a, b := Stored(Line(d), x, c), Stored(Line(d), x, c');
    var e := WithLast(d, r);
    PaintedIs(e, a, x + c.width);
    PaintedLine(e, a, b, x + c.width);
    assert a[x := a[x].(ch := Marked(a[x].ch, marks))] == b;
  }

  lemma RoomCursor(d: T, width: int)
    requires Room(d, width)
    ensures 0 <= d.main.cur.x < d.w && width >= 1
  {
  }

  lemma BaseWidth(c: Cell)
    requires CellOk(c) && c.width >= 1
    ensures 1 <= c.width <= 2 && RuneWidth(CellText(c)[0]) == c.width
    ensures forall i :: 0 < i < |CellText(c)| ==> RuneWidth(CellText(c)[i]) == 0
    ensures CellText(c)[0] == 0x20 ==> c.width == 1
    ensures Marked(Glyph(CellText(c)[0]), CellText(c)[1..]) == c.ch
  {
    var text := CellText(c);
    assert [text[0]] + text[1..] == text;
    if text[1..] == [] {
      assert text == [text[0]];
    }
  }

  /** A whole character: base and marks. */
  lemma PaintText(d: T, c: Cell)
    requires CellOk(c) && Room(d, c.width)
    ensures Do(d, Text(CellText(c))) == Put(d, Cell(c.ch, c.width, d.pen, d.link), CellText(c)[0])
  {
    hide PrintRune, ApplyAll, RuneWidth, CellOk, ScreenFits, SetLine, SetCur, Painted, Put, WithMarks, Written, Prints, Room;
    var text := CellText(c);
    var g := text[0];
    RoomCursor(d, c.width);
    BaseWidth(c);
    PrintBase(d, g);
    var first := Cell(Glyph(g), c.width, d.pen, d.link);
    PutMarks(d, first, g, text[1..]);
    CombineAll(Put(d, first, g), d.main.cur.x, text[1..]);
    PrintsCons(text);
    ApplyAppend(d, [Print(g)], Prints(text[1..]));
    Apply1(d, Print(g));
  }

  /** Rendition and link before the character. */
  lemma PaintBrush(d: T, c: Cell)
    requires c.width != 0
    ensures Run(d, CellPieces(c, BrushOf(d))) == Do(WithBrush(d, Brush(c.style, c.link)), Text(CellText(c)))
  {
    hide Do, Run, SgrPiece, LinkPiece, ScreenFits;
    var sgr := if c.style != d.pen then [SgrPiece(c.style)] else [];
    var link := if c.link != d.link then [LinkPiece(c.link)] else [];
    var text := [Text(CellText(c))];
    var d1 := WithBrush(d, Brush(c.style, d.link));
    RunAppend(d, sgr + link, text);
    RunAppend(d, sgr, link);
    Run1(d, SgrPiece(c.style));
    DoSgr(d, c.style);
    Run1(d1, LinkPiece(c.link));
    DoLink(d1, c.link);
    Run1(WithBrush(d, Brush(c.style, c.link)), Text(CellText(c)));
  }
}
