/** A receiver to which lines are written holds the end of a tape on its screen and
    the rest in its scrollback, whatever the lines are. */
module Receiving {
  import opened Utf8
  import opened Cells
  import opened Width
  import opened Parser
  import opened Terminal
  import opened Dispatch
  import opened Snapshots
  import opened Content
  import opened Paint
  import opened Typewriter

  /** The receiver `b` with its lines, cursor, brush and last rune replaced. */
  function Frame(b: T, rows: seq<Row>, sb: seq<Row>, cur: Cursor, brush: Brush, r: Rune): Term {
    b.(main := b.main.(rows := rows, scrollback := sb, cur := cur),
       pen := brush.pen, link := brush.link, lastPrinted := r)
  }

  /** How many lines have scrolled off. */
  function Off(t: Tape): (n: nat)
    ensures n <= |t.lines| - 1
  {
    if |t.lines| > t.h then |t.lines| - t.h else 0
  }

  function ScreenRow(t: Tape, y: nat): (row: Row)
    ensures |row.cells| == t.w
  {
    if Off(t) + y < |t.lines| then t.lines[Off(t) + y] else BlankRow(t.w, PLAIN)
  }

  function ScreenOf(t: Tape): (rows: seq<Row>)
    ensures |rows| == t.h && RowsFit(rows, t.w)
    ensures forall y :: 0 <= y < t.h ==>
              rows[y] == if Off(t) + y < |t.lines| then t.lines[Off(t) + y] else BlankRow(t.w, PLAIN)
  {
    seq(t.h, y requires 0 <= y < t.h => ScreenRow(t, y))
  }

  function HistoryOf(t: Tape, max: nat): seq<Row> { PushAll([], t.lines[..Off(t)], max) }

  function CursorOf(t: Tape): Cursor {
    Cursor(if t.col < t.w then t.col else t.w - 1, |t.lines| - 1 - Off(t), t.col == t.w)
  }

  predicate Takes(b: T, t: Tape) { Plain(b) && b.w == t.w && b.h == t.h }

  /** The receiver with the tape. */
  function On(b: T, t: Tape, brush: Brush, r: Rune): (d: T)
    requires Takes(b, t)
  {
    Frame(b, ScreenOf(t), HistoryOf(t, b.maxScrollback), CursorOf(t), brush, r)
  }

  lemma OnIs(b: T, t: Tape, brush: Brush, r: Rune)
    requires Takes(b, t)
    ensures var d := On(b, t, brush, r);
      && Plain(d) && d.w == t.w && d.h == t.h && AtColumn(d, t.col) && BrushOf(d) == brush && Line(d) == Last(t)
      && d.main.cur.y == |t.lines| - 1 - Off(t) && d.main.cur.x == (if t.col < t.w then t.col else t.w - 1)
      && d == Frame(b, ScreenOf(t), HistoryOf(t, b.maxScrollback), CursorOf(t), brush, r)
      && d.modes == b.modes && d.charsets == ASCII_SETS && !d.altActive
  {
    hide ScreenFits, HistoryOf;
  }

  lemma OnBrush(b: T, t: Tape, brush: Brush, r: Rune, brush': Brush)
    requires Takes(b, t)
    ensures WithBrush(On(b, t, brush, r), brush') == On(b, t, brush', r)
  {
    hide ScreenFits, ScreenOf, HistoryOf;
  }

  // ---------------------------------------------------------------------------
  // A new line
  // ---------------------------------------------------------------------------

  /** Carriage return and line feed. */
  function Fed(d: T): T { LineFeed(SetCur(d, 0, Active(d).cur.y, false)) }

  lemma FedMiddle(d: T, b: T, rows: seq<Row>, sb: seq<Row>, cur: Cursor, brush: Brush, r: Rune)
    requires Plain(b) && d == Frame(b, rows, sb, cur, brush, r) && cur.y < b.h - 1
    ensures Fed(d) == Frame(b, rows, sb, Cursor(0, cur.y + 1, false), brush, r)
  {
    hide ScreenFits, Scroll;
  }

  lemma FedBottom(d: T, b: T, rows: seq<Row>, sb: seq<Row>, cur: Cursor, brush: Brush, r: Rune)
    requires Plain(b) && d == Frame(b, rows, sb, cur, brush, r) && cur.y == b.h - 1
    requires |rows| == b.h && RowsFit(rows, b.w)
    ensures Fed(d) == Frame(b, ScrollRows(rows, 0, b.h - 1, 1, b.w, brush.pen), Push(sb, rows[0], b.maxScrollback),
                            Cursor(0, cur.y, false), brush, r)
  {
    hide ScreenFits, ScrollRows, Push, RowsFit;
    var top := rows[..1];
    assert top[0] == rows[0] && top[1..] == [];
    assert PushAll(sb, top, b.maxScrollback) == Push(sb, rows[0], b.maxScrollback);
  }

  lemma ScrolledAt(rows: seq<Row>, w: nat, pen: Style, y: nat)
    requires |rows| > 0 && RowsFit(rows, w) && y < |rows|
    ensures var r := ScrollRows(rows, 0, |rows| - 1, 1, w, pen);
      && r[y].cells == (if y < |rows| - 1 then rows[y + 1].cells else Blanks(w, pen))
      && r[y].wrapped == (y > 0 && y < |rows| - 1 && rows[y + 1].wrapped)
  {
  }

  lemma {:induction false} PushSnoc(sb: seq<Row>, rs: seq<Row>, r: Row, max: nat)
    ensures PushAll(sb, rs + [r], max) == Push(PushAll(sb, rs, max), r, max)
    decreases |rs|
  {
    hide Push;
    if rs == [] {
      assert ([] + [r])[1..] == [];
    } else {
      assert (rs + [r])[1..] == rs[1..] + [r] && (rs + [r])[0] == rs[0];
      PushSnoc(Push(sb, rs[0], max), rs[1..], r, max);
    }
  }

  lemma FeedIs(t: Tape, pen: Style, mark: bool, k: nat)
    requires k <= |t.lines|
    ensures var u := NewLine(t, pen, mark); var n := |t.lines|;
      && |u.lines| == n + 1 && u.col == 0 && u.w == t.w && u.h == t.h
      && (k == n ==> u.lines[k] == Row(Blanks(t.w, if n < t.h then PLAIN else pen), mark))
      && (k < n ==> u.lines[k].cells == t.lines[k].cells
                    && u.lines[k].wrapped == (t.lines[k].wrapped && (t.h == 1 || k != n + 1 - t.h)))
  {
    hide Risen;
    if k < |t.lines| {
      RisenIs(t.lines, t.h, k);
    }
  }

  lemma TapeShape(t: Tape)
    ensures t.w >= 2 && t.h >= 1 && |t.lines| > 0 && !t.lines[0].wrapped && 0 <= t.col <= t.w
    ensures forall k :: 0 <= k < |t.lines| ==> |t.lines[k].cells| == t.w
  {
  }

  /** Below the last line there is room: the screen gets the line, nothing scrolls. */
  lemma FeedMiddle(t: Tape, pen: Style)
    requires |t.lines| < t.h
    ensures var u := NewLine(t, pen, false); Off(u) == Off(t) == 0 && ScreenOf(u) == ScreenOf(t)
  {
    hide Sound, NewLine, ScreenOf;
    var u := NewLine(t, pen, false);
    TapeShape(t);
    FeedIs(t, pen, false, 0);
    var got, want := ScreenOf(u), ScreenOf(t);
    forall y | 0 <= y < t.h ensures got[y] == want[y] {
      if y <= |t.lines| {
        FeedIs(t, pen, false, y);
      }
      if y == 0 {
        assert !t.lines[0].wrapped;
      }
    }
    assert got == want;
  }

  lemma FeedBottom(t: Tape, pen: Style)
    requires |t.lines| >= t.h
    ensures var u := NewLine(t, pen, false);
      && Off(u) == Off(t) + 1 && ScreenOf(u) == ScrollRows(ScreenOf(t), 0, t.h - 1, 1, t.w, pen)
  {
    hide Sound, NewLine, ScreenOf, ScrollRows, RowsFit;
    var u := NewLine(t, pen, false);
    var rows, off := ScreenOf(t), Off(t);
    TapeShape(t);
    FeedIs(t, pen, false, 0);
    var got, want := ScreenOf(u), ScrollRows(rows, 0, t.h - 1, 1, t.w, pen);
    forall y | 0 <= y < t.h ensures got[y] == want[y] {
      FeedIs(t, pen, false, off + 1 + y);
      ScrolledAt(rows, t.w, pen, y);
      if y + 1 < t.h {
        assert rows[y + 1] == t.lines[off + (y + 1)];
      }
    }
    assert got == want;
  }

  lemma FeedHistory(t: Tape, pen: Style, max: nat)
    requires |t.lines| >= t.h
    ensures HistoryOf(NewLine(t, pen, false), max) == Push(HistoryOf(t, max), ScreenOf(t)[0], max)
  {
    hide Sound, NewLine, Push;
    var u := NewLine(t, pen, false);
    var off := Off(t);
    TapeShape(t);
    FeedIs(t, pen, false, 0);
    var got, want := u.lines[..off + 1], t.lines[..off] + [t.lines[off]];
    forall k | 0 <= k <= off ensures got[k] == want[k] {
      FeedIs(t, pen, false, k);
    }
    assert got == want;
    PushSnoc([], t.lines[..off], t.lines[off], max);
  }

  /** A line feed from the left margin. */
  lemma OnFeed(b: T, t: Tape, brush: Brush, r: Rune)
    requires Takes(b, t)
    ensures var u := NewLine(t, brush.pen, false); Takes(b, u) && Fed(On(b, t, brush, r)) == On(b, u, brush, r)
  {
    hide ScreenFits, Sound, NewLine, ScreenOf, HistoryOf, Fed, ScrollRows, Push, Plain;
    var u := NewLine(t, brush.pen, false);
    var d := On(b, t, brush, r);
    FeedIs(t, brush.pen, false, 0);
    OnIs(b, t, brush, r);
    if |t.lines| < t.h {
      FeedMiddle(t, brush.pen);
      FedMiddle(d, b, ScreenOf(t), HistoryOf(t, b.maxScrollback), CursorOf(t), brush, r);
      NoHistory(t, b.maxScrollback);
      NoHistory(u, b.maxScrollback);
    } else {
      FeedBottom(t, brush.pen);
      FeedHistory(t, brush.pen, b.maxScrollback);
      FedBottom(d, b, ScreenOf(t), HistoryOf(t, b.maxScrollback), CursorOf(t), brush, r);
    }
  }

  lemma NoHistory(t: Tape, max: nat)
    requires Off(t) == 0
    ensures HistoryOf(t, max) == []
  {
  }

  lemma WrapIsFed(d: T)
    requires !d.altActive
    ensures var t1 := Fed(d); var y := t1.main.cur.y;
      && !t1.altActive && 0 <= y < |t1.main.rows|
      && WrapToNextLine(d) == t1.(main := t1.main.(rows := t1.main.rows[y := t1.main.rows[y].(wrapped := true)]))
  {
    hide Scroll, RowsFit;
    FedMain(d);
  }

  lemma FedMain(d: T)
    requires !d.altActive
    ensures !Fed(d).altActive && 0 <= Fed(d).main.cur.y < |Fed(d).main.rows|
  {
    hide RowsFit, ScrollRows, PushAll;
  }

  /** A wrap is a line feed after which the new line continues the last one. */
  lemma OnWrap(b: T, t: Tape, brush: Brush, r: Rune)
    requires Takes(b, t)
    ensures var u := NewLine(t, brush.pen, true); Takes(b, u) && WrapToNextLine(On(b, t, brush, r)) == On(b, u, brush, r)
  {
    hide ScreenFits, Sound, NewLine, HistoryOf, Fed, Plain, ScreenOf, WrapToNextLine;
    var u, v := NewLine(t, brush.pen, false), NewLine(t, brush.pen, true);
    var d := On(b, t, brush, r);
    OnIs(b, t, brush, r);
    OnFeed(b, t, brush, r);
    WrapIsFed(d);
    FeedIs(t, brush.pen, true, 0);
    FeedIs(t, brush.pen, false, 0);
    MarkLast(t, brush.pen);
    MarkHistory(t, brush.pen, b.maxScrollback);
  }

  lemma MarkLast(t: Tape, pen: Style)
    ensures var u, v := NewLine(t, pen, false), NewLine(t, pen, true); var y := |t.lines| - Off(u);
      && 0 <= y < t.h && Off(v) == Off(u) && ScreenOf(v) == ScreenOf(u)[y := ScreenOf(u)[y].(wrapped := true)]
  {
    hide Sound, NewLine, ScreenOf;
    var u, v := NewLine(t, pen, false), NewLine(t, pen, true);
    TapeShape(t);
    FeedIs(t, pen, true, 0);
    FeedIs(t, pen, false, 0);
    var y := |t.lines| - Off(u);
    var got, want := ScreenOf(v), ScreenOf(u)[y := ScreenOf(u)[y].(wrapped := true)];
    forall i | 0 <= i < t.h ensures got[i] == want[i] {
      if Off(u) + i <= |t.lines| {
        FeedIs(t, pen, true, Off(u) + i);
        FeedIs(t, pen, false, Off(u) + i);
      }
    }
    assert got == want;
  }

  lemma MarkHistory(t: Tape, pen: Style, max: nat)
    ensures HistoryOf(NewLine(t, pen, true), max) == HistoryOf(NewLine(t, pen, false), max)
  {
    hide Sound, NewLine, PushAll;
    var u, v := NewLine(t, pen, false), NewLine(t, pen, true);
    FeedIs(t, pen, true, 0);
    FeedIs(t, pen, false, 0);
    var got, want := v.lines[..Off(v)], u.lines[..Off(u)];
    forall k | 0 <= k < Off(u) ensures got[k] == want[k] {
      FeedIs(t, pen, true, k);
      FeedIs(t, pen, false, k);
    }
    assert got == want;
  }

  // ---------------------------------------------------------------------------
  // One cell
  // ---------------------------------------------------------------------------

  lemma PutFrame(d: T, b: T, rows: seq<Row>, sb: seq<Row>, cur: Cursor, brush: Brush, r: Rune, c: Cell, r': Rune)
    requires !b.altActive && d == Frame(b, rows, sb, cur, brush, r) && Room(d, c.width) && 0 <= cur.y < |rows|
    ensures var x := cur.x + c.width; var cells := Stored(rows[cur.y].cells, cur.x, c);
      && Put(d, c, r') == Frame(b, rows[cur.y := rows[cur.y].(cells := cells)], sb,
                                Cursor(if x < b.w then x else b.w - 1, cur.y, x == b.w), brush, r')
  {
    hide ScreenFits, Stored, Fresh;
  }

  lemma OnRoom(b: T, t: Tape, brush: Brush, r: Rune, width: int)
    requires Takes(b, t) && 1 <= width <= 2 && t.col + width <= t.w
    ensures Room(On(b, t, brush, r), width)
  {
    hide ScreenFits, Plain, On;
    OnIs(b, t, brush, r);
  }

  lemma StrikeScreen(t: Tape, c: Cell)
    requires 1 <= c.width <= 2 && t.col + c.width <= t.w
    ensures var u := Strike(t, c); var y := |t.lines| - 1 - Off(t);
      && 0 <= y < t.h && Off(u) == Off(t) && u.w == t.w && u.h == t.h
      && ScreenOf(u) == ScreenOf(t)[y := ScreenOf(t)[y].(cells := Stored(Last(t), t.col, c))]
      && ScreenOf(t)[y].cells == Last(t)
      && u.lines[..Off(u)] == t.lines[..Off(t)]
  {
    hide Stored, Sound, ScreenOf;
    TapeShape(t);
    var u := Strike(t, c);
    var y := |t.lines| - 1 - Off(t);
    var got, want := ScreenOf(u), ScreenOf(t)[y := ScreenOf(t)[y].(cells := Stored(Last(t), t.col, c))];
    forall i | 0 <= i < t.h ensures got[i] == want[i] {
    }
    assert got == want;
  }

  /** A character with room for it. */
  lemma OnStrike(b: T, t: Tape, brush: Brush, r: Rune, c: Cell, r': Rune)
    requires Takes(b, t) && 1 <= c.width <= 2 && t.col + c.width <= t.w
    ensures Room(On(b, t, brush, r), c.width) && Takes(b, Strike(t, c))
    ensures Put(On(b, t, brush, r), c, r') == On(b, Strike(t, c), brush, r')
  {
    hide ScreenFits, Plain, Stored, Room, Put, ScreenOf, HistoryOf, Sound;
    var d := On(b, t, brush, r);
    OnRoom(b, t, brush, r, c.width);
    OnIs(b, t, brush, r);
    StrikeScreen(t, c);
    TapeShape(t);
    PlainMain(b);
    SameHistory(t, Strike(t, c), b.maxScrollback);
    PutFrame(d, b, ScreenOf(t), HistoryOf(t, b.maxScrollback), CursorOf(t), brush, r, c, r');
  }

  lemma SameHistory(t: Tape, u: Tape, max: nat)
    requires u.lines[..Off(u)] == t.lines[..Off(t)]
    ensures HistoryOf(u, max) == HistoryOf(t, max)
  {
  }

  lemma PlainMain(b: T)
    requires Plain(b)
    ensures !b.altActive && b.modes.autowrap && b.charsets == ASCII_SETS && !b.modes.lineFeedNewline
  {
  }

  // ---------------------------------------------------------------------------
  // A wrap takes effect with the next character
  // ---------------------------------------------------------------------------

  lemma WrapLast(d: T, g: Rune)
    ensures WrapToNextLine(WithLast(d, g)) == WithLast(WrapToNextLine(d), g)
  {
    hide ScreenFits, RowsFit, ScrollRows, PushAll;
  }

  lemma WrapKeeps(d: T)
    ensures var e := WrapToNextLine(d);
      !Active(e).cur.pendingWrap && e.charsets == d.charsets && e.w == d.w && Active(e).cur.x == 0
  {
    hide ScreenFits, RowsFit, ScrollRows, PushAll;
  }

  lemma WrapPrint(d: T, g: Rune)
    requires Active(d).cur.pendingWrap && d.modes.autowrap && RuneWidth(g) != 0 && d.charsets == ASCII_SETS
    ensures PrintRune(d, g) == PrintRune(WrapToNextLine(d), g)
  {
    hide ScreenFits, WrapToNextLine, MakeRoom, MoveAside, Place, RuneWidth, Combine;
    WrapLast(d, g);
    WrapKeeps(d);
    assert Translate(d.charsets, g) == g;
    assert TakeWrap(WithLast(d, g)) == WrapToNextLine(WithLast(d, g));
    assert TakeWrap(WithLast(WrapToNextLine(d), g)) == WithLast(WrapToNextLine(d), g);
  }

  /** The last column blanked under the pen. */
  function LastBlanked(d: T): T { SetLine(d, Line(d)[d.w - 1 := Blank(d.pen)]) }

  lemma BlankedLast(d: T, g: Rune)
    ensures LastBlanked(WithLast(d, g)) == WithLast(LastBlanked(d), g)
    ensures var e := LastBlanked(d); e.charsets == d.charsets && e.w == d.w && e.modes == d.modes && Active(e).cur == Active(d).cur
  {
    hide ScreenFits, RowsFit;
  }

  /** A wide character in the last column. */
  lemma GapPrint(d: T, g: Rune)
    requires !Active(d).cur.pendingWrap && Active(d).cur.x == d.w - 1 && d.modes.autowrap && RuneWidth(g) == 2 && d.charsets == ASCII_SETS
    ensures PrintRune(d, g) == PrintRune(WrapToNextLine(LastBlanked(d)), g)
  {
    hide ScreenFits, WrapToNextLine, MoveAside, Place, RuneWidth, Combine, SetLine, LastBlanked;
    var e := LastBlanked(d);
    BlankedLast(d, g);
    WrapLast(e, g);
    WrapKeeps(e);
    assert Translate(d.charsets, g) == g;
    assert TakeWrap(WithLast(d, g)) == WithLast(d, g);
    assert TakeWrap(WithLast(WrapToNextLine(e), g)) == WithLast(WrapToNextLine(e), g);
    RoomGap(WithLast(d, g));
    RoomLeft(WithLast(WrapToNextLine(e), g));
  }

  lemma RoomGap(d: T)
    requires !Active(d).cur.pendingWrap && Active(d).cur.x == d.w - 1 && d.modes.autowrap
    ensures MakeRoom(d, 2) == WrapToNextLine(LastBlanked(d))
  {
    hide ScreenFits, WrapToNextLine, SetLine;
  }

  lemma RoomLeft(d: T)
    requires !Active(d).cur.pendingWrap && Active(d).cur.x == 0
    ensures MakeRoom(d, 2) == d
  {
    hide RowsFit;
  }

  lemma TextHead(c: Cell)
    ensures CellText(c) != []
    ensures CellOk(c) && c.width != 0 ==> c.width >= 1
  {
  }

  lemma TextFrom(d: T, e: T, c: Cell)
    requires PrintRune(d, CellText(c)[0]) == PrintRune(e, CellText(c)[0])
    ensures Do(d, Text(CellText(c))) == Do(e, Text(CellText(c)))
  {
    hide PrintRune, CellText, ScreenFits;
    TextHead(c);
    PrintsCons(CellText(c));
  }

  lemma WrapText(d: T, c: Cell)
    requires CellOk(c) && c.width != 0
    requires Active(d).cur.pendingWrap && d.modes.autowrap && d.charsets == ASCII_SETS
    ensures Do(d, Text(CellText(c))) == Do(WrapToNextLine(d), Text(CellText(c)))
  {
    hide PrintRune, WrapToNextLine, ScreenFits, RuneWidth, CellOk, CellText, Do;
    TextHead(c);
    BaseWidth(c);
    WrapPrint(d, CellText(c)[0]);
    TextFrom(d, WrapToNextLine(d), c);
  }

  lemma GapText(d: T, c: Cell)
    requires CellOk(c) && c.width == 2
    requires !Active(d).cur.pendingWrap && Active(d).cur.x == d.w - 1 && d.modes.autowrap && d.charsets == ASCII_SETS
    ensures Do(d, Text(CellText(c))) == Do(WrapToNextLine(LastBlanked(d)), Text(CellText(c)))
  {
    hide PrintRune, WrapToNextLine, ScreenFits, RuneWidth, CellOk, CellText, LastBlanked, Do;
    TextHead(c);
    BaseWidth(c);
    GapPrint(d, CellText(c)[0]);
    TextFrom(d, WrapToNextLine(LastBlanked(d)), c);
  }

  /** The blanked last column, as on the tape, but for the pending wrap. */
  lemma OnBlanked(b: T, t: Tape, brush: Brush, r: Rune)
    requires Takes(b, t) && t.col == t.w - 1
    ensures var d := LastBlanked(On(b, t, brush, r)); var e := On(b, Gapped(t, brush.pen), brush, r);
      Takes(b, Gapped(t, brush.pen)) && d == AtCur(e, d.main.cur) && d.main.cur.y == e.main.cur.y
  {
    hide ScreenFits, Plain, Room, Put, ScreenOf, HistoryOf, Sound;
    var d := On(b, t, brush, r);
    OnIs(b, t, brush, r);
    OnStrike(b, t, brush, r, Blank(brush.pen), r);
    GapPut(d, r);
  }

  /** The receiver with its cursor elsewhere. */
  function AtCur(d: T, cur: Cursor): Term { d.(main := d.main.(cur := cur)) }

  lemma GapPut(d: T, r: Rune)
    requires Room(d, 1) && d.main.cur.x == d.w - 1 && d.lastPrinted == r
    ensures var e := LastBlanked(d); var p := Put(d, Blank(d.pen), r); e == AtCur(p, e.main.cur) && e.main.cur.y == p.main.cur.y
  {
    hide ScreenFits, Fresh, RowsFit;
  }

  lemma WrapAnywhere(d: T, e: T)
    requires !e.altActive && d == AtCur(e, d.main.cur) && d.main.cur.y == e.main.cur.y
    ensures WrapToNextLine(d) == WrapToNextLine(e)
  {
    hide RowsFit, LineFeed;
  }

  /** The text of a cell that does not fit goes to the next line. */
  lemma OnWrapText(b: T, t: Tape, brush: Brush, r: Rune, c: Cell)
    requires Takes(b, t) && CellOk(c) && 1 <= c.width <= 2 && t.col + c.width > t.w
    ensures var u := Wrapped(t, brush.pen);
      Takes(b, u) && Do(On(b, t, brush, r), Text(CellText(c))) == Do(On(b, u, brush, r), Text(CellText(c)))
  {
    hide ScreenFits, Plain, Do, On, WrapToNextLine, CellOk, Gapped, NewLine, LastBlanked, CellText;
    OnIs(b, t, brush, r);
    PlainMain(b);
    var d := On(b, t, brush, r);
    if t.col == t.w {
      GappedFull(t, brush.pen);
      WrapText(d, c);
      OnWrap(b, t, brush, r);
    } else {
      GapText(d, c);
      OnBlanked(b, t, brush, r);
      var t1 := Gapped(t, brush.pen);
      OnIs(b, t1, brush, r);
      WrapAnywhere(LastBlanked(d), On(b, t1, brush, r));
      OnWrap(b, t1, brush, r);
    }
  }

  lemma GappedFull(t: Tape, st: Style)
    requires t.col == t.w
    ensures Gapped(t, st) == t
  {
    hide Sound;
  }

  /** One cell, whether or not there is room for it. */
  lemma OnCell(b: T, t: Tape, brush: Brush, r: Rune, c: Cell)
    requires Takes(b, t) && CellOk(c) && 1 <= c.width <= 2
    ensures Takes(b, Type(t, c))
    ensures Run(On(b, t, brush, r), CellPieces(c, brush)) == On(b, Type(t, c), Brush(c.style, c.link), CellText(c)[0])
  {
    hide ScreenFits, Plain, Do, Run, On, CellPieces, CellOk, Wrapped, Strike, CellText, Put, Sound;
    var d, b1 := On(b, t, brush, r), Brush(c.style, c.link);
    OnIs(b, t, brush, r);
    PaintBrush(d, c);
    OnBrush(b, t, brush, r, b1);
    if t.col + c.width <= t.w {
      OnText(b, t, b1, r, c);
    } else {
      OnWrapText(b, t, b1, r, c);
      WrappedRoom(t, c.style);
      OnText(b, Wrapped(t, c.style), b1, r, c);
    }
  }

  lemma WrappedRoom(t: Tape, st: Style)
    ensures Wrapped(t, st).col == 0 && Wrapped(t, st).w == t.w >= 2
  {
    hide Wrapped;
    TapeShape(t);
  }

  lemma OnText(b: T, t: Tape, brush: Brush, r: Rune, c: Cell)
    requires Takes(b, t) && CellOk(c) && 1 <= c.width <= 2 && t.col + c.width <= t.w && brush == Brush(c.style, c.link)
    ensures Takes(b, Strike(t, c)) && Do(On(b, t, brush, r), Text(CellText(c))) == On(b, Strike(t, c), brush, CellText(c)[0])
  {
    hide ScreenFits, Plain, Do, On, CellOk, Strike, CellText, Put, Sound, Room;
    TextHead(c);
    OnIs(b, t, brush, r);
    OnStrike(b, t, brush, r, c, CellText(c)[0]);
    PaintText(On(b, t, brush, r), c);
  }

  // ---------------------------------------------------------------------------
  // Lines
  // ---------------------------------------------------------------------------

  lemma {:induction false} OnRow(b: T, t: Tape, brush: Brush, r: Rune, cells: seq<Cell>) returns (r': Rune)
    requires Takes(b, t) && CellsOk(cells)
    ensures Takes(b, TypeAll(t, cells))
    ensures Run(On(b, t, brush, r), RowPieces(cells, brush)) == On(b, TypeAll(t, cells), DipAll(brush, cells), r')
    decreases |cells|
  {
    hide ScreenFits, Plain, Do, Run, On, CellPieces, CellOk, Type, Sound;
    if cells == [] {
      r' := r;
      Run1(On(b, t, brush, r), RESET);
    } else {
      var c := cells[0];
      assert CellOk(c);
      CellWidth(c);
      if c.width == 0 {
        HalfSilent(c, brush);
        assert [] + RowPieces(cells[1..], brush) == RowPieces(cells[1..], brush);
        r' := OnRow(b, t, brush, r, cells[1..]);
      } else {
        OnCell(b, t, brush, r, c);
        RunAppend(On(b, t, brush, r), CellPieces(c, brush), RowPieces(cells[1..], Dip(brush, c)));
        r' := OnRow(b, Type(t, c), Brush(c.style, c.link), CellText(c)[0], cells[1..]);
      }
    }
  }

  lemma HalfSilent(c: Cell, brush: Brush)
    requires c.width == 0
    ensures CellPieces(c, brush) == [] && Dip(brush, c) == brush
  {
  }

  lemma DoControl(d: T, c: byte)
    ensures Do(d, Control(c)) == ApplyExecute(d, c)
  {
    hide ApplyExecute, PrintRune, ApplyEsc, ApplyCsi, ApplyOsc, ApplyAll, ScreenFits;
    Apply1(d, Execute(c));
  }

  /** Carriage return, line feed. */
  lemma DoNewline(d: T)
    requires !d.modes.lineFeedNewline && !d.altActive
    ensures Run(d, NEWLINE) == Fed(d)
  {
    hide Do, LineFeed, RowsFit;
    var d1 := SetCur(d, 0, Active(d).cur.y, false);
    DoControl(d, 0x0d);
    DoControl(d1, 0x0a);
    FeedModes(d1);
    assert NEWLINE[1..] == [Control(0x0a)];
    Run1(d1, Control(0x0a));
  }

  lemma FeedModes(d: T)
    ensures LineFeed(d).modes == d.modes
  {
    hide ScreenFits, ScrollRows, PushAll;
  }

  lemma OnBreak(b: T, t: Tape, brush: Brush, r: Rune)
    requires Takes(b, t)
    ensures Takes(b, NewLine(t, brush.pen, false)) && Run(On(b, t, brush, r), NEWLINE) == On(b, NewLine(t, brush.pen, false), brush, r)
  {
    hide ScreenFits, Plain, Run, On, NewLine, Fed;
    OnIs(b, t, brush, r);
    PlainMain(b);
    DoNewline(On(b, t, brush, r));
    OnFeed(b, t, brush, r);
  }

  /** One line and the break after it. */
  lemma OnLine(b: T, t: Tape, r: Rune, lines: seq<Row>, k: nat) returns (r': Rune)
    requires Takes(b, t) && AllCellsOk(lines) && k < |lines|
    ensures Takes(b, Typed(t, lines, k))
    ensures Run(On(b, t, BrushAt(lines, k), r), RowPieces(Emitted(lines, k), BrushAt(lines, k)) + Break(lines, k))
      == On(b, Typed(t, lines, k), BrushAt(lines, k + 1), r')
  {
    hide ScreenFits, Plain, Do, Run, On, RowPieces, CellsOk, Emitted, NewLine, TypeAll, DipAll, AllCellsOk;
    var brush, cells := BrushAt(lines, k), Emitted(lines, k);
    EmittedCellsOk(lines, k);
    r' := OnRow(b, t, brush, r, cells);
    var t1 := TypeAll(t, cells);
    RunAppend(On(b, t, brush, r), RowPieces(cells, brush), Break(lines, k));
    Run1(On(b, t1, BrushAt(lines, k + 1), r'), RESET);
    OnBreak(b, t1, BrushAt(lines, k + 1), r');
  }

  lemma LinesBrushAt(lines: seq<Row>, k: nat)
    requires k < |lines|
    ensures LinesBrush(lines, k, BrushAt(lines, k)) == LinesBrush(lines, k + 1, BrushAt(lines, k + 1))
    ensures LinesPieces(lines, k, BrushAt(lines, k))
      == (RowPieces(Emitted(lines, k), BrushAt(lines, k)) + Break(lines, k)) + LinesPieces(lines, k + 1, BrushAt(lines, k + 1))
  {
    hide Emitted, DipAll, RowPieces, Break;
  }

  /** Lines k and on. */
  lemma {:induction false} OnLines(b: T, start: Tape, r: Rune, lines: seq<Row>, k: nat) returns (r': Rune)
    requires Takes(b, start) && AllCellsOk(lines) && k <= |lines|
    ensures Takes(b, TapeAt(start, lines, k)) && Takes(b, TapeAt(start, lines, |lines|))
    ensures LinesBrush(lines, k, BrushAt(lines, k)) == BrushAt(lines, |lines|)
    ensures Run(On(b, TapeAt(start, lines, k), BrushAt(lines, k), r), LinesPieces(lines, k, BrushAt(lines, k)))
      == On(b, TapeAt(start, lines, |lines|), BrushAt(lines, |lines|), r')
    decreases |lines| - k
  {
    hide ScreenFits, Plain, Do, Run, On, RowPieces, Emitted, Typed, BrushAt, Break, AllCellsOk;
    var t := TapeAt(start, lines, k);
    if k == |lines| {
      r' := r;
      Run1(On(b, t, BrushAt(lines, k), r), RESET);
    } else {
      var r1 := OnLine(b, t, r, lines, k);
      LinesBrushAt(lines, k);
      RunAppend(On(b, t, BrushAt(lines, k), r), RowPieces(Emitted(lines, k), BrushAt(lines, k)) + Break(lines, k),
                LinesPieces(lines, k + 1, BrushAt(lines, k + 1)));
      r' := OnLines(b, start, r1, lines, k + 1);
    }
  }
}
