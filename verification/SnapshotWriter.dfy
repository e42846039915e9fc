/** The snapshot written: loops over the rows in place, a string that grows, and
    the pen and link the rows share. */
module SnapshotWriter {
  import opened Utf8
  import opened Cells
  import opened Terminal
  import opened Snapshots
  import Buffers = ScreenBuffer
  import ScreenMachine

  class Writer {
    var out: seq<byte>
    var pen: Style
    var link: seq<byte>

    constructor ()
      ensures out == [] && Ink() == DRY
    {
      out, pen, link := [], PLAIN, [];
    }

    function Ink(): Brush
      reads this
    {
      Brush(pen, link)
    }

    method Put(p: Piece)
      modifies this`out
      ensures out == old(out) + PieceBytes(p)
    {
      out := out + PieceBytes(p);
    }

    method PutWhen(b: bool, p: Piece)
      modifies this`out
      ensures out == old(out) + Bytes(When(b, p))
    {
      if b {
        Put(p);
        BytesOne(p);
      }
    }

    /** writeRow. */
    method WriteRow(cells: array<Cell>, full: bool)
      modifies this
      ensures var e := if full then cells[..] else cells[..][..LastVisible(cells[..])];
        out == old(out) + Bytes(RowPieces(e, old(Ink()))) && Ink() == DipAll(old(Ink()), e)
    {
      hide LastVisible, Bytes, RowPieces, DipAll, CellPieces, Dip;
      Buffers.VisibleFits(cells[..]);
      var n := Buffers.CountVisible(cells);
      if full {
        n := cells.Length;
      }
      ghost var e, ink, start := cells[..][..n], Ink(), out;
      assert e[0..] == e && (full ==> e == cells[..]);
      for x := 0 to n
        invariant out + Bytes(RowPieces(e[x..], Ink())) == start + Bytes(RowPieces(e, ink))
        invariant DipAll(Ink(), e[x..]) == DipAll(ink, e)
      {
        RowMore(e, x, Ink());
        Regroup(out, Bytes(CellPieces(e[x], Ink())), Bytes(RowPieces(e[x + 1..], Dip(Ink(), e[x]))));
        WriteCell(cells[x]);
      }
      RowNothing(e, Ink());
    }

    method WriteCell(c: Cell)
      modifies this
      ensures out == old(out) + Bytes(CellPieces(c, old(Ink()))) && Ink() == Dip(old(Ink()), c)
    {
      hide Bytes, CellPieces, PieceBytes, SgrPiece, LinkPiece, CellText;
      CellBytes(c, Ink());
      if c.width == 0 {
        return;
      }
      PutWhen(c.style != pen, SgrPiece(c.style));
      PutWhen(c.link != link, LinkPiece(c.link));
      Put(Text(CellText(c)));
      pen, link := c.style, c.link;
    }
  }

  /** One line and, unless the next one continues it, a line break. */
  method WriteLine(w: Writer, l: Buffers.Line, next: bool, more: bool, ghost lines: seq<Row>, ghost k: nat)
    requires k < |lines| && lines[k].cells == l.cells[..] && more == (k + 1 < |lines|)
    requires next == (k + 1 < |lines| && lines[k + 1].wrapped)
    modifies w
    ensures w.out + Bytes(LinesPieces(lines, k + 1, w.Ink())) == old(w.out) + Bytes(LinesPieces(lines, k, old(w.Ink())))
    ensures LinesBrush(lines, k + 1, w.Ink()) == LinesBrush(lines, k, old(w.Ink()))
  {
    hide Bytes, RowPieces, DipAll, LastVisible, LinesPieces, LinesBrush;
    LinesMore(lines, k, w.Ink());
    ghost var before, rest := w.out, Bytes(LinesPieces(lines, k + 1, DipAll(w.Ink(), Emitted(lines, k))));
    ghost var row := Bytes(RowPieces(Emitted(lines, k), w.Ink()));
    w.WriteRow(l.cells, next);
    Regroup(before, row, Bytes(Break(lines, k)));
    Regroup(before, row + Bytes(Break(lines, k)), rest);
    NewlineBytes();
    if more && !next {
      w.out := w.out + [0x0d, 0x0a];
    }
  }

  lemma NewlineBytes()
    ensures Bytes(NEWLINE) == [0x0d, 0x0a] && Bytes([]) == []
  {
    assert NEWLINE[1..] == [Control(0x0a)];
    BytesOne(Control(0x0a));
  }

  lemma LinesMore(lines: seq<Row>, k: nat, ink: Brush)
    requires k < |lines|
    ensures var ink' := DipAll(ink, Emitted(lines, k));
      && Bytes(LinesPieces(lines, k, ink)) == Bytes(RowPieces(Emitted(lines, k), ink)) + Bytes(Break(lines, k)) + Bytes(LinesPieces(lines, k + 1, ink'))
      && LinesBrush(lines, k, ink) == LinesBrush(lines, k + 1, ink')
  {
    hide Bytes, RowPieces, DipAll, Emitted, Break;
    BytesAppend(RowPieces(Emitted(lines, k), ink) + Break(lines, k), LinesPieces(lines, k + 1, DipAll(ink, Emitted(lines, k))));
    BytesAppend(RowPieces(Emitted(lines, k), ink), Break(lines, k));
  }

  /** The scrollback's lines, which the screen's follow. */
  method WriteStored(w: Writer, b: Buffers.Buffer, ghost lines: seq<Row>)
    requires b.rows.Length >= 1 && lines == b.History() + b.Rows()
    modifies w
    ensures |b.History()| == |b.scrollback|
    ensures w.out + Bytes(LinesPieces(lines, |b.scrollback|, w.Ink())) == old(w.out) + Bytes(LinesPieces(lines, 0, old(w.Ink())))
    ensures LinesBrush(lines, |b.scrollback|, w.Ink()) == LinesBrush(lines, 0, old(w.Ink()))
  {
    hide Bytes, LinesPieces, LinesBrush, Buffers.Shown;
    ghost var start, ink := w.out, w.Ink();
    LinesShown(b);
    for i := 0 to |b.scrollback|
      invariant w.out + Bytes(LinesPieces(lines, i, w.Ink())) == start + Bytes(LinesPieces(lines, 0, ink))
      invariant LinesBrush(lines, i, w.Ink()) == LinesBrush(lines, 0, ink)
    {
      var next := if i + 1 < |b.scrollback| then b.scrollback[i + 1].wrapped else b.rows[0].wrapped;
      WriteLine(w, b.scrollback[i], next, true, lines, i);
    }
  }

  /** The screen's lines, the last of all. */
  method WriteShown(w: Writer, b: Buffers.Buffer, ghost lines: seq<Row>, ghost n: nat)
    requires |b.Rows()| == b.rows.Length && n + b.rows.Length == |lines| && lines[n..] == b.Rows()
    modifies w
    ensures w.out == old(w.out) + Bytes(LinesPieces(lines, n, old(w.Ink())))
    ensures w.Ink() == LinesBrush(lines, n, old(w.Ink()))
  {
    hide Bytes, LinesPieces, LinesBrush, Buffers.Shown;
    ghost var start, ink := w.out, w.Ink();
    LinesShown(b);
    assert forall y :: 0 <= y < b.rows.Length ==> lines[n + y] == lines[n..][y];
    var h := b.rows.Length;
    for y := 0 to h
      invariant w.out + Bytes(LinesPieces(lines, n + y, w.Ink())) == start + Bytes(LinesPieces(lines, n, ink))
      invariant LinesBrush(lines, n + y, w.Ink()) == LinesBrush(lines, n, ink)
    {
      var next := y + 1 < h && b.rows[y + 1].wrapped;
      WriteLine(w, b.rows[y], next, y + 1 < h, lines, n + y);
    }
    LinesDone(lines, w.Ink());
  }

  /** The lines of a screen, its scrollback first when asked. */
  method WriteLines(w: Writer, b: Buffers.Buffer, withScrollback: bool, ghost lines: seq<Row>)
    requires b.rows.Length >= 1 && lines == if withScrollback then b.History() + b.Rows() else b.Rows()
    modifies w
    ensures w.out == old(w.out) + Bytes(LinesPieces(lines, 0, DRY))
    ensures w.Ink() == LinesBrush(lines, 0, DRY)
  {
    hide Bytes, LinesPieces, LinesBrush, Buffers.Shown;
    LinesShown(b);
    w.pen, w.link := PLAIN, [];
    if withScrollback {
      WriteStored(w, b, lines);
      LinesShown(b);
      WriteShown(w, b, lines, |b.scrollback|);
    } else {
      WriteShown(w, b, lines, 0);
    }
  }

  /** Pieces in order. */
  method PutAll(w: Writer, ps: seq<Piece>)
    modifies w`out
    ensures w.out == old(w.out) + Bytes(ps)
  {
    hide PieceBytes, Bytes;
    ghost var start := w.out;
    BytesNil();
    assert ps[0..] == ps && ps[|ps|..] == [];
    for i := 0 to |ps|
      invariant w.out + Bytes(ps[i..]) == start + Bytes(ps)
    {
      BytesFirst(ps, i);
      Regroup(w.out, PieceBytes(ps[i]), Bytes(ps[i + 1..]));
      w.Put(ps[i]);
    }
  }

  lemma BytesNil()
    ensures Bytes([]) == []
  {
  }

  lemma BytesFirst(ps: seq<Piece>, i: nat)
    requires i < |ps|
    ensures Bytes(ps[i..]) == PieceBytes(ps[i]) + Bytes(ps[i + 1..])
  {
    assert ps[i..][0] == ps[i] && ps[i..][1..] == ps[i + 1..];
  }

  lemma Sixfold<A>(z: seq<A>, a: seq<A>, b: seq<A>, c: seq<A>, d: seq<A>, e: seq<A>, f: seq<A>)
    ensures z + a + b + c + d + e + f == z + (a + b + c + d + e + f)
  {
  }

  /** A pending wrap: the last cell of the cursor's row, again. */
  method WritePending(w: Writer, b: Buffers.Buffer, cur: Cursor, ghost s: Screen)
    requires b.Valid() && b.w > 0 && s.rows == b.Rows() && s.cur == cur && 0 <= cur.y < b.rows.Length && |s.rows| == b.rows.Length
    requires |s.rows[cur.y].cells| == b.w
    modifies w
    ensures w.out == old(w.out) + Bytes(PendingPieces(s, b.w))
  {
    hide Bytes, PieceBytes, Buffers.Shown;
    BytesNil();
    LinesShown(b);
    if cur.pendingWrap {
      assert b.rows[..][cur.y] == b.rows[cur.y];
      var last := b.rows[cur.y].cells[b.w - 1];
      if last.width == 1 && last.ch != [] {
        PutAll(w, [SgrPiece(last.style), Text(last.ch), RESET]);
      }
    }
  }

  /** writeScreen: the main screen with its scrollback, or the alternate one. */
  method WriteScreen(w: Writer, d: ScreenMachine.Display, main: bool, ghost t: T)
    requires d.Valid() && t == d.View()
    modifies w
    ensures w.out == old(w.out) + Bytes(ScreenPieces(t, if main then t.main else t.alt, main))
  {
    hide Bytes, PieceBytes, LinesPieces, LinesBrush, ScreenPieces, WipePieces, SavedPieces, RegionPieces, CursorPieces, PendingPieces, ScreenMachine.Display.Valid, ScreenMachine.Display.View;
    var b, s := if main then d.main else d.alt, if main then d.rest.main else d.rest.alt;
    ghost var full := if main then t.main else t.alt;
    ghost var lines := if main then full.scrollback + full.rows else full.rows;
    ScreenSeen(d, main);
    WriteLines(w, b, main, lines);
    PutAll(w, WipePieces(w.Ink()));
    PutAll(w, SavedPieces(s.saved));
    PutAll(w, RegionPieces(s, d.rest.h));
    var origin := d.rest.modes.origin && main != d.rest.altActive;
    PutAll(w, CursorPieces(s, origin));
    ScreenSeen(d, main);
    WritePending(w, b, s.cur, full);
    ScreenBytes(t, full, s, main, lines);
    Sixfold(old(w.out), Bytes(LinesPieces(lines, 0, DRY)), Bytes(WipePieces(LinesBrush(lines, 0, DRY))), Bytes(SavedPieces(s.saved)),
            Bytes(RegionPieces(s, t.h)), Bytes(CursorPieces(s, origin)), Bytes(PendingPieces(full, t.w)));
  }

  /** The bytes of a screen, part by part; those beside the rows need only the fields. */
  lemma ScreenBytes(t: T, full: Screen, s: Screen, main: bool, lines: seq<Row>)
    requires ScreenFits(full, t.w, t.h) && ScreenFits(s, t.w, t.h)
    requires full.cur == s.cur && full.saved == s.saved && full.top == s.top && full.bot == s.bot
    requires lines == if main then full.scrollback + full.rows else full.rows
    ensures Bytes(ScreenPieces(t, full, main)) == Bytes(LinesPieces(lines, 0, DRY))
      + Bytes(WipePieces(LinesBrush(lines, 0, DRY))) + Bytes(SavedPieces(s.saved)) + Bytes(RegionPieces(s, t.h))
      + Bytes(CursorPieces(s, t.modes.origin && main != t.altActive)) + Bytes(PendingPieces(full, t.w))
  {
    hide Bytes, LinesPieces, LinesBrush, WipePieces, SavedPieces, PendingPieces;
    var a, b, c := LinesPieces(lines, 0, DRY), WipePieces(LinesBrush(lines, 0, DRY)), SavedPieces(s.saved);
    var d, e, f := RegionPieces(s, t.h), CursorPieces(s, t.modes.origin && main != t.altActive), PendingPieces(full, t.w);
    assert d == RegionPieces(full, t.h) && e == CursorPieces(full, t.modes.origin && main != t.altActive);
    assert ScreenPieces(t, full, main) == a + (b + (c + (d + (e + f))));
    FiveBytes(a, b, c, d, e, f);
  }

  lemma FiveBytes(a: seq<Piece>, b: seq<Piece>, c: seq<Piece>, d: seq<Piece>, e: seq<Piece>, f: seq<Piece>)
    ensures Bytes(a + (b + (c + (d + (e + f))))) == Bytes(a) + Bytes(b) + Bytes(c) + Bytes(d) + Bytes(e) + Bytes(f)
  {
    hide Bytes;
    BytesAppend(a, b + (c + (d + (e + f))));
    BytesAppend(b, c + (d + (e + f)));
    BytesAppend(c, d + (e + f));
    BytesAppend(d, e + f);
    BytesAppend(e, f);
  }

  lemma ScreenSeen(d: ScreenMachine.Display, main: bool)
    requires d.Valid()
    ensures var t := d.View(); var b := if main then d.main else d.alt;
      && var s, full := if main then d.rest.main else d.rest.alt, if main then t.main else t.alt;
      && b.Valid() && b.w == t.w == d.rest.w && b.rows.Length == t.h == d.rest.h >= 1 && b.w > 0
      && full.rows == b.Rows() && (main ==> full.scrollback == b.History())
      && full.cur == s.cur && full.saved == s.saved && full.top == s.top && full.bot == s.bot
      && ScreenFits(full, t.w, t.h) && t.modes == d.rest.modes && t.altActive == d.rest.altActive
      && ScreenFits(s, t.w, t.h)
  {
  }

  function AltPieces(t: T): seq<Piece> {
    if t.altActive then [SetPiece(1049)] + ScreenPieces(t, t.alt, false) else []
  }

  method WriteAlt(w: Writer, d: ScreenMachine.Display, ghost t: T)
    requires d.Valid() && t == d.View()
    modifies w
    ensures w.out == old(w.out) + Bytes(AltPieces(t))
  {
    hide Bytes, PieceBytes, ScreenPieces, ScreenMachine.Display.Valid, ScreenMachine.Display.View;
    StateSeen(d);
    BytesNil();
    if d.rest.altActive {
      Unrelated(w, d);
      BytesAppend([SetPiece(1049)], ScreenPieces(t, t.alt, false));
      Regroup(w.out, Bytes([SetPiece(1049)]), Bytes(ScreenPieces(t, t.alt, false)));
      PutAll(w, [SetPiece(1049)]);
      assert d.Valid() && d.View() == t;
      WriteScreen(w, d, false, t);
    }
  }

  method WriteScreens(w: Writer, d: ScreenMachine.Display, ghost t: T)
    requires d.Valid() && t == d.View()
    modifies w
    ensures w.out == old(w.out) + Bytes(ScreenPieces(t, t.main, true)) + Bytes(AltPieces(t))
  {
    hide Bytes, PieceBytes, ScreenPieces, AltPieces, ScreenMachine.Display.Valid, ScreenMachine.Display.View;
    Unrelated(w, d);
    WriteScreen(w, d, true, t);
    assert d.Valid() && d.View() == t;
    WriteAlt(w, d, t);
  }

  /** Snapshot: what is written is the snapshot of the terminal the screens hold. */
  method Snapshot(d: ScreenMachine.Display) returns (bytes: seq<byte>)
    requires d.Valid()
    ensures bytes == Snapshots.Snapshot(d.View())
  {
    hide Bytes, PieceBytes, ScreenPieces, AltPieces, StatePieces, Snapshots.Snapshot, ScreenMachine.Display.Valid, ScreenMachine.Display.View;
    ghost var t := d.View();
    StateSeen(d);
    SnapshotBytes(t);
    var w := new Writer();
    Unrelated(w, d);
    PutAll(w, PROLOGUE);
    assert d.Valid() && d.View() == t;
    WriteScreens(w, d, t);
    PutAll(w, StatePieces(d.rest));
    bytes := w.out;
  }

  /** A writer is no part of a display. */
  lemma Unrelated(w: Writer, d: ScreenMachine.Display)
    ensures var o: object := w;
      && o !in {d, d.main, d.alt, d.main.rows, d.alt.rows, d.main.blank, d.alt.blank}
      && o !in Buffers.Stores(d.main.rows[..]) + Buffers.Stores(d.alt.rows[..]) + Buffers.Stores(d.main.scrollback)
  {
  }

  lemma StateSeen(d: ScreenMachine.Display)
    requires d.Valid()
    ensures StatePieces(d.rest) == StatePieces(d.View()) && d.View().altActive == d.rest.altActive
  {
  }

  lemma SnapshotBytes(t: T)
    ensures Snapshots.Snapshot(t) == Bytes(PROLOGUE) + Bytes(ScreenPieces(t, t.main, true)) + Bytes(AltPieces(t)) + Bytes(StatePieces(t))
  {
    hide Bytes, ScreenPieces, StatePieces;
    var a, b, c, e := PROLOGUE, ScreenPieces(t, t.main, true), AltPieces(t), StatePieces(t);
    BytesAppend(a, b + (c + e));
    BytesAppend(b, c + e);
    BytesAppend(c, e);
  }

  lemma LinesDone(lines: seq<Row>, ink: Brush)
    ensures Bytes(LinesPieces(lines, |lines|, ink)) == [] && LinesBrush(lines, |lines|, ink) == ink
  {
  }

  lemma LinesShown(b: Buffers.Buffer)
    ensures |b.History()| == |b.scrollback| && |b.Rows()| == b.rows.Length
    ensures forall i :: 0 <= i < |b.scrollback| ==> b.History()[i] == Row(b.scrollback[i].cells[..], b.scrollback[i].wrapped)
    ensures forall y :: 0 <= y < b.rows.Length ==> b.Rows()[y] == Row(b.rows[y].cells[..], b.rows[y].wrapped)
  {
  }

  lemma CellBytes(c: Cell, ink: Brush)
    ensures Bytes(CellPieces(c, ink)) ==
      if c.width == 0 then []
      else Bytes(When(c.style != ink.pen, SgrPiece(c.style))) + Bytes(When(c.link != ink.link, LinkPiece(c.link))) + PieceBytes(Text(CellText(c)))
  {
    hide PieceBytes, SgrPiece, LinkPiece, CellText;
    if c.width != 0 {
      var a, b := When(c.style != ink.pen, SgrPiece(c.style)), When(c.link != ink.link, LinkPiece(c.link));
      BytesAppend(a + b, [Text(CellText(c))]);
      BytesAppend(a, b);
      BytesOne(Text(CellText(c)));
    }
  }

  lemma RowMore(e: seq<Cell>, x: nat, ink: Brush)
    requires x < |e|
    ensures Bytes(RowPieces(e[x..], ink)) == Bytes(CellPieces(e[x], ink)) + Bytes(RowPieces(e[x + 1..], Dip(ink, e[x])))
    ensures DipAll(ink, e[x..]) == DipAll(Dip(ink, e[x]), e[x + 1..])
  {
    hide Bytes, CellPieces, Dip;
    assert e[x..][0] == e[x] && e[x..][1..] == e[x + 1..];
    BytesAppend(CellPieces(e[x], ink), RowPieces(e[x + 1..], Dip(ink, e[x])));
  }

  lemma RowNothing(e: seq<Cell>, ink: Brush)
    ensures e[0..] == e && Bytes(RowPieces(e[|e|..], ink)) == [] && DipAll(ink, e[|e|..]) == ink
  {
  }

  lemma Regroup<A>(a: seq<A>, b: seq<A>, c: seq<A>)
    ensures (a + b) + c == a + (b + c)
  {
  }

  lemma {:induction false} BytesAppend(a: seq<Piece>, b: seq<Piece>)
    ensures Bytes(a + b) == Bytes(a) + Bytes(b)
    decreases |a|
  {
    hide PieceBytes;
    if a == [] {
      assert a + b == b;
    } else {
      assert (a + b)[1..] == a[1..] + b;
      BytesAppend(a[1..], b);
    }
  }

  lemma BytesOne(p: Piece)
    ensures Bytes([p]) == PieceBytes(p)
  {
    assert [p][1..] == [];
  }
}
