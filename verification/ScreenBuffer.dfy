/** A screen's rows in place: a scroll recycles the storage of the rows that leave
    for the rows that enter, scrollback keeps copies, and clearing copies from a
    cached blank row. No two of them ever share storage. */
module ScreenBuffer {
  import opened Utf8
  import opened Cells
  import opened Terminal
  import opened CellArrays

  datatype Line = Line(cells: array<Cell>, wrapped: bool)

  function Stores(ls: seq<Line>): set<array<Cell>> { set i | 0 <= i < |ls| :: ls[i].cells }

  /** The rows that lines hold now. */
  function Shown(ls: seq<Line>): (rs: seq<Row>)
    reads Stores(ls)
    ensures |rs| == |ls| && forall i :: 0 <= i < |ls| ==> rs[i] == Row(ls[i].cells[..], ls[i].wrapped)
  {
    seq(|ls|, i requires 0 <= i < |ls| reads Stores(ls) => Row(ls[i].cells[..], ls[i].wrapped))
  }

  /** No two lines share storage. */
  predicate Apart(ls: seq<Line>) { forall i, j :: 0 <= i < j < |ls| ==> ls[i].cells != ls[j].cells }

  predicate AllWide(ls: seq<Line>, w: nat) { forall i :: 0 <= i < |ls| ==> ls[i].cells.Length == w }

  class Buffer {
    const w: nat
    const rows: array<Line>
    var scrollback: seq<Line>
    var max: nat
    /** The blank row cache; empty until it is needed. */
    var blank: array<Cell>

    predicate BlankOk()
      reads this, blank
    {
      (blank.Length == 0 || blank.Length >= w) && forall x :: 0 <= x < blank.Length ==> blank[x] == BLANK
    }

    /** No storage is shared: between rows, between stored lines, between the two,
        or with the blank row. */
    predicate Unshared()
      reads this, rows
    {
      && Apart(rows[..]) && Apart(scrollback) && Stores(rows[..]) !! Stores(scrollback)
      && blank !in Stores(rows[..]) && blank !in Stores(scrollback)
    }

    predicate Valid()
      reads this, rows, blank
    {
      AllWide(rows[..], w) && BlankOk() && Unshared()
    }

    ghost function Rows(): seq<Row>
      reads this, rows, Stores(rows[..])
    {
      Shown(rows[..])
    }

    ghost function History(): seq<Row>
      reads this, Stores(scrollback)
    {
      Shown(scrollback)
    }

    constructor (w: nat, h: nat, max: nat, scrollback: seq<Line>)
      requires Apart(scrollback)
      ensures Valid() && this.w == w && this.max == max && rows.Length == h && fresh(rows) && fresh(blank)
      ensures Rows() == BlankRows(h, w, PLAIN) && this.scrollback == scrollback
      ensures forall a :: a in Stores(rows[..]) ==> fresh(a)
    {
      this.w := w;
      this.max := max;
      this.scrollback := scrollback;
      OldStores(scrollback);
      this.blank := new Cell[0];
      var unused := new Cell[0];
      var ls := new Line[h](_ => Line(unused, false));
      this.rows := ls;
      new;
      Refill(0, h, PLAIN);
      assert |Rows()| == h;
    }

    /** newRow, cleared: rows [from, to) get storage of their own. */
    method Refill(from: nat, to: nat, pen: Style)
      requires from <= to <= rows.Length
      modifies rows
      ensures forall y :: 0 <= y < rows.Length && !(from <= y < to) ==> rows[y] == old(rows[y])
      ensures forall y :: from <= y < to ==>
        fresh(rows[y].cells) && rows[y].cells[..] == Blanks(w, pen) && !rows[y].wrapped
      ensures forall y, z :: from <= y < z < to ==> rows[y].cells != rows[z].cells
    {
      var y := from;
      while y < to
        invariant from <= y <= to
        invariant forall z :: 0 <= z < rows.Length && !(from <= z < y) ==> rows[z] == old(rows[z])
        invariant forall z :: from <= z < y ==>
          fresh(rows[z].cells) && rows[z].cells[..] == Blanks(w, pen) && !rows[z].wrapped
        invariant forall z, z' :: from <= z < z' < y ==> rows[z].cells != rows[z'].cells
      {
        var a := new Cell[w](_ => Blank(pen));
        assert a[..] == Blanks(w, pen);
        rows[y] := Line(a, false);
        y := y + 1;
      }
    }

    /** insertCells on row y. */
    method InsertAt(y: nat, x: nat, n: nat, pen: Style)
      requires Valid() && y < rows.Length && x < w
      modifies rows[y].cells
      ensures Valid() && History() == old(History()) && RowsFit(old(Rows()), w) && |old(Rows())| == rows.Length
      ensures Rows() == WithCells(old(Rows()), y, InsertInLine(old(Rows())[y].cells, x, n, pen))
    {
      hide InsertInLine, DeleteInLine, PlaceInLine, Shown, Stores;
      ghost var ls, was := rows[..], Rows();
      OldStores(ls);
      OldStores(scrollback);
      WideFits(ls, w);
      InsertIn(rows[y].cells, x, n, pen);
      LineEdited(ls, was, y);
    }

    /** The row edit of deleteChars. */
    method DeleteAt(y: nat, x: nat, n: nat, pen: Style)
      requires Valid() && y < rows.Length && x < w
      modifies rows[y].cells
      ensures Valid() && History() == old(History()) && RowsFit(old(Rows()), w) && |old(Rows())| == rows.Length
      ensures Rows() == WithCells(old(Rows()), y, DeleteInLine(old(Rows())[y].cells, x, n, pen))
    {
      hide InsertInLine, DeleteInLine, PlaceInLine, Shown, Stores;
      ghost var ls, was := rows[..], Rows();
      OldStores(ls);
      OldStores(scrollback);
      WideFits(ls, w);
      DeleteIn(rows[y].cells, x, n, pen);
      LineEdited(ls, was, y);
    }

    /** The row edit of print. */
    method PlaceAt(y: nat, x: nat, ch: seq<Rune>, width: int, pen: Style, link: seq<byte>)
      requires Valid() && y < rows.Length && 1 <= width <= 2 && x + width <= w
      modifies rows[y].cells
      ensures Valid() && History() == old(History()) && RowsFit(old(Rows()), w) && |old(Rows())| == rows.Length
      ensures Rows() == WithCells(old(Rows()), y, PlaceInLine(old(Rows())[y].cells, x, ch, width, pen, link))
    {
      hide InsertInLine, DeleteInLine, PlaceInLine, Shown, Stores;
      ghost var ls, was := rows[..], Rows();
      OldStores(ls);
      OldStores(scrollback);
      WideFits(ls, w);
      PlaceIn(rows[y].cells, x, ch, width, pen, link);
      LineEdited(ls, was, y);
    }

    /** One cell of row y stored. */
    method StoreAt(y: nat, x: nat, c: Cell)
      requires Valid() && y < rows.Length && x < w
      modifies rows[y].cells
      ensures Valid() && History() == old(History()) && RowsFit(old(Rows()), w) && |old(Rows())| == rows.Length
      ensures Rows() == WithCells(old(Rows()), y, old(Rows())[y].cells[x := c])
    {
      hide InsertInLine, DeleteInLine, PlaceInLine, Shown, Stores;
      ghost var ls, was := rows[..], Rows();
      OldStores(ls);
      OldStores(scrollback);
      WideFits(ls, w);
      rows[y].cells[x] := c;
      LineEdited(ls, was, y);
    }

    /** row.clear on row y. */
    method ClearAt(y: nat, from: int, to: int, pen: Style)
      requires Valid() && y < rows.Length
      modifies rows[y].cells
      ensures Valid() && History() == old(History()) && RowsFit(old(Rows()), w) && |old(Rows())| == rows.Length
      ensures Rows() == WithCells(old(Rows()), y, ClearCells(old(Rows())[y].cells, from, to, pen))
    {
      hide InsertInLine, DeleteInLine, PlaceInLine, Shown, Stores;
      ghost var ls, was := rows[..], Rows();
      OldStores(ls);
      OldStores(scrollback);
      WideFits(ls, w);
      ClearIn(rows[y].cells, from, to, pen);
      LineEdited(ls, was, y);
    }

    /** clearRow on row y. */
    method ClearRowAt(y: nat, from: int, to: int, pen: Style)
      requires Valid() && y < rows.Length
      modifies rows[y].cells, this`blank
      ensures Valid() && (blank == old(blank) || fresh(blank)) && History() == old(History()) && RowsFit(old(Rows()), w) && |old(Rows())| == rows.Length
      ensures Rows() == WithCells(old(Rows()), y, ClearCells(old(Rows())[y].cells, from, to, pen))
    {
      hide InsertInLine, DeleteInLine, PlaceInLine, Shown, Stores;
      ghost var ls, was := rows[..], Rows();
      OldStores(ls);
      OldStores(scrollback);
      WideFits(ls, w);
      ClearRow(rows[y].cells, from, to, pen);
      LineEdited(ls, was, y);
    }

    /** The scrollback goes. */
    method Forget()
      requires Valid()
      modifies this`scrollback
      ensures Valid() && Rows() == old(Rows()) && scrollback == []
    {
      scrollback := [];
    }

    /** Row y filled with one cell; it no longer continues anything. */
    method FillRow(y: nat, c: Cell)
      requires Valid() && y < rows.Length
      modifies rows, rows[y].cells
      ensures Valid() && Stores(rows[..]) == old(Stores(rows[..])) && History() == old(History())
      ensures RowsFit(old(Rows()), w) && |old(Rows())| == rows.Length
      ensures Rows() == old(Rows())[y := Row(Filled(w, c), false)]
    {
      hide Shown, Stores, BlankOk, Filled;
      ghost var ls, was := rows[..], Rows();
      OldStores(scrollback);
      OldStores(ls);
      WideFits(ls, w);
      FillCells(rows[y].cells, c);
      LineEdited(ls, was, y);
      MarkRow(y, false);
    }

    /** DECALN's fill. */
    method FillRows(c: Cell)
      requires Valid()
      modifies rows, Stores(rows[..])
      ensures Valid() && Stores(rows[..]) == old(Stores(rows[..])) && History() == old(History())
      ensures Rows() == FilledRows(rows.Length, w, c)
    {
      hide Shown, Stores, BlankOk, RowsFit, Filled;
      ghost var stores, history := Stores(rows[..]), History();
      ghost var full := Row(Filled(w, c), false);
      WideFits(rows[..], w);
      var y := 0;
      while y < rows.Length
        invariant 0 <= y <= rows.Length && Valid() && Stores(rows[..]) == stores && History() == history
        invariant |Rows()| == rows.Length && forall i :: 0 <= i < y ==> Rows()[i] == full
      {
        OldStores(rows[..]);
        assert rows[..][y] == rows[y];
        FillRow(y, c);
        y := y + 1;
      }
    }

    /** Row y erased whole: it no longer continues anything. */
    method EraseRow(y: nat, pen: Style, cached: bool)
      requires Valid() && y < rows.Length
      modifies rows, rows[y].cells, this`blank
      ensures Valid() && (blank == old(blank) || fresh(blank)) && Stores(rows[..]) == old(Stores(rows[..]))
      ensures History() == old(History()) && RowsFit(old(Rows()), w) && |old(Rows())| == rows.Length
      ensures Rows() == old(Rows())[y := BlankRow(w, pen)]
    {
      hide Shown, Stores, BlankOk;
      ghost var ls, was := rows[..], Rows();
      OldStores(scrollback);
      WideFits(ls, w);
      if cached {
        ClearRowAt(y, 0, w, pen);
      } else {
        ClearAt(y, 0, w, pen);
      }
      MarkRow(y, false);
      ClearedAll(was[y].cells, w, pen);
    }

    /** Rows [from, to) erased whole, with row.clear or from the cache. */
    method EraseRows(from: nat, to: nat, pen: Style, cached: bool)
      requires Valid() && from <= to <= rows.Length
      modifies rows, Stores(rows[..]), this`blank
      ensures Valid() && (blank == old(blank) || fresh(blank)) && Stores(rows[..]) == old(Stores(rows[..]))
      ensures History() == old(History()) && RowsFit(old(Rows()), w) && |old(Rows())| == rows.Length
      ensures Rows() == ClearRows(old(Rows()), from, to, w, pen)
    {
      hide Shown, Stores, BlankOk, RowsFit, ClearRows;
      ghost var was, stores, history := Rows(), Stores(rows[..]), History();
      WideFits(rows[..], w);
      ClearedNone(was, from, w, pen);
      var y := from;
      while y < to
        invariant from <= y <= to && Valid() && (blank == old(blank) || fresh(blank))
        invariant Stores(rows[..]) == stores && History() == history
        invariant Rows() == ClearRows(was, from, y, w, pen)
      {
        ClearedMore(was, from, y, w, pen);
        OldStores(rows[..]);
        assert rows[..][y] == rows[y];
        EraseRow(y, pen, cached);
        y := y + 1;
      }
    }

    /** Lines [at, bot] move down by n; new blank ones come in above. */
    method OpenLines(at: nat, bot: nat, n: nat, pen: Style)
      requires Valid() && at <= bot < rows.Length && 1 <= n <= bot - at + 1
      modifies rows
      ensures Valid() && History() == old(History()) && RowsFit(old(Rows()), w) && |old(Rows())| == rows.Length
      ensures forall a :: a in Stores(rows[..]) ==> a in old(Stores(rows[..])) || fresh(a)
      ensures Rows() == OpenRows(old(Rows()), at, bot, n, w, pen)
    {
      hide Shown, Stores, BlankOk, RowsFit, OpenRows, Moved, Apart, AllWide, Origin;
      ghost var ls, was := rows[..], Rows();
      WideFits(ls, w);
      OldStores(ls);
      OldStores(scrollback);
      CopyUp(rows, at + n, at, bot + 1 - at - n);
      ghost var moved := rows[..];
      Refill(at, at + n, pen);
      OriginIn(at, bot, n, true);
      forall y: nat | y < |ls| && Origin(at, bot, n, true, y) >= 0 ensures rows[y] == ls[Origin(at, bot, n, true, y)] {
        MovedAt(ls, at + n, at, bot + 1 - at - n, y);
        assert moved[y] == rows[y];
      }
      Shifted(ls, rows[..], at, bot, n, true, w, Stores(scrollback) + {blank});
      ShiftedShows(ls, was, rows[..], at, bot, n, true, w, pen);
    }

    /** Lines [at, bot] move up by n; new blank ones come in below. */
    method CloseLines(at: nat, bot: nat, n: nat, pen: Style)
      requires Valid() && at <= bot < rows.Length && 1 <= n <= bot - at + 1
      modifies rows
      ensures Valid() && History() == old(History()) && RowsFit(old(Rows()), w) && |old(Rows())| == rows.Length
      ensures forall a :: a in Stores(rows[..]) ==> a in old(Stores(rows[..])) || fresh(a)
      ensures Rows() == CloseRows(old(Rows()), at, bot, n, w, pen)
    {
      hide Shown, Stores, BlankOk, RowsFit, CloseRows, Moved, Apart, AllWide, Origin;
      ghost var ls, was := rows[..], Rows();
      WideFits(ls, w);
      OldStores(ls);
      OldStores(scrollback);
      CopyDown(rows, at, at + n, bot + 1 - at - n);
      ghost var moved := rows[..];
      Refill(bot + 1 - n, bot + 1, pen);
      OriginIn(at, bot, n, false);
      forall y: nat | y < |ls| && Origin(at, bot, n, false, y) >= 0 ensures rows[y] == ls[Origin(at, bot, n, false, y)] {
        MovedAt(ls, at, at + n, bot + 1 - at - n, y);
        assert moved[y] == rows[y];
      }
      Shifted(ls, rows[..], at, bot, n, false, w, Stores(scrollback) + {blank});
      ShiftedShows(ls, was, rows[..], at, bot, n, false, w, pen);
    }

    /** The wrapped mark of row y. */
    method MarkRow(y: nat, wrapped: bool)
      requires Valid() && y < rows.Length
      modifies rows
      ensures Valid() && Stores(rows[..]) == old(Stores(rows[..])) && History() == old(History())
      ensures RowsFit(old(Rows()), w) && |old(Rows())| == rows.Length
      ensures Rows() == old(Rows())[y := old(Rows())[y].(wrapped := wrapped)]
    {
      hide Shown, Stores, BlankOk;
      ghost var ls, was := rows[..], Rows();
      OldStores(scrollback);
      OldStores(ls);
      WideFits(ls, w);
      rows[y] := rows[y].(wrapped := wrapped);
      assert rows[..] == ls[y := ls[y].(wrapped := wrapped)];
      LineMarked(ls, y, wrapped);
    }

    /** clearRow: with a default background, a copy from the cached blank row. */
    method ClearRow(a: array<Cell>, from: int, to: int, pen: Style)
      requires a.Length == w && a != blank && BlankOk()
      modifies a, this`blank
      ensures a[..] == ClearCells(old(a[..]), from, to, pen)
      ensures BlankOk() && (blank == old(blank) || fresh(blank))
    {
      if pen.bg != Default {
        ClearIn(a, from, to, pen);
        return;
      }
      if blank.Length < w {
        blank := new Cell[w](i => BLANK);
      }
      var cache := blank;
      var lo := if from < 0 then 0 else from;
      var hi := if to > a.Length then a.Length else to;
      var i := lo;
      while i < hi
        invariant lo <= i && (i <= hi || i == lo)
        invariant forall x :: 0 <= x < a.Length ==> a[x] == if lo <= x < i then BLANK else old(a[x])
        invariant forall x :: 0 <= x < cache.Length ==> cache[x] == BLANK
        modifies a
      {
        a[i] := cache[i - lo];
        i := i + 1;
      }
      assert Blank(pen) == BLANK;
    }
  
    /** pushScrollback: a trimmed copy is stored; past the limit the oldest eighth goes. */
    method PushScrollback(l: Line)
      requires Apart(scrollback)
      modifies this`scrollback
      ensures Apart(scrollback)
      ensures forall a :: a in Stores(scrollback) ==> a in Stores(old(scrollback)) || fresh(a)
      ensures History() == Push(old(History()), Row(l.cells[..], l.wrapped), max)
    {
      hide LastVisible, Shown, Apart, Stores, Push, Trimmed;
      OldStores(scrollback);
      PushIs(Shown(scrollback), Row(l.cells[..], l.wrapped), max);
      if max == 0 {
        return;
      }
      var kept := TrimmedCopy(l);
      Appended(scrollback, kept);
      scrollback := scrollback + [kept];
      if |scrollback| > max {
        var drop := |scrollback| - max;
        if drop < max / 8 {
          drop := max / 8;
        }
        if drop > |scrollback| {
          drop := |scrollback|;
        }
        Dropped(scrollback, drop);
        scrollback := scrollback[drop..];
      }
    }

    /** Lines that leave for the scrollback, in order. */
    method KeepLines(ls: seq<Line>)
      requires Apart(scrollback)
      modifies this`scrollback
      ensures Apart(scrollback)
      ensures forall a :: a in Stores(scrollback) ==> a in Stores(old(scrollback)) || fresh(a)
      ensures History() == PushAll(old(History()), Shown(ls), max)
    {
      hide Push, Apart, Shown, Stores;
      ghost var was, all := Shown(scrollback), Shown(ls);
      OldStores(scrollback);
      ShownLength(ls);
      for i := 0 to |ls|
        invariant Apart(scrollback)
        invariant forall a :: a in Stores(scrollback) ==> a in Stores(old(scrollback)) || fresh(a)
        invariant PushAll(was, all, max) == PushAll(Shown(scrollback), all[i..], max)
        invariant Shown(ls) == all
      {
        assert all[i..][0] == all[i] && all[i..][1..] == all[i + 1..];
        ShownAt(ls, i);
        PushScrollback(ls[i]);
      }
    }

    /** The lines of a region move up, and those that left come in below, cleared. */
    method RollLines(recycled: seq<Line>, top: nat, bot: nat, n: nat, pen: Style)
      requires BlankOk() && AllWide(recycled, w) && Apart(recycled) && blank !in Stores(recycled)
      requires 1 <= n && top + n <= bot + 1 <= rows.Length && recycled == rows[..][top..top + n]
      modifies rows, this`blank, Stores(recycled)
      ensures BlankOk() && (blank == old(blank) || fresh(blank))
      ensures rows[..] == Rolled(old(rows[..]), top, bot, n)
      ensures forall i :: 0 <= i < n ==> recycled[i].cells[..] == Blanks(w, pen)
    {
      hide Rolled, Cleared, Moved, Apart, AllWide, Stores, Blanks, BlankOk;
      ghost var ls := rows[..];
      CopyDown(rows, top, top + n, bot + 1 - top - n);
      ghost var moved := rows[..];
      Reuse(recycled, bot + 1 - n, pen);
      assert rows[..] == moved[..bot + 1 - n] + Cleared(recycled) + moved[bot + 1..];
      RolledIs(ls, top, bot, n);
    }

    method Roll(top: nat, bot: nat, n: nat, pen: Style)
      requires Valid() && 1 <= n && top + n <= bot + 1 <= rows.Length
      modifies this`blank, rows, Stores(rows[..])
      ensures Valid() && Stores(rows[..]) <= old(Stores(rows[..])) && (blank == old(blank) || fresh(blank))
      ensures RowsFit(old(Rows()), w) && Rows() == ScrollRows(old(Rows()), top, bot, n, w, pen)
      ensures History() == old(History())
    {
      hide Rolled, Cleared, ScrollRows, Moved, Apart, AllWide, Stores, Shown, Blanks, RowsFit, BlankOk;
      ghost var ls, was := rows[..], Rows();
      Parted(ls, top, n, w);
      WideFits(ls, w);
      OldStores(ls);
      OldStores(scrollback);
      var recycled := rows[..][top..top + n];
      RollLines(recycled, top, bot, n, pen);
      RolledApart(ls, top, bot, n, w);
      RolledLength(ls, top, bot, n);
      rows[top] := rows[top].(wrapped := false);
      Remarked(Rolled(ls, top, bot, n), top, w);
      forall i | 0 <= i < |ls| ensures ls[i].cells[..] == if top <= i < top + n then Blanks(w, pen) else was[i].cells {
        assert ls[i].cells in Stores(ls) && (top <= i < top + n ==> recycled[i - top] == ls[i]);
      }
      RolledShows(ls, was, top, bot, n, w, pen);
      RolledStores(ls, top, bot, n, w);
    }

    /** Copies of the top k rows enter the scrollback. */
    method KeepTop(k: nat)
      requires Valid() && k <= rows.Length
      modifies this`scrollback
      ensures Valid() && Rows() == old(Rows()) && |old(Rows())| == rows.Length
      ensures forall a :: a in Stores(scrollback) ==> a in Stores(old(scrollback)) || fresh(a)
      ensures History() == PushAll(old(History()), old(Rows())[..k], max)
    {
      hide Push, PushAll, Apart, AllWide, Stores, Shown;
      OldStores(rows[..]);
      OldStores(scrollback);
      ghost var leaving, history := Rows()[..k], History();
      assert rows[..k] == rows[..][..k];
      ShownFirst(rows[..], k);
      assert Shown(rows[..k]) == leaving;
      KeepLines(rows[..k]);
      assert Shown(rows[..k]) == leaving;
      assert History() == PushAll(history, leaving, max);
    }

    /** scroll: the region [top, bot] moves up by n lines; from the top of the
        screen, lines a line feed drives out enter the scrollback. */
    method Scroll(top: nat, bot: nat, n: int, pen: Style, keep: bool)
      requires Valid() && top <= bot < rows.Length
      modifies this`blank, this`scrollback, rows, Stores(rows[..])
      ensures Valid() && Stores(rows[..]) <= old(Stores(rows[..])) && (blank == old(blank) || fresh(blank))
      ensures forall a :: a in Stores(scrollback) ==> a in Stores(old(scrollback)) || fresh(a)
      ensures n <= 0 ==> Rows() == old(Rows()) && History() == old(History())
      ensures n > 0 ==> var k := Min(n, bot - top + 1);
        && |old(Rows())| == rows.Length && RowsFit(old(Rows()), w)
        && Rows() == ScrollRows(old(Rows()), top, bot, k, w, pen)
        && History() == if keep && top == 0 then PushAll(old(History()), old(Rows())[..k], max) else old(History())
    {
      if n <= 0 {
        return;
      }
      hide Push, PushAll, ScrollRows, Valid, Stores, Shown, RowsFit;
      var k := if n > bot - top + 1 then bot - top + 1 else n;
      if keep && top == 0 {
        KeepTop(k);
      }
      Roll(top, bot, k, pen);
    }

    /** One recycled line, cleared, becomes row `at`. */
    method ReuseOne(l: Line, at: nat, pen: Style)
      requires BlankOk() && l.cells.Length == w && l.cells != blank && at < rows.Length
      modifies rows, this`blank, l.cells
      ensures BlankOk() && (blank == old(blank) || fresh(blank))
      ensures rows[..] == old(rows[..])[at := Line(l.cells, false)] && l.cells[..] == Blanks(w, pen)
    {
      hide BlankOk, ClearCells, Blanks;
      ClearedAll(l.cells[..], w, pen);
      ClearRow(l.cells, 0, w, pen);
      rows[at] := Line(l.cells, false);
    }

    /** Recycled lines, cleared, come in from row `at` on. */
    method Reuse(ls: seq<Line>, at: nat, pen: Style)
      requires BlankOk() && AllWide(ls, w) && Apart(ls) && blank !in Stores(ls) && at + |ls| <= rows.Length
      modifies rows, this`blank, Stores(ls)
      ensures BlankOk() && (blank == old(blank) || fresh(blank))
      ensures rows[..] == old(rows[..])[..at] + Cleared(ls) + old(rows[..])[at + |ls|..]
      ensures forall i :: 0 <= i < |ls| ==> ls[i].cells[..] == Blanks(w, pen)
    {
      hide BlankOk, Stores, Blanks, Cleared;
      OldStores(ls);
      ClearedAre(ls);
      ghost var base, c := rows[..], Cleared(ls);
      for i := 0 to |ls|
        invariant BlankOk() && (blank == old(blank) || fresh(blank))
        invariant rows[..] == base[..at] + c[..i] + base[at + i..]
        invariant forall k :: 0 <= k < i ==> ls[k].cells[..] == Blanks(w, pen)
      {
        FilledMore(base, c, at, i);
        ReuseOne(ls[i], at + i, pen);
      }
    }
  }

  function Filled(w: nat, c: Cell): (s: seq<Cell>)
    ensures |s| == w && forall x :: 0 <= x < w ==> s[x] == c
  {
    seq(w, i => c)
  }

  function FilledRows(h: nat, w: nat, c: Cell): (r: seq<Row>)
    ensures RowsFit(r, w) && |r| == h && forall y :: 0 <= y < h ==> r[y] == Row(Filled(w, c), false)
  {
    seq(h, i => Row(Filled(w, c), false))
  }

  method FillCells(a: array<Cell>, c: Cell)
    modifies a
    ensures a[..] == Filled(a.Length, c)
  {
    for x := 0 to a.Length
      invariant forall i :: 0 <= i < x ==> a[i] == c
    {
      a[x] := c;
    }
  }

  /** The rows with the cells of one of them replaced. */
  function WithCells(rows: seq<Row>, y: nat, cells: seq<Cell>): (r: seq<Row>)
    requires y < |rows|
    ensures |r| == |rows|
  {
    rows[y := rows[y].(cells := cells)]
  }

  lemma LineEdited(ls: seq<Line>, was: seq<Row>, y: nat)
    requires y < |ls| == |was| && forall i :: 0 <= i < |ls| ==> ls[i].wrapped == was[i].wrapped
    requires forall i :: 0 <= i < |ls| && i != y ==> ls[i].cells[..] == was[i].cells
    ensures Shown(ls) == WithCells(was, y, ls[y].cells[..])
  {
    var got, want := Shown(ls), WithCells(was, y, ls[y].cells[..]);
    assert |got| == |want|;
  }

  lemma LineMarked(ls: seq<Line>, y: nat, wrapped: bool)
    requires y < |ls|
    ensures var r := ls[y := ls[y].(wrapped := wrapped)];
      && Stores(r) == Stores(ls) && (Apart(ls) ==> Apart(r))
      && |Shown(ls)| == |ls| && Shown(r) == Shown(ls)[y := Shown(ls)[y].(wrapped := wrapped)]
  {
    var r := ls[y := ls[y].(wrapped := wrapped)];
    assert forall i :: 0 <= i < |ls| ==> r[i].cells == ls[i].cells;
    var got, want := Shown(r), Shown(ls)[y := Shown(ls)[y].(wrapped := wrapped)];
    assert |got| == |want|;
  }

  lemma ClearedAll(cells: seq<Cell>, w: nat, pen: Style)
    requires |cells| == w
    ensures ClearCells(cells, 0, w, pen) == Blanks(w, pen)
  {
  }

  lemma FilledMore<A>(base: seq<A>, c: seq<A>, at: nat, i: nat)
    requires i < |c| && at + |c| <= |base|
    ensures base[..at] + c[..i + 1] + base[at + i + 1..] == (base[..at] + c[..i] + base[at + i..])[at + i := c[i]]
  {
  }

  lemma ClearedNone(was: seq<Row>, from: nat, w: nat, pen: Style)
    requires RowsFit(was, w)
    ensures ClearRows(was, from, from, w, pen) == was
  {
  }

  lemma ClearedMore(was: seq<Row>, from: nat, y: nat, w: nat, pen: Style)
    requires RowsFit(was, w) && from <= y < |was|
    ensures ClearRows(was, from, y + 1, w, pen) == ClearRows(was, from, y, w, pen)[y := BlankRow(w, pen)]
  {
  }

  /** Where line y comes from when the lines [at, bot] open or close up by n; -1 for a new line. */
  function Origin(at: nat, bot: nat, n: nat, opening: bool, y: nat): int {
    if y < at || y > bot then y
    else if opening then (if y < at + n then -1 else y - n)
    else if y + n <= bot then y + n
    else -1
  }

  predicate IsShift(ls: seq<Line>, r: seq<Line>, at: nat, bot: nat, n: nat, opening: bool) {
    && |r| == |ls| && at <= bot < |ls| && 1 <= n <= bot - at + 1
    && forall y :: 0 <= y < |ls| ==> (var o := Origin(at, bot, n, opening, y); o < |ls| && (o >= 0 ==> r[y] == ls[o]))
  }

  lemma OriginIn(at: nat, bot: nat, n: nat, opening: bool)
    requires at <= bot && 1 <= n <= bot - at + 1
    ensures forall y: nat :: var o := Origin(at, bot, n, opening, y);
      && (y <= bot ==> o <= bot) && (y > bot ==> o == y)
      && (o < 0 <==> if opening then at <= y < at + n else bot + 1 - n <= y <= bot)
      && (o >= 0 ==> o == if !(at <= y <= bot) then y else if opening then y - n else y + n)
  {
  }

  lemma OriginOnce(at: nat, bot: nat, n: nat, opening: bool, y: nat, z: nat)
    requires at <= bot && 1 <= n <= bot - at + 1 && y < z && Origin(at, bot, n, opening, y) >= 0
    ensures Origin(at, bot, n, opening, y) != Origin(at, bot, n, opening, z)
  {
  }

  /** Lines shifted, with new ones of their own storage, still share nothing. */
  lemma Shifted(ls: seq<Line>, r: seq<Line>, at: nat, bot: nat, n: nat, opening: bool, w: nat, others: set<array<Cell>>)
    requires IsShift(ls, r, at, bot, n, opening) && Apart(ls) && AllWide(ls, w) && Stores(ls) !! others
    requires forall y :: 0 <= y < |r| && Origin(at, bot, n, opening, y) < 0 ==>
      r[y].cells !in Stores(ls) && r[y].cells !in others && r[y].cells.Length == w
    requires forall y, z :: 0 <= y < z < |r| && Origin(at, bot, n, opening, y) < 0 && Origin(at, bot, n, opening, z) < 0 ==>
      r[y].cells != r[z].cells
    ensures Apart(r) && AllWide(r, w) && Stores(r) !! others
    ensures forall a :: a in Stores(r) && a !in Stores(ls) ==>
      exists y :: 0 <= y < |r| && Origin(at, bot, n, opening, y) < 0 && r[y].cells == a
  {
    hide Origin;
    forall y | 0 <= y < |r| && Origin(at, bot, n, opening, y) >= 0 ensures r[y].cells in Stores(ls) {
    }
    forall y, z | 0 <= y < z < |r| ensures r[y].cells != r[z].cells {
      if Origin(at, bot, n, opening, y) >= 0 {
        OriginOnce(at, bot, n, opening, y, z);
      }
    }
  }

  lemma ShiftedShows(ls: seq<Line>, was: seq<Row>, r: seq<Line>, at: nat, bot: nat, n: nat, opening: bool, w: nat, pen: Style)
    requires IsShift(ls, r, at, bot, n, opening) && RowsFit(was, w)
    requires |was| == |ls| && forall i :: 0 <= i < |ls| ==> was[i] == Row(ls[i].cells[..], ls[i].wrapped)
    requires forall y :: 0 <= y < |r| && Origin(at, bot, n, opening, y) < 0 ==>
      r[y].cells[..] == Blanks(w, pen) && !r[y].wrapped
    ensures Shown(r) == if opening then OpenRows(was, at, bot, n, w, pen) else CloseRows(was, at, bot, n, w, pen)
  {
    hide Origin, OpenRows, CloseRows;
    var want := if opening then OpenRows(was, at, bot, n, w, pen) else CloseRows(was, at, bot, n, w, pen);
    ShiftLength(was, at, bot, n, opening, w, pen);
    var got := Shown(r);
    forall y | 0 <= y < |r| ensures got[y] == want[y] {
      ShiftFrom(was, at, bot, n, opening, w, pen, y);
    }
  }

  lemma ShiftLength(was: seq<Row>, at: nat, bot: nat, n: nat, opening: bool, w: nat, pen: Style)
    requires at <= bot < |was| && 1 <= n <= bot - at + 1 && RowsFit(was, w)
    ensures |if opening then OpenRows(was, at, bot, n, w, pen) else CloseRows(was, at, bot, n, w, pen)| == |was|
  {
  }

  lemma ShiftFrom(was: seq<Row>, at: nat, bot: nat, n: nat, opening: bool, w: nat, pen: Style, y: nat)
    requires at <= bot < |was| && 1 <= n <= bot - at + 1 && RowsFit(was, w) && y < |was|
    ensures var o := Origin(at, bot, n, opening, y);
      && o < |was|
      && (if opening then OpenRows(was, at, bot, n, w, pen) else CloseRows(was, at, bot, n, w, pen))[y]
         == if o >= 0 then was[o] else BlankRow(w, pen)
  {
    hide RowsFit, BlankRow;
    var blanks := BlankRows(n, w, pen);
    if opening {
      Joined4(was[..at], blanks, was[at..bot + 1 - n], was[bot + 1..], y);
    } else {
      Joined4(was[..at], was[at + n..bot + 1], blanks, was[bot + 1..], y);
    }
  }

  lemma Joined4<A>(a: seq<A>, b: seq<A>, c: seq<A>, d: seq<A>, y: nat)
    requires y < |a| + |b| + |c| + |d|
    ensures (a + b + c + d)[y] ==
      if y < |a| then a[y] else if y < |a| + |b| then b[y - |a|]
      else if y < |a| + |b| + |c| then c[y - |a| - |b|] else d[y - |a| - |b| - |c|]
  {
  }

  lemma PushIs(sb: seq<Row>, r: Row, max: nat)
    ensures var all := sb + [Trimmed(r)];
      Push(sb, r, max) == if max == 0 then sb else if |all| <= max then all else all[Min(Max(|all| - max, max / 8), |all|)..]
  {
  }

  lemma OldStores(ls: seq<Line>)
    ensures forall k :: 0 <= k < |ls| ==> ls[k].cells in Stores(ls)
    ensures forall a :: a in Stores(ls) ==> allocated(a)
  {
  }

  /** One more line, with storage of its own. */
  lemma Appended(ls: seq<Line>, l: Line)
    requires Apart(ls) && l.cells !in Stores(ls)
    ensures Apart(ls + [l]) && Shown(ls + [l]) == Shown(ls) + [Row(l.cells[..], l.wrapped)] && |Shown(ls)| == |ls|
    ensures Stores(ls + [l]) == Stores(ls) + {l.cells}
  {
    var more := ls + [l];
    assert more[|ls|] == l && forall i :: 0 <= i < |ls| ==> more[i] == ls[i];
    assert forall i :: 0 <= i < |ls| ==> ls[i].cells in Stores(more);
  }

  lemma Dropped(ls: seq<Line>, n: nat)
    requires Apart(ls) && n <= |ls|
    ensures Apart(ls[n..]) && Shown(ls[n..]) == Shown(ls)[n..] && |Shown(ls)| == |ls|
    ensures Stores(ls[n..]) <= Stores(ls)
  {
  }

  /** lastVisible. */
  method CountVisible(a: array<Cell>) returns (n: nat)
    ensures n == LastVisible(a[..])
  {
    n := a.Length;
    while n > 0 && IsBlank(a[n - 1])
      invariant n <= a.Length && LastVisible(a[..]) == LastVisible(a[..n])
    {
      assert a[..n][..n - 1] == a[..n - 1];
      n := n - 1;
    }
  }

  /** trimmed: a copy without the trailing blanks. */
  method TrimmedCopy(l: Line) returns (t: Line)
    ensures fresh(t.cells) && Row(t.cells[..], t.wrapped) == Trimmed(Row(l.cells[..], l.wrapped))
  {
    hide LastVisible;
    var n := CountVisible(l.cells);
    VisibleFits(l.cells[..]);
    var src := l.cells;
    var a := new Cell[n](i requires 0 <= i < n reads src requires n <= src.Length => src[i]);
    assert a[..] == l.cells[..][..n];
    t := Line(a, l.wrapped);
  }

  lemma VisibleFits(cells: seq<Cell>)
    ensures LastVisible(cells) <= |cells|
  {
  }

  function Cleared(ls: seq<Line>): (r: seq<Line>)
    ensures |r| == |ls| && forall i :: 0 <= i < |r| ==> r[i] == Line(ls[i].cells, false)
  {
    seq(|ls|, i requires 0 <= i < |ls| => Line(ls[i].cells, false))
  }

  lemma ClearedAre(ls: seq<Line>)
    ensures |Cleared(ls)| == |ls| && forall i :: 0 <= i < |ls| ==> Cleared(ls)[i] == Line(ls[i].cells, false)
  {
  }

  lemma ShownLength(ls: seq<Line>)
    ensures |Shown(ls)| == |ls| && Shown(ls)[0..] == Shown(ls)
  {
  }

  lemma ShownNone(ls: seq<Line>)
    requires ls == []
    ensures Shown(ls) == [] && Stores(ls) == {}
  {
  }

  lemma ShownAt(ls: seq<Line>, i: nat)
    requires i < |ls|
    ensures |Shown(ls)| == |ls| && Shown(ls)[i] == Row(ls[i].cells[..], ls[i].wrapped)
  {
  }

  // ---------------------------------------------------------------------------
  // Scrolling
  // ---------------------------------------------------------------------------

  /** The lines [top, bot] moved up by n, those that left recycled at the end. */
  function Rolled(ls: seq<Line>, top: nat, bot: nat, n: nat): (r: seq<Line>)
    requires top + n <= bot + 1 <= |ls|
    ensures |r| == |ls|
  {
    ls[..top] + ls[top + n..bot + 1] + Cleared(ls[top..top + n]) + ls[bot + 1..]
  }

  /** Where line y of the rolled lines comes from. */
  function Source(top: nat, bot: nat, n: nat, y: nat): nat
    requires top + n <= bot + 1
  {
    if y < top || y > bot then y else if y + n <= bot then y + n else y + n - (bot + 1 - top)
  }

  lemma RolledAt(ls: seq<Line>, top: nat, bot: nat, n: nat, y: nat)
    requires top + n <= bot + 1 <= |ls| && y < |ls|
    ensures var i := Source(top, bot, n, y);
      && i < |ls| && Rolled(ls, top, bot, n)[y].cells == ls[i].cells
      && (top <= i < top + n <==> bot + 1 - n <= y <= bot)
      && Rolled(ls, top, bot, n)[y].wrapped == (ls[i].wrapped && !(top <= i < top + n))
  {
  }

  /** Rolling moves storage about; it shares and drops none. */
  lemma RolledApart(ls: seq<Line>, top: nat, bot: nat, n: nat, w: nat)
    requires top + n <= bot + 1 <= |ls| && Apart(ls) && AllWide(ls, w)
    ensures Apart(Rolled(ls, top, bot, n)) && AllWide(Rolled(ls, top, bot, n), w)
    ensures forall y :: 0 <= y < |ls| ==> Rolled(ls, top, bot, n)[y].cells in Stores(ls)
  {
    hide Rolled;
    var r := Rolled(ls, top, bot, n);
    RolledLength(ls, top, bot, n);
    forall y | 0 <= y < |ls| ensures r[y].cells.Length == w && r[y].cells in Stores(ls) {
      RolledAt(ls, top, bot, n, y);
    }
    forall y, z | 0 <= y < z < |ls| ensures r[y].cells != r[z].cells {
      RolledAt(ls, top, bot, n, y);
      RolledAt(ls, top, bot, n, z);
      assert Source(top, bot, n, y) != Source(top, bot, n, z);
    }
  }

  lemma RolledLength(ls: seq<Line>, top: nat, bot: nat, n: nat)
    requires top + n <= bot + 1 <= |ls|
    ensures |Rolled(ls, top, bot, n)| == |ls|
  {
  }

  /** What rolled lines show is the screen scrolled. */
  lemma RolledShows(ls: seq<Line>, was: seq<Row>, top: nat, bot: nat, n: nat, w: nat, pen: Style)
    requires 1 <= n && top + n <= bot + 1 <= |ls| == |was| && RowsFit(was, w)
    requires forall i :: 0 <= i < |ls| ==> ls[i].wrapped == was[i].wrapped
    requires forall i :: 0 <= i < |ls| ==> ls[i].cells[..] == if top <= i < top + n then Blanks(w, pen) else was[i].cells
    ensures |Rolled(ls, top, bot, n)| == |ls|
    ensures var r := Rolled(ls, top, bot, n);
      Shown(r[top := r[top].(wrapped := false)]) == ScrollRows(was, top, bot, n, w, pen)
  {
    hide Rolled, ScrollRows, Blanks;
    RolledLength(ls, top, bot, n);
    var r := Rolled(ls, top, bot, n);
    var r' := r[top := r[top].(wrapped := false)];
    var want := ScrollRows(was, top, bot, n, w, pen);
    ScrolledLength(was, top, bot, n, w, pen);
    ShownLength(r');
    var got := Shown(r');
    forall y | 0 <= y < |ls| ensures got[y] == want[y] {
      RolledAt(ls, top, bot, n, y);
      ScrolledFrom(was, top, bot, n, w, pen, y);
      ShownAt(r', y);
    }
  }

  lemma ScrolledLength(was: seq<Row>, top: nat, bot: nat, n: nat, w: nat, pen: Style)
    requires 1 <= n && top + n <= bot + 1 <= |was| && RowsFit(was, w)
    ensures |ScrollRows(was, top, bot, n, w, pen)| == |was|
  {
  }

  lemma ScrolledFrom(was: seq<Row>, top: nat, bot: nat, n: nat, w: nat, pen: Style, y: nat)
    requires 1 <= n && top + n <= bot + 1 <= |was| && RowsFit(was, w) && y < |was|
    ensures var i := Source(top, bot, n, y); var r := ScrollRows(was, top, bot, n, w, pen)[y];
      && i < |was| && r.cells == (if top <= i < top + n then Blanks(w, pen) else was[i].cells)
      && r.wrapped == (y != top && !(top <= i < top + n) && was[i].wrapped)
  {
  }

  /** The recycled lines are some of them, the others are elsewhere. */
  lemma Parted(ls: seq<Line>, top: nat, n: nat, w: nat)
    requires top + n <= |ls| && Apart(ls) && AllWide(ls, w)
    ensures var part := ls[top..top + n];
      && Apart(part) && AllWide(part, w) && Stores(part) <= Stores(ls)
      && forall i :: 0 <= i < |ls| ==> ((top <= i < top + n) <==> ls[i].cells in Stores(part))
  {
    var part := ls[top..top + n];
    forall i | top <= i < top + n ensures ls[i].cells in Stores(part) {
      assert part[i - top] == ls[i];
    }
  }

  lemma WideFits(ls: seq<Line>, w: nat)
    requires AllWide(ls, w)
    ensures RowsFit(Shown(ls), w) && |Shown(ls)| == |ls|
    ensures forall i :: 0 <= i < |ls| ==> Shown(ls)[i] == Row(ls[i].cells[..], ls[i].wrapped)
  {
  }

  lemma RolledIs(ls: seq<Line>, top: nat, bot: nat, n: nat)
    requires top + n <= bot + 1 <= |ls|
    ensures var m := Moved(ls, top, top + n, bot + 1 - top - n);
      m[..bot + 1 - n] + Cleared(ls[top..top + n]) + m[bot + 1..] == Rolled(ls, top, bot, n)
  {
    var m := Moved(ls, top, top + n, bot + 1 - top - n);
    assert m[..bot + 1 - n] == ls[..top] + ls[top + n..bot + 1];
    assert m[bot + 1..] == ls[bot + 1..];
  }

  lemma Remarked(r: seq<Line>, k: nat, w: nat)
    requires k < |r| && Apart(r) && AllWide(r, w)
    ensures var r' := r[k := r[k].(wrapped := false)]; Apart(r') && AllWide(r', w) && Stores(r') == Stores(r)
  {
    var r' := r[k := r[k].(wrapped := false)];
    assert forall i :: 0 <= i < |r| ==> r'[i].cells == r[i].cells;
  }

  lemma RolledStores(ls: seq<Line>, top: nat, bot: nat, n: nat, w: nat)
    requires top + n <= bot + 1 <= |ls| && Apart(ls) && AllWide(ls, w)
    ensures Stores(Rolled(ls, top, bot, n)) <= Stores(ls)
  {
    hide Rolled;
    RolledApart(ls, top, bot, n, w);
    RolledLength(ls, top, bot, n);
  }

  lemma ShownFirst(ls: seq<Line>, k: nat)
    requires k <= |ls|
    ensures |Shown(ls)| == |ls| && Shown(ls[..k]) == Shown(ls)[..k]
  {
  }
}
