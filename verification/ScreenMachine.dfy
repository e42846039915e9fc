/** The terminal in place: two screens whose rows are edited where they are, and
    the fields beside them. Each method leaves what its function on values says. */
module ScreenMachine {
  import opened Utf8
  import opened Cells
  import opened Width
  import opened Terminal
  import Buffers = ScreenBuffer

  /** The terminal `t` with other rows on its screens, and another scrollback. */
  function Framed(t: T, rows: seq<Row>, scrollback: seq<Row>, altRows: seq<Row>): T
    requires |rows| == |altRows| == t.h && RowsFit(rows, t.w) && RowsFit(altRows, t.w)
  {
    t.(main := t.main.(rows := rows, scrollback := scrollback), alt := t.alt.(rows := altRows))
  }

  /** The storage a screen owns. */
  ghost function Owned(b: Buffers.Buffer): set<array<Cell>>
    reads b, b.rows
  {
    Buffers.Stores(b.rows[..]) + Buffers.Stores(b.scrollback) + {b.blank}
  }

  class Display {
    var main: Buffers.Buffer
    var alt: Buffers.Buffer
    /** Everything but the rows of the screens and the scrollback, which `main` and
        `alt` hold; what `rest` has in their place is not kept up to date. */
    var rest: T

    predicate Sized(b: Buffers.Buffer)
      reads this, b, b.rows, b.blank
    {
      b.Valid() && b.w == rest.w && b.rows.Length == rest.h
    }

    ghost predicate Valid()
      reads this, main, alt, main.rows, alt.rows, main.blank, alt.blank
    {
      && main != alt && main.rows != alt.rows && Owned(main) !! Owned(alt)
      && Sized(main) && Sized(alt)
      && main.max == rest.maxScrollback && alt.scrollback == []
    }

    ghost function Footprint(): set<object>
      reads this, main, alt, main.rows, alt.rows
    {
      {this, main, alt, main.rows, alt.rows} + Buffers.Stores(main.rows[..]) + Buffers.Stores(alt.rows[..])
    }

    /** The terminal this is. */
    ghost function View(): T
      requires Valid()
      reads this, main, alt, main.rows, alt.rows, main.blank, alt.blank
      reads Buffers.Stores(main.rows[..]), Buffers.Stores(alt.rows[..]), Buffers.Stores(main.scrollback)
    {
      Framed(rest, main.Rows(), main.History(), alt.Rows())
    }

    constructor (w: nat, h: nat, maxScrollback: nat)
      requires w >= 2 && h >= 1
      ensures Valid() && View() == New(w, h, maxScrollback)
      ensures forall o :: o in Footprint() ==> fresh(o)
    {
      hide Buffers.Shown, Buffers.Stores, Buffers.Buffer.Valid, Fits, Framed, New, Owned;
      FramedNew(w, h, maxScrollback);
      var m, a := NewScreens(w, h, maxScrollback, []);
      main, alt, rest := m, a, New(w, h, maxScrollback);
      new;
      Buffers.ShownNone(main.scrollback);
    }

    /** Other fields beside the same screens. */
    method Put(r: T)
      requires Valid() && r.w == rest.w && r.h == rest.h && r.maxScrollback == rest.maxScrollback
      modifies this`rest
      ensures Valid() && rest == r && Footprint() == old(Footprint())
      ensures View() == Framed(r, old(main.Rows()), old(main.History()), old(alt.Rows()))
    {
      hide Buffers.Shown, Buffers.Stores, Framed, Owned;
      rest := r;
    }

    method Move(x: int, y: int, pending: bool)
      requires Valid() && 0 <= x < rest.w && 0 <= y < rest.h && (pending ==> x == rest.w - 1)
      modifies this`rest
      ensures Valid() && View() == SetCur(old(View()), x, y, pending) && Footprint() == old(Footprint())
      ensures rest == SetCur(old(rest), x, y, pending)
    {
      hide Buffers.Shown, Buffers.Stores, Framed, SetCur, Owned, Valid, Footprint;
      Separate();
      FramedCur(rest, main.Rows(), main.History(), alt.Rows(), x, y, pending);
      Put(SetCur(rest, x, y, pending));
    }

    method SetLastPrinted(r: Rune)
      requires Valid()
      modifies this`rest
      ensures Valid() && View() == old(View()).(lastPrinted := r) && Footprint() == old(Footprint())
    {
      hide Buffers.Shown, Buffers.Stores, Owned, Valid, Footprint;
      Separate();
      Put(rest.(lastPrinted := r));
    }

    function Page(): Buffers.Buffer
      reads this
    {
      if rest.altActive then alt else main
    }

    function Other(): Buffers.Buffer
      reads this
    {
      if rest.altActive then main else alt
    }

    /** The active screen's rows are in the footprint, apart from everything else. */
    lemma Separate()
      requires Valid()
      ensures var p, o := Page(), Other();
        && p != o && p.rows != o.rows && Sized(p) && Sized(o)
        && (forall a :: a in Buffers.Stores(p.rows[..]) ==>
          a in Footprint() && a !in Buffers.Stores(o.rows[..]) && a !in Buffers.Stores(main.scrollback) && a != o.blank && a != p.blank)
        && p in Footprint() && p.rows in Footprint() && Buffers.Apart(main.scrollback)
        && (forall a :: a in Owned(o) ==> allocated(a))
        && (forall a :: a in Buffers.Stores(main.scrollback) ==> allocated(a))
      ensures |main.Rows()| == |alt.Rows()| == rest.h && RowsFit(main.Rows(), rest.w) && RowsFit(alt.Rows(), rest.w)
    {
      Buffers.WideFits(main.rows[..], rest.w);
      Buffers.WideFits(alt.rows[..], rest.w);
      Buffers.OldStores(main.rows[..]);
      Buffers.OldStores(alt.rows[..]);
      Buffers.OldStores(main.scrollback);
    }

    lemma SeparateAlt()
      requires Valid()
      ensures forall a :: a in Buffers.Stores(alt.rows[..]) ==> a in Footprint() && a !in Buffers.Stores(main.rows[..]) && a !in Buffers.Stores(main.scrollback) && a != main.blank && a != alt.blank
      ensures forall a :: a in Owned(main) ==> allocated(a)
    {
      Buffers.OldStores(main.rows[..]);
      Buffers.OldStores(alt.rows[..]);
      Buffers.OldStores(main.scrollback);
    }

    lemma RowOf(y: nat)
      requires Valid() && y < rest.h
      ensures y < Page().rows.Length && Page().rows[y].cells in Buffers.Stores(Page().rows[..])
    {
      assert Page().rows[..][y] == Page().rows[y];
    }

    /** The cells at the cursor move right by n. */
    method InsertCells(n: nat)
      requires Valid()
      modifies Footprint()
      ensures Valid() && rest == old(rest)
      ensures View() == Terminal.InsertCells(old(View()), n)
      ensures forall o :: o in Footprint() ==> o in old(Footprint()) || fresh(o)
    {
      hide Buffers.Shown, Buffers.Stores, Buffers.Apart, Buffers.AllWide, Buffers.Buffer.BlankOk, Buffers.Buffer.Unshared, Framed, Fits, RowsFit, OpenRows, CloseRows, ClearRows;
      ghost var rows, sb, altRows := main.Rows(), main.History(), alt.Rows();
      var s := Active(rest);
      var p, o := Page(), Other();
      CursorIn(rest);
      Separate();
      RowOf(s.cur.y);
      p.InsertAt(s.cur.y, s.cur.x, n, rest.pen);
      assert o.Rows() == old(o.Rows()) && main.History() == sb;
      FramedLine(rest, rows, sb, altRows, InsertInLine(Shown(rest, rows, altRows)[s.cur.y].cells, s.cur.x, n, rest.pen));
    }

    /** The cells at the cursor move left by n. */
    method DeleteCells(n: nat)
      requires Valid()
      modifies Footprint()
      ensures Valid() && rest == old(rest)
      ensures View() == SetLine(old(View()), DeleteInLine(Line(old(View())), Active(old(View())).cur.x, n, old(View()).pen))
      ensures forall o :: o in Footprint() ==> o in old(Footprint()) || fresh(o)
    {
      hide Buffers.Shown, Buffers.Stores, Buffers.Apart, Buffers.AllWide, Buffers.Buffer.BlankOk, Buffers.Buffer.Unshared, Framed, Fits, RowsFit, OpenRows, CloseRows, ClearRows;
      ghost var rows, sb, altRows := main.Rows(), main.History(), alt.Rows();
      var s := Active(rest);
      var p, o := Page(), Other();
      CursorIn(rest);
      Separate();
      RowOf(s.cur.y);
      p.DeleteAt(s.cur.y, s.cur.x, n, rest.pen);
      assert o.Rows() == old(o.Rows()) && main.History() == sb;
      FramedLine(rest, rows, sb, altRows, DeleteInLine(Shown(rest, rows, altRows)[s.cur.y].cells, s.cur.x, n, rest.pen));
    }

    /** One cell of the cursor's row. */
    method Store(x: nat, c: Cell)
      requires Valid() && x < rest.w
      modifies Footprint()
      ensures Valid() && rest == old(rest)
      ensures View() == SetLine(old(View()), Line(old(View()))[x := c])
      ensures forall o :: o in Footprint() ==> o in old(Footprint()) || fresh(o)
    {
      hide Buffers.Shown, Buffers.Stores, Buffers.Apart, Buffers.AllWide, Buffers.Buffer.BlankOk, Buffers.Buffer.Unshared, Framed, Fits, RowsFit, OpenRows, CloseRows, ClearRows;
      ghost var rows, sb, altRows := main.Rows(), main.History(), alt.Rows();
      var s := Active(rest);
      var p, o := Page(), Other();
      CursorIn(rest);
      Separate();
      RowOf(s.cur.y);
      p.StoreAt(s.cur.y, x, c);
      assert o.Rows() == old(o.Rows()) && main.History() == sb;
      FramedLine(rest, rows, sb, altRows, Shown(rest, rows, altRows)[s.cur.y].cells[x := c]);
    }

    /** A character at the cursor. */
    method StoreChar(ch: seq<Rune>, width: int)
      requires Valid() && 1 <= width <= 2 && Active(rest).cur.x + width <= rest.w
      modifies Footprint()
      ensures Valid() && rest == old(rest)
      ensures View() == SetLine(old(View()), PlaceInLine(Line(old(View())), Active(old(View())).cur.x, ch, width, old(View()).pen, old(View()).link))
      ensures forall o :: o in Footprint() ==> o in old(Footprint()) || fresh(o)
    {
      hide Buffers.Shown, Buffers.Stores, Buffers.Apart, Buffers.AllWide, Buffers.Buffer.BlankOk, Buffers.Buffer.Unshared, Framed, Fits, RowsFit, OpenRows, CloseRows, ClearRows;
      ghost var rows, sb, altRows := main.Rows(), main.History(), alt.Rows();
      var s := Active(rest);
      var p, o := Page(), Other();
      CursorIn(rest);
      Separate();
      RowOf(s.cur.y);
      p.PlaceAt(s.cur.y, s.cur.x, ch, width, rest.pen, rest.link);
      assert o.Rows() == old(o.Rows()) && main.History() == sb;
      FramedLine(rest, rows, sb, altRows, PlaceInLine(Shown(rest, rows, altRows)[s.cur.y].cells, s.cur.x, ch, width, rest.pen, rest.link));
    }

    /** clearRow on the cursor's row. */
    method ClearLine(from: int, to: int)
      requires Valid()
      modifies Footprint()
      ensures Valid() && rest == old(rest)
      ensures View() == SetLine(old(View()), ClearCells(Line(old(View())), from, to, old(View()).pen))
      ensures forall o :: o in Footprint() ==> o in old(Footprint()) || fresh(o)
    {
      hide Buffers.Shown, Buffers.Stores, Buffers.Apart, Buffers.AllWide, Buffers.Buffer.BlankOk, Buffers.Buffer.Unshared, Framed, Fits, RowsFit, OpenRows, CloseRows, ClearRows, ScrollRows, PushAll;
      ghost var rows, sb, altRows := main.Rows(), main.History(), alt.Rows();
      var s := Active(rest);
      var p, o := Page(), Other();
      CursorIn(rest);
      Separate();
      RowOf(s.cur.y);
      p.ClearRowAt(s.cur.y, from, to, rest.pen);
      assert Owned(o) == old(Owned(o)) && forall a :: a in Owned(p) ==> a in old(Owned(p)) || fresh(a);
      assert o.Rows() == old(o.Rows()) && main.History() == sb;
      FramedLine(rest, rows, sb, altRows, ClearCells(Shown(rest, rows, altRows)[s.cur.y].cells, from, to, rest.pen));
    }

    /** row.clear on the cursor's row. */
    method ClearCellsOf(from: int, to: int)
      requires Valid()
      modifies Footprint()
      ensures Valid() && rest == old(rest)
      ensures View() == SetLine(old(View()), ClearCells(Line(old(View())), from, to, old(View()).pen))
      ensures forall o :: o in Footprint() ==> o in old(Footprint()) || fresh(o)
    {
      hide Buffers.Shown, Buffers.Stores, Buffers.Apart, Buffers.AllWide, Buffers.Buffer.BlankOk, Buffers.Buffer.Unshared, Framed, Fits, RowsFit, OpenRows, CloseRows, ClearRows, ScrollRows, PushAll;
      ghost var rows, sb, altRows := main.Rows(), main.History(), alt.Rows();
      var s := Active(rest);
      var p, o := Page(), Other();
      CursorIn(rest);
      Separate();
      RowOf(s.cur.y);
      p.ClearAt(s.cur.y, from, to, rest.pen);
      assert o.Rows() == old(o.Rows()) && main.History() == sb;
      FramedLine(rest, rows, sb, altRows, ClearCells(Shown(rest, rows, altRows)[s.cur.y].cells, from, to, rest.pen));
    }

    /** Rows [from, to) of the active screen erased. */
    method EraseLines(from: nat, to: nat, cached: bool)
      requires Valid() && from <= to <= rest.h
      modifies Footprint()
      ensures Valid() && rest == old(rest)
      ensures View() == SetRows(old(View()), ClearRows(Active(old(View())).rows, from, to, old(View()).w, old(View()).pen))
      ensures forall o :: o in Footprint() ==> o in old(Footprint()) || fresh(o)
    {
      hide Buffers.Shown, Buffers.Stores, Buffers.Apart, Buffers.AllWide, Buffers.Buffer.BlankOk, Buffers.Buffer.Unshared, Framed, Fits, RowsFit, OpenRows, CloseRows, ClearRows, ScrollRows, PushAll;
      ghost var rows, sb, altRows := main.Rows(), main.History(), alt.Rows();
      var s := Active(rest);
      var p, o := Page(), Other();
      CursorIn(rest);
      Separate();
      p.EraseRows(from, to, rest.pen, cached);
      assert Owned(o) == old(Owned(o)) && forall a :: a in Owned(p) ==> a in old(Owned(p)) || fresh(a);
      assert o.Rows() == old(o.Rows()) && main.History() == sb;
      ClearRowsFit(Shown(rest, rows, altRows), from, to, rest.w, rest.pen);
      FramedRows(rest, rows, sb, altRows, ClearRows(Shown(rest, rows, altRows), from, to, rest.w, rest.pen));
    }

    /** The wrapped mark of the cursor's row. */
    method MarkWrapped()
      requires Valid()
      modifies Footprint()
      ensures Valid() && rest == old(rest)
      ensures View() == SetRows(old(View()), Active(old(View())).rows[Active(old(View())).cur.y := Active(old(View())).rows[Active(old(View())).cur.y].(wrapped := true)])
      ensures forall o :: o in Footprint() ==> o in old(Footprint()) || fresh(o)
    {
      hide Buffers.Shown, Buffers.Stores, Buffers.Apart, Buffers.AllWide, Buffers.Buffer.BlankOk, Buffers.Buffer.Unshared, Framed, Fits, RowsFit, OpenRows, CloseRows, ClearRows, ScrollRows, PushAll;
      ghost var rows, sb, altRows := main.Rows(), main.History(), alt.Rows();
      var s := Active(rest);
      var p, o := Page(), Other();
      CursorIn(rest);
      Separate();
      p.MarkRow(s.cur.y, true);
      assert o.Rows() == old(o.Rows()) && main.History() == sb;
      FramedRows(rest, rows, sb, altRows, Shown(rest, rows, altRows)[s.cur.y := Shown(rest, rows, altRows)[s.cur.y].(wrapped := true)]);
    }

    /** Blank lines come in at row `at`; the region below moves down. */
    method OpenAt(at: nat, n: nat)
      requires Valid() && at <= Active(rest).bot && 1 <= n <= Active(rest).bot - at + 1
      modifies Footprint()
      ensures Valid() && rest == old(rest)
      ensures View() == SetRows(old(View()), OpenRows(Active(old(View())).rows, at, Active(old(View())).bot, n, old(View()).w, old(View()).pen))
      ensures forall o :: o in Footprint() ==> o in old(Footprint()) || fresh(o)
    {
      hide Buffers.Shown, Buffers.Stores, Buffers.Apart, Buffers.AllWide, Buffers.Buffer.BlankOk, Buffers.Buffer.Unshared, Framed, Fits, RowsFit, OpenRows, CloseRows, ClearRows, ScrollRows, PushAll;
      ghost var rows, sb, altRows := main.Rows(), main.History(), alt.Rows();
      var s := Active(rest);
      var p, o := Page(), Other();
      CursorIn(rest);
      Separate();
      p.OpenLines(at, s.bot, n, rest.pen);
      assert Owned(o) == old(Owned(o)) && forall a :: a in Owned(p) ==> a in old(Owned(p)) || fresh(a);
      assert o.Rows() == old(o.Rows()) && main.History() == sb;
      ShiftFits(Shown(rest, rows, altRows), at, s.bot, n, rest.w, rest.pen);
      FramedRows(rest, rows, sb, altRows, OpenRows(Shown(rest, rows, altRows), at, s.bot, n, rest.w, rest.pen));
    }

    /** Lines leave at row `at`; the region below moves up. */
    method CloseAt(at: nat, n: nat)
      requires Valid() && at <= Active(rest).bot && 1 <= n <= Active(rest).bot - at + 1
      modifies Footprint()
      ensures Valid() && rest == old(rest)
      ensures View() == SetRows(old(View()), CloseRows(Active(old(View())).rows, at, Active(old(View())).bot, n, old(View()).w, old(View()).pen))
      ensures forall o :: o in Footprint() ==> o in old(Footprint()) || fresh(o)
    {
      hide Buffers.Shown, Buffers.Stores, Buffers.Apart, Buffers.AllWide, Buffers.Buffer.BlankOk, Buffers.Buffer.Unshared, Framed, Fits, RowsFit, OpenRows, CloseRows, ClearRows, ScrollRows, PushAll;
      ghost var rows, sb, altRows := main.Rows(), main.History(), alt.Rows();
      var s := Active(rest);
      var p, o := Page(), Other();
      CursorIn(rest);
      Separate();
      p.CloseLines(at, s.bot, n, rest.pen);
      assert Owned(o) == old(Owned(o)) && forall a :: a in Owned(p) ==> a in old(Owned(p)) || fresh(a);
      assert o.Rows() == old(o.Rows()) && main.History() == sb;
      ShiftFits(Shown(rest, rows, altRows), at, s.bot, n, rest.w, rest.pen);
      FramedRows(rest, rows, sb, altRows, CloseRows(Shown(rest, rows, altRows), at, s.bot, n, rest.w, rest.pen));
    }

    /** scroll, keeping what a line feed drives off the main screen. */
    method ScrollBy(n: int, keep: bool)
      requires Valid()
      modifies Footprint()
      ensures Valid() && rest == old(rest)
      ensures View() == Scroll(old(View()), n, keep)
      ensures forall o :: o in Footprint() ==> o in old(Footprint()) || fresh(o)
    {
      hide Buffers.Shown, Buffers.Stores, Buffers.Apart, Buffers.AllWide, Buffers.Buffer.BlankOk, Buffers.Buffer.Unshared, Framed, Fits, RowsFit, ScrollRows, PushAll;
      ghost var rows, sb, altRows := main.Rows(), main.History(), alt.Rows();
      var s := Active(rest);
      var p, o := Page(), Other();
      CursorIn(rest);
      Separate();
      p.Scroll(s.top, s.bot, n, rest.pen, keep && !rest.altActive);
      assert Owned(o) == old(Owned(o)) && forall a :: a in Owned(p) ==> a in old(Owned(p)) || fresh(a);
      assert o.Rows() == old(o.Rows()) && (rest.altActive ==> main.History() == sb);
      FramedScroll(rest, rows, sb, altRows, n, keep);
    }

    /** ED 3. */
    method ForgetHistory()
      requires Valid()
      modifies Footprint()
      ensures Valid() && rest == old(rest) && Footprint() == old(Footprint())
      ensures View() == With(old(View()), Active(old(View())).(scrollback := []))
    {
      hide Buffers.Shown, Buffers.Stores, Buffers.Apart, Buffers.AllWide, Buffers.Buffer.BlankOk, Buffers.Buffer.Unshared, Framed, Fits, RowsFit, ScrollRows, PushAll;
      ghost var rows, sb, altRows := main.Rows(), main.History(), alt.Rows();
      var p, o := Page(), Other();
      Separate();
      p.Forget();
      Buffers.ShownNone(p.scrollback);
      assert Owned(o) == old(Owned(o)) && o.Rows() == old(o.Rows());
      FramedForget(rest, rows, sb, altRows);
    }

    /** DECALN's fill of the active screen. */
    method FillScreen(c: Cell)
      requires Valid()
      modifies Footprint()
      ensures Valid() && rest == old(rest) && Footprint() == old(Footprint())
      ensures RowsFit(Buffers.FilledRows(old(View()).h, old(View()).w, c), old(View()).w)
      ensures View() == SetRows(old(View()), Buffers.FilledRows(old(View()).h, old(View()).w, c))
    {
      hide Buffers.Shown, Buffers.Stores, Buffers.Apart, Buffers.AllWide, Buffers.Buffer.BlankOk, Buffers.Buffer.Unshared, Framed, Fits, RowsFit, ScrollRows, PushAll;
      ghost var rows, sb, altRows := main.Rows(), main.History(), alt.Rows();
      var p, o := Page(), Other();
      Separate();
      p.FillRows(c);
      assert Owned(o) == old(Owned(o)) && o.Rows() == old(o.Rows()) && main.History() == sb;
      FramedRows(rest, rows, sb, altRows, Buffers.FilledRows(rest.h, rest.w, c));
    }

    /** What the fields beside the screens say of the terminal. */
    lemma Sees()
      requires Valid()
      ensures var v := View();
        && v == v.(main := v.main, alt := v.alt) && v.w == rest.w && v.h == rest.h && v.altActive == rest.altActive
        && v.maxScrollback == rest.maxScrollback && v.pen == rest.pen && v.link == rest.link && v.lastPrinted == rest.lastPrinted
        && v.modes == rest.modes && v.title == rest.title && v.charsets == rest.charsets && v.tabStops == rest.tabStops
        && Active(v).cur == Active(rest).cur && Active(v).saved == Active(rest).saved
        && Active(v).top == Active(rest).top && Active(v).bot == Active(rest).bot
      ensures 0 <= Active(rest).cur.x < rest.w && 0 <= Active(rest).cur.y < rest.h
      ensures 0 <= Active(rest).top <= Active(rest).bot < rest.h
      ensures this in Footprint()
    {
    }

    /** lineFeed. */
    method LineFeed()
      requires Valid()
      modifies Footprint()
      ensures Valid() && View() == Terminal.LineFeed(old(View()))
      ensures forall o :: o in Footprint() ==> o in old(Footprint()) || fresh(o)
    {
      hide Valid, View, Footprint, Scroll;
      Sees();
      var s := Active(rest);
      Move(s.cur.x, s.cur.y, false);
      if s.cur.y == s.bot {
        ScrollBy(1, true);
      } else if s.cur.y < rest.h - 1 {
        Move(s.cur.x, s.cur.y + 1, false);
      }
    }

    /** reverseIndex. */
    method ReverseIndex()
      requires Valid()
      modifies Footprint()
      ensures Valid() && View() == Terminal.ReverseIndex(old(View()))
      ensures forall o :: o in Footprint() ==> o in old(Footprint()) || fresh(o)
    {
      hide Valid, View, Footprint, ScrollDown;
      Sees();
      var s := Active(rest);
      Move(s.cur.x, s.cur.y, false);
      if s.cur.y == s.top {
        ScrollDownBy(1);
      } else if s.cur.y > 0 {
        Move(s.cur.x, s.cur.y - 1, false);
      }
    }

    /** scrollDown. */
    method ScrollDownBy(n: int)
      requires Valid()
      modifies Footprint()
      ensures Valid() && View() == ScrollDown(old(View()), n)
      ensures forall o :: o in Footprint() ==> o in old(Footprint()) || fresh(o)
    {
      hide Valid, View, Footprint, SetRows, OpenRows;
      Sees();
      var s := Active(rest);
      if n > 0 {
        OpenAt(s.top, if n > s.bot - s.top + 1 then s.bot - s.top + 1 else n);
      }
    }

    /** insertLines. */
    method InsertLines(n: nat)
      requires Valid() && n >= 1
      modifies Footprint()
      ensures Valid() && View() == Terminal.InsertLines(old(View()), n)
      ensures forall o :: o in Footprint() ==> o in old(Footprint()) || fresh(o)
    {
      hide Valid, View, Footprint, SetRows, OpenRows, SetCur;
      Sees();
      var s := Active(rest);
      if s.cur.y < s.top || s.cur.y > s.bot {
        return;
      }
      OpenAt(s.cur.y, if n > s.bot - s.cur.y + 1 then s.bot - s.cur.y + 1 else n);
      Move(0, s.cur.y, false);
    }

    /** deleteLines. */
    method DeleteLines(n: nat)
      requires Valid() && n >= 1
      modifies Footprint()
      ensures Valid() && View() == Terminal.DeleteLines(old(View()), n)
      ensures forall o :: o in Footprint() ==> o in old(Footprint()) || fresh(o)
    {
      hide Valid, View, Footprint, SetRows, CloseRows, SetCur;
      Sees();
      var s := Active(rest);
      if s.cur.y < s.top || s.cur.y > s.bot {
        return;
      }
      CloseAt(s.cur.y, if n > s.bot - s.cur.y + 1 then s.bot - s.cur.y + 1 else n);
      Move(0, s.cur.y, false);
    }

    /** wrapToNextLine. */
    method WrapToNextLine()
      requires Valid()
      modifies Footprint()
      ensures Valid() && View() == Terminal.WrapToNextLine(old(View()))
      ensures forall o :: o in Footprint() ==> o in old(Footprint()) || fresh(o)
    {
      hide Valid, View, Footprint, SetRows, Terminal.LineFeed, SetCur;
      Sees();
      Move(0, Active(rest).cur.y, false);
      LineFeed();
      MarkWrapped();
    }

    /** What the cursor's row holds. */
    lemma SeesLine()
      requires Valid()
      ensures var p, y := Page(), Active(rest).cur.y;
        && y < p.rows.Length && p.rows[y].cells.Length == rest.w
        && Line(View()) == p.rows[y].cells[..]
    {
      Buffers.WideFits(Page().rows[..], rest.w);
      assert Page().rows[..][Active(rest).cur.y] == Page().rows[Active(rest).cur.y];
    }

    /** combine. */
    method Combine(r: Rune)
      requires Valid()
      modifies Footprint()
      ensures Valid() && View() == Terminal.Combine(old(View()), r)
      ensures forall o :: o in Footprint() ==> o in old(Footprint()) || fresh(o)
    {
      hide Valid, View, Footprint, SetLine, Line;
      Sees();
      SeesLine();
      var s := Active(rest);
      var x := s.cur.x;
      if s.cur.pendingWrap {
        x := rest.w - 1;
      } else if x > 0 {
        x := x - 1;
      } else {
        return;
      }
      var cells := Page().rows[s.cur.y].cells;
      if cells[x].width == 0 && x > 0 {
        x := x - 1;
      }
      var c := cells[x];
      if c.ch == [] {
        if c.width != 1 {
          return;
        }
        c := c.(ch := [0x20]);
      }
      Store(x, c.(ch := c.ch + [r]));
    }

    /** A pending wrap takes effect. */
    method TakeWrap()
      requires Valid()
      modifies Footprint()
      ensures Valid() && View() == Terminal.TakeWrap(old(View()))
      ensures forall o :: o in Footprint() ==> o in old(Footprint()) || fresh(o)
    {
      hide Valid, View, Footprint, Terminal.WrapToNextLine, SetCur;
      Sees();
      var s := Active(rest);
      if s.cur.pendingWrap {
        if rest.modes.autowrap {
          WrapToNextLine();
        } else {
          Move(rest.w - 1, s.cur.y, false);
        }
      }
    }

    /** A wide character that does not fit wraps whole. */
    method MakeRoom(width: int)
      requires Valid() && 1 <= width <= 2 && !Active(rest).cur.pendingWrap
      modifies Footprint()
      ensures Valid() && View() == Terminal.MakeRoom(old(View()), width) && !Active(old(View())).cur.pendingWrap
      ensures forall o :: o in Footprint() ==> o in old(Footprint()) || fresh(o)
    {
      hide Valid, View, Footprint, Terminal.WrapToNextLine, SetCur, SetLine, Line;
      Sees();
      var s := Active(rest);
      if width == 2 && s.cur.x == rest.w - 1 {
        if rest.modes.autowrap {
          Store(s.cur.x, Blank(rest.pen));
          WrapToNextLine();
        } else {
          Move(rest.w - 2, s.cur.y, false);
        }
      }
    }

    /** The character goes in at the cursor, which moves on. */
    method Place(g: Rune, width: int)
      requires Valid() && 1 <= width <= 2 && Active(rest).cur.x + width <= rest.w && !Active(rest).cur.pendingWrap
      modifies Footprint()
      ensures Valid() && View() == Terminal.Place(old(View()), g, width) && Active(old(View())).cur.x + width <= old(View()).w && !Active(old(View())).cur.pendingWrap
      ensures forall o :: o in Footprint() ==> o in old(Footprint()) || fresh(o)
    {
      hide Valid, View, Footprint, SetCur, SetLine, Line, PlaceInLine;
      Sees();
      var s := Active(rest);
      StoreChar(if g == 0x20 then [] else [g], width);
      if s.cur.x + width >= rest.w {
        Move(rest.w - 1, s.cur.y, true);
      } else {
        Move(s.cur.x + width, s.cur.y, false);
      }
    }

    /** print. */
    method Print(r: Rune)
      requires Valid()
      modifies Footprint()
      ensures Valid() && View() == PrintRune(old(View()), r)
      ensures forall o :: o in Footprint() ==> o in old(Footprint()) || fresh(o)
    {
      hide Valid, View, Footprint, Terminal.Combine, Terminal.TakeWrap, Terminal.MakeRoom, Terminal.InsertCells, Terminal.Place, Translate, RuneWidth;
      Sees();
      var g := Translate(rest.charsets, r);
      var width := RuneWidth(g);
      if width == 0 {
        Combine(g);
        return;
      }
      SetLastPrinted(g);
      TakeWrap();
      Sees();
      MakeRoom(width);
      Sees();
      if rest.modes.insert {
        InsertCells(width);
        Sees();
      }
      Place(g, width);
    }

    /** eraseInLine. */
    method EraseInLine(mode: int)
      requires Valid()
      modifies Footprint()
      ensures Valid() && View() == Terminal.EraseInLine(old(View()), mode) && rest == old(rest)
      ensures forall o :: o in Footprint() ==> o in old(Footprint()) || fresh(o)
    {
      hide Valid, View, Footprint, SetLine, Line, ClearCells;
      Sees();
      SeesLine();
      var s := Active(rest);
      if mode == 0 {
        ClearLine(s.cur.x, rest.w);
      } else if mode == 1 {
        var end := s.cur.x + 1;
        // Erasing the first half of a wide character clears both halves.
        if end < rest.w && Page().rows[s.cur.y].cells[end].width == 0 {
          end := end + 1;
        }
        ClearCellsOf(0, end);
      } else if mode == 2 {
        ClearLine(0, rest.w);
      }
    }

    /** eraseInDisplay. */
    method EraseInDisplay(mode: int)
      requires Valid()
      modifies Footprint()
      ensures Valid() && View() == Terminal.EraseInDisplay(old(View()), mode)
      ensures forall o :: o in Footprint() ==> o in old(Footprint()) || fresh(o)
    {
      hide Valid, View, Footprint, Terminal.EraseInLine, SetRows, ClearRows;
      Sees();
      var s := Active(rest);
      if mode == 0 {
        EraseInLine(0);
        Sees();
        EraseLines(s.cur.y + 1, rest.h, false);
      } else if mode == 1 {
        EraseLines(0, s.cur.y, false);
        EraseInLine(1);
      } else if mode == 2 {
        EraseLines(0, rest.h, true);
      } else if mode == 3 {
        ForgetHistory();
      }
    }

    /** eraseChars. */
    method EraseChars(n: nat)
      requires Valid()
      modifies Footprint()
      ensures Valid() && View() == Terminal.EraseChars(old(View()), n)
      ensures forall o :: o in Footprint() ==> o in old(Footprint()) || fresh(o)
    {
      hide Valid, View, Footprint, SetCur, SetLine, Line, ClearCells;
      Sees();
      var s := Active(rest);
      var end := if s.cur.x + n > rest.w then rest.w else s.cur.x + n;
      ClearClipped(Line(View()), s.cur.x, n, rest.pen);
      ClearCellsOf(s.cur.x, end);
      Move(s.cur.x, s.cur.y, false);
    }

    /** deleteChars. */
    method DeleteChars(n: nat)
      requires Valid()
      modifies Footprint()
      ensures Valid() && View() == Terminal.DeleteChars(old(View()), n)
      ensures forall o :: o in Footprint() ==> o in old(Footprint()) || fresh(o)
    {
      hide Valid, View, Footprint, SetCur, SetLine, Line, DeleteInLine;
      Sees();
      var s := Active(rest);
      DeleteCells(n);
      Move(s.cur.x, s.cur.y, false);
    }

    /** ICH. */
    method InsertBlanks(n: nat)
      requires Valid()
      modifies Footprint()
      ensures Valid() && View() == (var t := Terminal.InsertCells(old(View()), n); SetCur(t, Active(t).cur.x, Active(t).cur.y, false))
      ensures forall o :: o in Footprint() ==> o in old(Footprint()) || fresh(o)
    {
      hide Valid, View, Footprint, SetCur, Terminal.InsertCells;
      Sees();
      InsertCells(n);
      Sees();
      Move(Active(rest).cur.x, Active(rest).cur.y, false);
    }

    /** REP. */
    method Repeat(r: Rune, n: nat)
      requires Valid()
      modifies Footprint()
      ensures Valid() && View() == Terminal.Repeat(old(View()), r, n)
      ensures forall o :: o in Footprint() ==> o in old(Footprint()) || fresh(o)
    {
      hide Valid, View, Footprint, PrintRune;
      Sees();
      ghost var before, fp := View(), Footprint();
      for i := 0 to n
        invariant Valid() && Terminal.Repeat(View(), r, n - i) == Terminal.Repeat(before, r, n)
        invariant forall o :: o in Footprint() ==> o in fp || fresh(o)
      {
        Print(r);
      }
    }

    /** moveCursor. */
    method MoveCursor(x0: int, y0: int)
      requires Valid()
      modifies Footprint()
      ensures Valid() && View() == Terminal.MoveCursor(old(View()), x0, y0) && Footprint() == old(Footprint()) && rest == Terminal.MoveCursor(old(rest), x0, y0)
      ensures forall o :: o in Footprint() ==> o in old(Footprint()) || fresh(o)
    {
      hide Valid, View, Footprint, SetCur;
      Sees();
      var s := Active(rest);
      var minY, maxY := 0, rest.h - 1;
      if rest.modes.origin {
        minY, maxY := s.top, s.bot;
      }
      var x, y := x0, y0;
      if y < minY {
        y := minY;
      }
      if y > maxY {
        y := maxY;
      }
      if x < 0 {
        x := 0;
      }
      if x > rest.w - 1 {
        x := rest.w - 1;
      }
      Move(x, y, false);
    }

    /** A column of the cursor's row. */
    method SetColumn(x0: int)
      requires Valid()
      modifies Footprint()
      ensures Valid() && View() == Terminal.SetColumn(old(View()), x0)
      ensures forall o :: o in Footprint() ==> o in old(Footprint()) || fresh(o)
    {
      hide Valid, View, Footprint, SetCur;
      Sees();
      var x := x0;
      if x > rest.w - 1 {
        x := rest.w - 1;
      }
      if x < 0 {
        x := 0;
      }
      Move(x, Active(rest).cur.y, false);
    }

    /** cursorUp. */
    method CursorUp(n: nat)
      requires Valid()
      modifies Footprint()
      ensures Valid() && View() == Terminal.CursorUp(old(View()), n)
      ensures forall o :: o in Footprint() ==> o in old(Footprint()) || fresh(o)
    {
      hide Valid, View, Footprint, SetCur;
      Sees();
      var s := Active(rest);
      var limit := 0;
      if s.cur.y >= s.top {
        limit := s.top;
      }
      var y := s.cur.y - n;
      if y < limit {
        y := limit;
      }
      Move(s.cur.x, y, false);
    }

    /** cursorDown. */
    method CursorDown(n: nat)
      requires Valid()
      modifies Footprint()
      ensures Valid() && View() == Terminal.CursorDown(old(View()), n)
      ensures forall o :: o in Footprint() ==> o in old(Footprint()) || fresh(o)
    {
      hide Valid, View, Footprint, SetCur;
      Sees();
      var s := Active(rest);
      var limit := rest.h - 1;
      if s.cur.y <= s.bot {
        limit := s.bot;
      }
      var y := s.cur.y + n;
      if y > limit {
        y := limit;
      }
      Move(s.cur.x, y, false);
    }

    /** tabForward. */
    method TabForward(n: nat)
      requires Valid()
      modifies Footprint()
      ensures Valid() && View() == Terminal.TabForward(old(View()), n)
      ensures forall o :: o in Footprint() ==> o in old(Footprint()) || fresh(o)
    {
      hide Valid, View, Footprint, SetCur;
      Sees();
      var x, stops := Active(rest).cur.x, rest.tabStops;
      for i := 0 to n
        invariant 0 <= x < rest.w
        invariant StopsForward(stops, x, n - i) == StopsForward(stops, Active(rest).cur.x, n)
      {
        ghost var from := x + 1;
        x := x + 1;
        while x < rest.w && !stops[x]
          invariant 0 < x <= rest.w && StopFrom(stops, x) == StopFrom(stops, from)
        {
          x := x + 1;
        }
        if x >= rest.w {
          x := rest.w - 1;
        }
      }
      Move(x, Active(rest).cur.y, false);
    }

    /** tabBackward. */
    method TabBackward(n: nat)
      requires Valid()
      modifies Footprint()
      ensures Valid() && View() == Terminal.TabBackward(old(View()), n)
      ensures forall o :: o in Footprint() ==> o in old(Footprint()) || fresh(o)
    {
      hide Valid, View, Footprint, SetCur;
      Sees();
      var x, stops := Active(rest).cur.x, rest.tabStops;
      for i := 0 to n
        invariant 0 <= x < rest.w
        invariant StopsBackward(stops, x, n - i) == StopsBackward(stops, Active(rest).cur.x, n)
      {
        ghost var from := x - 1;
        x := x - 1;
        while x > 0 && !stops[x]
          invariant -1 <= x < rest.w && StopUpTo(stops, x) == StopUpTo(stops, from)
        {
          x := x - 1;
        }
        if x < 0 {
          x := 0;
        }
      }
      Move(x, Active(rest).cur.y, false);
    }

    /** The pen, the link, and the fields that say how bytes are read. */
    method SetFields(pen: Style, link: seq<byte>, charsets: Charsets, modes: Modes)
      requires Valid() && 0 <= charsets.gl <= 1
      modifies this`rest
      ensures Valid() && View() == old(View()).(pen := pen, link := link, charsets := charsets, modes := modes) && Footprint() == old(Footprint())
      ensures rest == old(rest).(pen := pen, link := link, charsets := charsets, modes := modes)
    {
      hide Buffers.Shown, Buffers.Stores, Owned, Valid, Footprint;
      Separate();
      Put(rest.(pen := pen, link := link, charsets := charsets, modes := modes));
    }

    /** The title and the tab stops. */
    method SetTitle(title: seq<byte>, tabStops: seq<bool>)
      requires Valid() && |tabStops| == rest.w
      modifies this`rest
      ensures Valid() && View() == old(View()).(title := title, tabStops := tabStops) && Footprint() == old(Footprint())
      ensures rest == old(rest).(title := title, tabStops := tabStops)
    {
      hide Buffers.Shown, Buffers.Stores, Owned, Valid, Footprint;
      Separate();
      Put(rest.(title := title, tabStops := tabStops));
    }

    /** The saved cursor of the active screen. */
    method SetSaved(saved: Saved)
      requires Valid() && 0 <= saved.x < rest.w && 0 <= saved.y < rest.h && 0 <= saved.charsets.gl <= 1
      modifies this`rest
      ensures Valid() && View() == With(old(View()), Active(old(View())).(saved := saved)) && Footprint() == old(Footprint())
      ensures rest == With(old(rest), Active(old(rest)).(saved := saved))
    {
      hide Buffers.Shown, Buffers.Stores, Owned, Valid, Footprint;
      Separate();
      Put(With(rest, Active(rest).(saved := saved)));
    }

    /** The scroll region of the active screen. */
    method SetMargins(top: int, bot: int)
      requires Valid() && 0 <= top <= bot < rest.h && (top < bot || (top == 0 && bot == rest.h - 1))
      modifies this`rest
      ensures Valid() && View() == With(old(View()), Active(old(View())).(top := top, bot := bot)) && Footprint() == old(Footprint())
      ensures rest == With(old(rest), Active(old(rest)).(top := top, bot := bot))
    {
      hide Buffers.Shown, Buffers.Stores, Owned, Valid, Footprint;
      Separate();
      Put(With(rest, Active(rest).(top := top, bot := bot)));
    }

    /** saveCursor. */
    method SaveCursor()
      requires Valid()
      modifies Footprint()
      ensures Valid() && View() == Terminal.SaveCursor(old(View())) && Footprint() == old(Footprint()) && rest == Terminal.SaveCursor(old(rest))
      ensures forall o :: o in Footprint() ==> o in old(Footprint()) || fresh(o)
    {
      hide Valid, View, Footprint;
      Sees();
      var s := Active(rest);
      SetSaved(Saved(s.cur.x, s.cur.y, rest.pen, rest.link, rest.charsets, rest.modes.origin, true));
    }

    /** restoreCursor. */
    method RestoreCursor()
      requires Valid()
      modifies Footprint()
      ensures Valid() && View() == Terminal.RestoreCursor(old(View()))
      ensures forall o :: o in Footprint() ==> o in old(Footprint()) || fresh(o)
    {
      hide Valid, View, Footprint, Terminal.MoveCursor, SetCur;
      Sees();
      var saved := Active(rest).saved;
      if !saved.valid {
        MoveCursor(0, 0);
        Sees();
        SetFields(PLAIN, [], rest.charsets, rest.modes);
        return;
      }
      SavedIn(rest);
      SetFields(saved.pen, saved.link, saved.charsets, rest.modes.(origin := saved.origin));
      Move(saved.x, saved.y, false);
    }

    /** enterAltScreen, from the main screen: the alternate one is cleared and takes the cursor. */
    method ShowAlt()
      requires Valid() && !rest.altActive
      modifies Footprint()
      ensures Valid() && View() == EnterAlt(old(View()), false)
      ensures forall o :: o in Footprint() ==> o in old(Footprint()) || fresh(o)
    {
      hide Buffers.Shown, Buffers.Stores, Buffers.Apart, Buffers.AllWide, Buffers.Buffer.BlankOk, Buffers.Buffer.Unshared, Framed, Fits, RowsFit, ClearRows, EnterAlt;
      ghost var rows, sb, altRows := main.Rows(), main.History(), alt.Rows();
      Separate();
      SeparateAlt();
      alt.EraseRows(0, rest.h, rest.pen, false);
      assert Owned(main) == old(Owned(main)) && forall a :: a in Owned(alt) ==> a in old(Owned(alt)) || fresh(a);
      assert main.Rows() == rows && main.History() == sb;
      FramedEnter(rest, rows, sb, altRows);
      rest := EnterAlt(rest, false);
    }

    /** leaveAltScreen, without the saved cursor. */
    method ShowMain()
      requires Valid() && rest.altActive
      modifies this`rest
      ensures Valid() && View() == LeaveAlt(old(View()), false) && Footprint() == old(Footprint())
    {
      hide Buffers.Shown, Buffers.Stores, Owned, Valid, Footprint, LeaveAlt, Framed;
      Separate();
      FramedLeave(rest, main.Rows(), main.History(), alt.Rows());
      Put(LeaveAlt(rest, false));
    }

    /** enterAltScreen. */
    method EnterAltScreen(save: bool)
      requires Valid()
      modifies Footprint()
      ensures Valid() && View() == EnterAlt(old(View()), save)
      ensures forall o :: o in Footprint() ==> o in old(Footprint()) || fresh(o)
    {
      hide Valid, View, Footprint;
      Sees();
      if rest.altActive {
        return;
      }
      if save {
        SaveCursor();
        Sees();
      }
      ShowAlt();
    }

    /** leaveAltScreen. */
    method LeaveAltScreen(restore: bool)
      requires Valid()
      modifies Footprint()
      ensures Valid() && View() == LeaveAlt(old(View()), restore)
      ensures forall o :: o in Footprint() ==> o in old(Footprint()) || fresh(o)
    {
      hide Valid, View, Footprint, Terminal.RestoreCursor;
      Sees();
      if !rest.altActive {
        return;
      }
      ShowMain();
      if restore {
        RestoreCursor();
      }
    }

    /** softReset. */
    method SoftReset()
      requires Valid()
      modifies Footprint()
      ensures Valid() && View() == Terminal.SoftReset(old(View()))
      ensures forall o :: o in Footprint() ==> o in old(Footprint()) || fresh(o)
    {
      hide Valid, View, Footprint;
      Sees();
      var m := rest.modes;
      SetFields(PLAIN, [], ASCII_SETS, m.(cursorVisible := true, origin := false, autowrap := true, insert := false, cursorKeys := false));
      Sees();
      SetMargins(0, rest.h - 1);
      SetSaved(NO_SAVED);
      Sees();
      Move(Active(rest).cur.x, Active(rest).cur.y, false);
    }

    /** fullReset: new screens; the scrollback, the title and the last printed rune survive. */
    method FullReset()
      requires Valid()
      modifies Footprint()
      ensures Valid() && View() == Terminal.FullReset(old(View()))
      ensures forall o :: o in Footprint() ==> o in old(Footprint()) || fresh(o)
    {
      hide Buffers.Shown, Buffers.Stores, Buffers.Buffer.BlankOk, Buffers.Buffer.Unshared, Buffers.AllWide, Fits, Framed, Renewed, RowsFit;
      ghost var rows, sb, altRows := main.Rows(), main.History(), alt.Rows();
      Separate();
      FramedReset(rest, rows, sb, altRows);
      var m, a := NewScreens(rest.w, rest.h, rest.maxScrollback, main.scrollback);
      main, alt, rest := m, a, Renewed(rest);
      assert main.History() == sb;
    }

    /** DECALN. */
    method Align()
      requires Valid()
      modifies Footprint()
      ensures Valid() && View() == Terminal.Align(old(View()))
      ensures forall o :: o in Footprint() ==> o in old(Footprint()) || fresh(o)
    {
      hide Valid, View, Footprint, Terminal.MoveCursor, Terminal.Align, SetRows, Buffers.FilledRows;
      Sees();
      AlignIs(View());
      FillScreen(Cell(['E' as int], 1, PLAIN, []));
      Sees();
      SetMargins(0, rest.h - 1);
      MoveCursor(0, 0);
    }
  }

  /** newScreen, twice: blank rows of their own, and a scrollback for the main one. */
  method NewScreens(w: nat, h: nat, max: nat, scrollback: seq<Buffers.Line>) returns (m: Buffers.Buffer, a: Buffers.Buffer)
    requires Buffers.Apart(scrollback)
    ensures fresh(m) && fresh(a) && fresh(m.rows) && fresh(a.rows) && m != a && m.rows != a.rows && Owned(m) !! Owned(a)
    ensures m.Valid() && m.w == w && m.rows.Length == h && m.max == max && m.scrollback == scrollback
    ensures a.Valid() && a.w == w && a.rows.Length == h && a.scrollback == []
    ensures m.Rows() == BlankRows(h, w, PLAIN) && a.Rows() == BlankRows(h, w, PLAIN)
    ensures forall c :: c in Buffers.Stores(m.rows[..]) ==> fresh(c)
    ensures forall c :: c in Buffers.Stores(a.rows[..]) ==> fresh(c)
  {
    hide Buffers.Shown, Buffers.Stores, Buffers.Apart, Buffers.AllWide, Buffers.Buffer.BlankOk;
    Buffers.OldStores(scrollback);
    m := new Buffers.Buffer(w, h, max, scrollback);
    Buffers.OldStores(m.rows[..]);
    ghost var blanks, owned := m.Rows(), Owned(m);
    assert forall c :: c in owned ==> allocated(c);
    Buffers.ShownNone([]);
    a := new Buffers.Buffer(w, h, 0, []);
    assert m.Rows() == blanks && Owned(m) == owned;
  }

  /** The rows on the active screen. */
  function Shown(t: T, rows: seq<Row>, altRows: seq<Row>): seq<Row> { if t.altActive then altRows else rows }

  lemma CursorIn(t: T)
    ensures var s := Active(t); 0 <= s.cur.x < t.w && 0 <= s.cur.y < t.h && 0 <= s.top <= s.bot < t.h
  {
  }

  lemma FramedNew(w: nat, h: nat, max: nat)
    requires w >= 2 && h >= 1
    ensures New(w, h, max).w == w && New(w, h, max).h == h && New(w, h, max).maxScrollback == max
    ensures RowsFit(BlankRows(h, w, PLAIN), w)
    ensures Framed(New(w, h, max), BlankRows(h, w, PLAIN), [], BlankRows(h, w, PLAIN)) == New(w, h, max)
  {
  }

  lemma FramedRows(t: T, rows: seq<Row>, sb: seq<Row>, alt: seq<Row>, r: seq<Row>)
    requires |rows| == |alt| == |r| == t.h && RowsFit(rows, t.w) && RowsFit(alt, t.w) && RowsFit(r, t.w)
    ensures var f := Framed(t, rows, sb, alt);
      && f.w == t.w && f.h == t.h && f.pen == t.pen && Active(f).rows == Shown(t, rows, alt) && RowsFit(Active(f).rows, t.w)
      && Active(f).cur == Active(t).cur && Active(f).top == Active(t).top && Active(f).bot == Active(t).bot
      && SetRows(f, r) == if t.altActive then Framed(t, rows, sb, r) else Framed(t, r, sb, alt)
  {
  }

  lemma ClearRowsFit(rows: seq<Row>, from: int, to: int, w: nat, pen: Style)
    requires RowsFit(rows, w)
    ensures |ClearRows(rows, from, to, w, pen)| == |rows| && RowsFit(ClearRows(rows, from, to, w, pen), w)
  {
  }

  lemma ShiftFits(rows: seq<Row>, at: int, bot: int, n: int, w: nat, pen: Style)
    requires 0 <= at <= bot < |rows| && 1 <= n <= bot - at + 1 && RowsFit(rows, w)
    ensures |OpenRows(rows, at, bot, n, w, pen)| == |rows| && RowsFit(OpenRows(rows, at, bot, n, w, pen), w)
    ensures |CloseRows(rows, at, bot, n, w, pen)| == |rows| && RowsFit(CloseRows(rows, at, bot, n, w, pen), w)
  {
  }

  lemma FramedScroll(t: T, rows: seq<Row>, sb: seq<Row>, alt: seq<Row>, n: int, keep: bool)
    requires |rows| == |alt| == t.h && RowsFit(rows, t.w) && RowsFit(alt, t.w)
    ensures var s := Active(t); var was := Shown(t, rows, alt); var k := Min(n, s.bot - s.top + 1);
      Scroll(Framed(t, rows, sb, alt), n, keep) ==
        if n <= 0 then Framed(t, rows, sb, alt)
        else if t.altActive then Framed(t, rows, sb, ScrollRows(was, s.top, s.bot, k, t.w, t.pen))
        else Framed(t, ScrollRows(was, s.top, s.bot, k, t.w, t.pen),
                    if keep && s.top == 0 then PushAll(sb, was[..k], t.maxScrollback) else sb, alt)
  {
    hide PushAll;
  }

  lemma FramedForget(t: T, rows: seq<Row>, sb: seq<Row>, alt: seq<Row>)
    requires |rows| == |alt| == t.h && RowsFit(rows, t.w) && RowsFit(alt, t.w)
    ensures var f := Framed(t, rows, sb, alt);
      With(f, Active(f).(scrollback := [])) == if t.altActive then f else Framed(t, rows, [], alt)
  {
  }

  lemma ClearClipped(cells: seq<Cell>, x: int, n: nat, pen: Style)
    ensures ClearCells(cells, x, Min(x + n, |cells|), pen) == ClearCells(cells, x, x + n, pen)
  {
    var a, b := ClearCells(cells, x, Min(x + n, |cells|), pen), ClearCells(cells, x, x + n, pen);
    assert |a| == |b|;
  }

  lemma SavedIn(t: T)
    ensures var s := Active(t).saved; 0 <= s.x < t.w && 0 <= s.y < t.h && 0 <= s.charsets.gl <= 1
  {
  }

  lemma FramedEnter(t: T, rows: seq<Row>, sb: seq<Row>, alt: seq<Row>)
    requires |rows| == |alt| == t.h && RowsFit(rows, t.w) && RowsFit(alt, t.w) && !t.altActive
    ensures var e := EnterAlt(t, false); e.w == t.w && e.h == t.h && e.maxScrollback == t.maxScrollback
    ensures |ClearRows(alt, 0, t.h, t.w, t.pen)| == t.h && RowsFit(ClearRows(alt, 0, t.h, t.w, t.pen), t.w)
    ensures EnterAlt(Framed(t, rows, sb, alt), false)
      == Framed(EnterAlt(t, false), rows, sb, ClearRows(alt, 0, t.h, t.w, t.pen))
  {
  }

  lemma FramedLeave(t: T, rows: seq<Row>, sb: seq<Row>, alt: seq<Row>)
    requires |rows| == |alt| == t.h && RowsFit(rows, t.w) && RowsFit(alt, t.w) && t.altActive
    ensures var e := LeaveAlt(t, false); e.w == t.w && e.h == t.h && e.maxScrollback == t.maxScrollback
    ensures LeaveAlt(Framed(t, rows, sb, alt), false) == Framed(LeaveAlt(t, false), rows, sb, alt)
  {
  }

  /** The fields a full reset leaves. */
  function Renewed(t: T): T { New(t.w, t.h, t.maxScrollback).(title := t.title, lastPrinted := t.lastPrinted) }

  lemma FramedReset(t: T, rows: seq<Row>, sb: seq<Row>, alt: seq<Row>)
    requires |rows| == |alt| == t.h && RowsFit(rows, t.w) && RowsFit(alt, t.w)
    ensures t.w >= 2 && t.h >= 1
    ensures Renewed(t).w == t.w && Renewed(t).h == t.h && Renewed(t).maxScrollback == t.maxScrollback
    ensures var blanks := BlankRows(t.h, t.w, PLAIN);
      RowsFit(blanks, t.w) && Terminal.FullReset(Framed(t, rows, sb, alt)) == Framed(Renewed(t), blanks, sb, blanks)
  {
  }

  lemma AlignIs(t: T)
    ensures RowsFit(Buffers.FilledRows(t.h, t.w, Cell(['E' as int], 1, PLAIN, [])), t.w)
    ensures var f := SetRows(t, Buffers.FilledRows(t.h, t.w, Cell(['E' as int], 1, PLAIN, [])));
      Terminal.Align(t) == Terminal.MoveCursor(With(f, Active(f).(top := 0, bot := t.h - 1)), 0, 0)
  {
    var e := Cell(['E' as int], 1, PLAIN, []);
    var rows := seq(t.h, i => Row(seq(t.w, i => Cell(['E' as int], 1, PLAIN, [])), false));
    var want := Buffers.FilledRows(t.h, t.w, e);
    forall y | 0 <= y < t.h ensures rows[y] == want[y] {
      assert rows[y].cells == Buffers.Filled(t.w, e);
    }
    assert rows == want;
  }

  lemma FramedLine(t: T, rows: seq<Row>, sb: seq<Row>, alt: seq<Row>, cells: seq<Cell>)
    requires |rows| == |alt| == t.h && RowsFit(rows, t.w) && RowsFit(alt, t.w) && |cells| == t.w
    ensures var y := Active(t).cur.y; var was := Shown(t, rows, alt);
      && Active(Framed(t, rows, sb, alt)).cur == Active(t).cur
      && Line(Framed(t, rows, sb, alt)) == was[y].cells
      && Framed(t, rows, sb, alt).pen == t.pen && Framed(t, rows, sb, alt).link == t.link
      && SetLine(Framed(t, rows, sb, alt), cells) ==
        if t.altActive then Framed(t, rows, sb, Buffers.WithCells(alt, y, cells))
        else Framed(t, Buffers.WithCells(rows, y, cells), sb, alt)
  {
  }

  lemma FramedCur(t: T, rows: seq<Row>, sb: seq<Row>, alt: seq<Row>, x: int, y: int, pending: bool)
    requires |rows| == |alt| == t.h && RowsFit(rows, t.w) && RowsFit(alt, t.w)
    requires 0 <= x < t.w && 0 <= y < t.h && (pending ==> x == t.w - 1)
    ensures SetCur(Framed(t, rows, sb, alt), x, y, pending) == Framed(SetCur(t, x, y, pending), rows, sb, alt)
    ensures SetCur(t, x, y, pending).w == t.w && SetCur(t, x, y, pending).h == t.h
    ensures SetCur(t, x, y, pending).maxScrollback == t.maxScrollback
  {
  }
}
