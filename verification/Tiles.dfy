/** Rows typed to the right of the margin that look the same afterwards: blank ones,
    ones whose cells repeat, and ones that a wide character brings back into place. */
module Tiles {
  import opened Cells
  import opened Terminal
  import opened Snapshots
  import opened Content
  import opened Typewriter
  import opened Alignment
  import opened Bleeding
  import opened Shifting

  /** Where the rows go: their width, the height of the screen, the line of the tape on
      which the first begins, the room it has there, and the row whose last cell is
      written again, or -1. */
  datatype Site = Site(w: int, h: int, n: nat, room: nat, e: int)

  predicate SiteOk(rows: seq<Row>, g: Site) {
    && Screenful(rows, g.w) && 0 < g.room < g.w && g.e < |rows|
    && (g.e >= 0 ==> rows[g.e].cells[g.w - 1].width == 1 && rows[g.e].cells[g.w - 1].ch != [])
  }

  lemma BehindFull(rows: seq<Row>, w: int, k: nat)
    requires Screenful(rows, w) && k <= GroupEnd(rows, 0)
    ensures k > 0 ==> |Emitted(rows, k - 1)| == w && Emitted(rows, k - 1) == rows[k - 1].cells
  {
    hide Screenful, Emitted, GroupEnd;
    if k > 0 {
      InnerFull(rows, w, k - 1);
    }
  }

  /** What is drawn in column c of row k of the first group: if the group overflows,
      the line it begins on has scrolled off. */
  function Drawn(rows: seq<Row>, g: Site, k: nat, c: nat): Cell
    requires SiteOk(rows, g) && k <= GroupEnd(rows, 0) && c < g.w
  {
    var m := GroupEnd(rows, 0);
    BehindFull(rows, g.w, k);
    if Overflows(rows, g.room) && k == m then Rest(rows, g.h, g.n, g.room, m, c)
    else if Overflows(rows, g.room) then
      BehindFull(rows, g.w, k + 1);
      Body(rows, g.w, g.h, g.n, g.room, k + 1, c)
    else Body(rows, g.w, g.h, g.n, g.room, k, c)
  }

  /** The cell is not touched when the one under the wrap is written again. */
  predicate Spared(rows: seq<Row>, g: Site, k: nat, c: nat)
    requires SiteOk(rows, g) && k <= GroupEnd(rows, 0) && c < g.w
  {
    k == g.e ==> c < g.w - 2 || (c == g.w - 2 && Drawn(rows, g, k, g.w - 1).width != 0)
  }

  /** Rows 0 to `last` come back. */
  predicate ComesBack(rows: seq<Row>, g: Site, last: nat)
    requires SiteOk(rows, g) && last <= GroupEnd(rows, 0)
  {
    forall k, c :: 0 <= k <= last && 0 <= c < g.w && Spared(rows, g, k, c) ==> Drawn(rows, g, k, c) == rows[k].cells[c]
  }

  /** What a row of the first group holds: what it writes, and blanks. */
  lemma GroupCells(rows: seq<Row>, w: int, k: nat)
    requires Screenful(rows, w) && k <= GroupEnd(rows, 0)
    ensures var e := Emitted(rows, k);
      && LineOk(e) && |e| <= w == |rows[k].cells|
      && (forall c :: 0 <= c < w ==> rows[k].cells[c] == if c < |e| then e[c] else BLANK)
      && (k < GroupEnd(rows, 0) ==> |e| == w)
      && (k == GroupEnd(rows, 0) && e != [] ==> !IsBlank(rows[k].cells[|e| - 1]))
      && (k == GroupEnd(rows, 0) && |e| < w ==> rows[k].cells[w - 1] == BLANK)
  {
    hide AllCellsOk, GroupEnd, LineOk, IsBlank, CellOk;
    EmittedIs(rows, k, w);
    if k < GroupEnd(rows, 0) {
      InnerFull(rows, w, k);
    } else {
      LineCells(rows[k].cells);
      BlankTail(rows[k].cells);
    }
  }

  lemma BodyBehind(rows: seq<Row>, g: Site, k: nat, c: nat)
    requires SiteOk(rows, g) && 0 < k <= GroupEnd(rows, 0) && Lead(rows, g.room, k - 1) + c < g.w
    ensures |Emitted(rows, k - 1)| == g.w && c < g.w
    ensures Body(rows, g.w, g.h, g.n, g.room, k, c) == rows[k - 1].cells[Lead(rows, g.room, k - 1) + c]
  {
    hide Emitted, GroupEnd, Typeable, AllCellsOk;
    BehindFull(rows, g.w, k);
  }

  /** The column in which row k begins. */
  function Begin(rows: seq<Row>, g: Site, k: nat): (a: int)
    requires k < |rows|
    ensures a >= g.w - g.room
  {
    if k == 0 then g.w - g.room else g.w - Lead(rows, g.room, k - 1)
  }

  lemma BodyOwn(rows: seq<Row>, g: Site, k: nat, c: nat)
    requires SiteOk(rows, g) && k <= GroupEnd(rows, 0) && c < Lead(rows, g.room, k)
    ensures k > 0 ==> |Emitted(rows, k - 1)| == g.w
    ensures var x := Begin(rows, g, k) + c; 0 <= x < g.w && Body(rows, g.w, g.h, g.n, g.room, k, x) == rows[k].cells[c]
  {
    hide GroupEnd, Typeable, AllCellsOk, Emitted, LineOk, IsBlank;
    BehindFull(rows, g.w, k);
    GroupCells(rows, g.w, k);
    if k > 0 {
      LeadLess(rows, g.room, k);
    }
  }

  lemma BlankLook()
    ensures IsBlank(BLANK) && BLANK.width == 1 && BLANK.ch == [] && Blank(BLANK.style) == BLANK && BLANK.style == PLAIN
  {
  }

  // ---------------------------------------------------------------------------
  // Rows that do not overflow
  // ---------------------------------------------------------------------------

  predicate AllBlank(rows: seq<Row>, w: int, k: nat)
    requires k < |rows| && |rows[k].cells| == w
  {
    forall c :: 0 <= c < w ==> rows[k].cells[c] == BLANK
  }

  /** Moved to the right, a row can only be the same if all its cells are blank. */
  lemma {:induction false} BlankDown(rows: seq<Row>, g: Site, k: nat, c: nat)
    requires SiteOk(rows, g) && k <= GroupEnd(rows, 0) && !Overflows(rows, g.room) && ComesBack(rows, g, GroupEnd(rows, 0)) && c < g.w
    requires k != g.e && |rows[k].cells| == g.w
    requires forall i :: Lead(rows, g.room, k) <= i < g.w ==> rows[k].cells[i] == BLANK
    ensures rows[k].cells[c] == BLANK
    decreases g.w - c
  {
    hide Emitted, GroupEnd, Typeable, AllCellsOk, Lead, Body, Overflows;
    if c < Lead(rows, g.room, k) {
      BodyOwn(rows, g, k, c);
      var x := Begin(rows, g, k) + c;
      BlankDown(rows, g, k, x);
      assert Spared(rows, g, k, x);
      assert Drawn(rows, g, k, x) == rows[k].cells[x];
    }
  }

  lemma LastShows(rows: seq<Row>, g: Site)
    requires SiteOk(rows, g) && g.e >= 0
    ensures !IsBlank(rows[g.e].cells[g.w - 1]) && rows[g.e].cells[g.w - 1] != BLANK
  {
    hide CellOk;
    assert LineOk(rows[g.e].cells);
    ShownWhole(rows[g.e].cells[g.w - 1]);
  }

  lemma ShownWhole(c: Cell)
    requires CellOk(c) && c.width == 1 && c.ch != []
    ensures !IsBlank(c) && c != BLANK
  {
  }

  /** From the last row of the group up. */
  lemma {:induction false} BlankUp(rows: seq<Row>, g: Site, k: nat)
    requires SiteOk(rows, g) && k <= GroupEnd(rows, 0) && !Overflows(rows, g.room) && ComesBack(rows, g, GroupEnd(rows, 0))
    ensures |rows[k].cells| == g.w && AllBlank(rows, g.w, k)
    decreases GroupEnd(rows, 0) - k
  {
    hide Emitted, GroupEnd, Typeable, AllCellsOk, Lead, Body, LineOk, IsBlank, AllBlank;
    var m := GroupEnd(rows, 0);
    GroupCells(rows, g.w, k);
    LeadShort(rows, g.room, k);
    forall i | Lead(rows, g.room, k) <= i < g.w ensures rows[k].cells[i] == BLANK {
      if k < m {
        BlankUp(rows, g, k + 1);
        var c := i - Lead(rows, g.room, k);
        BodyBehind(rows, g, k + 1, c);
        BlankSpared(rows, g, k + 1, c);
      }
    }
    if k == g.e {
      LastShows(rows, g);
    }
    forall c | 0 <= c < g.w ensures rows[k].cells[c] == BLANK {
      BlankDown(rows, g, k, c);
    }
    assert AllBlank(rows, g.w, k) by {
      AllBlankIs(rows, g.w, k);
    }
  }

  lemma AllBlankIs(rows: seq<Row>, w: int, k: nat)
    requires k < |rows| && |rows[k].cells| == w && forall c :: 0 <= c < w ==> rows[k].cells[c] == BLANK
    ensures AllBlank(rows, w, k)
  {
  }

  lemma BlankSpared(rows: seq<Row>, g: Site, k: nat, c: nat)
    requires SiteOk(rows, g) && k <= GroupEnd(rows, 0) && !Overflows(rows, g.room) && ComesBack(rows, g, GroupEnd(rows, 0)) && c < g.w
    requires |rows[k].cells| == g.w && AllBlank(rows, g.w, k)
    ensures Drawn(rows, g, k, c) == BLANK == rows[k].cells[c]
  {
    hide Emitted, GroupEnd, Typeable, AllCellsOk, Drawn, Overflows;
    if k == g.e {
      LastShows(rows, g);
    }
    assert Spared(rows, g, k, c);
  }

  // ---------------------------------------------------------------------------
  // Rows that overflow: cells that repeat
  // ---------------------------------------------------------------------------

  /** d cells before the one that is written again, counting from row to row: that
      cell once more every `s` cells, and `gap` between. */
  function Tile(own: Cell, gap: Cell, s: nat, d: nat): Cell
    requires s > 0
    decreases d
  {
    if d == 0 then own else if d < s then gap else Tile(own, gap, s, d - s)
  }

  /** The cells of n rows. */
  function Area(w: nat, n: nat): nat { if n == 0 then 0 else w + Area(w, n - 1) }

  /** Column c of row k: from row e up the cell that is written again repeats every
      s cells; below it all cells are `gap`. */
  function Tiled(w: int, e: int, own: Cell, gap: Cell, s: nat, k: int, c: int): Cell
    requires s > 0 && c < w && w >= 0
  {
    if k <= e then Tile(own, gap, s, Area(w, e - k) + (w - 1 - c)) else gap
  }

  predicate RowTiled(rows: seq<Row>, w: int, e: int, own: Cell, gap: Cell, s: nat, k: nat)
    requires s > 0 && k < |rows| && w >= 0
  {
    |rows[k].cells| == w && forall c :: 0 <= c < w ==> rows[k].cells[c] == Tiled(w, e, own, gap, s, k, c)
  }

  lemma TileStep(own: Cell, gap: Cell, s: nat, d: nat)
    requires s > 0
    ensures Tile(own, gap, s, d + s) == Tile(own, gap, s, d)
  {
  }

  /** s cells on, and in the next row at that: the same cell. */
  lemma TiledOn(w: int, e: int, own: Cell, gap: Cell, s: nat, k: int, c: int)
    requires 0 < s < w && 0 <= c < w
    ensures c + s < w ==> Tiled(w, e, own, gap, s, k, c + s) == Tiled(w, e, own, gap, s, k, c)
    ensures c + s >= w && k != e ==> Tiled(w, e, own, gap, s, k + 1, c + s - w) == Tiled(w, e, own, gap, s, k, c)
    ensures c + s >= w && k == e ==> Tiled(w, e, own, gap, s, k, c) == if c == w - 1 then own else gap
  {
    if k <= e {
      var d := Area(w, e - k) + (w - 1 - c);
      if c + s < w {
        TileStep(own, gap, s, d - s);
      } else if k < e {
        assert Area(w, e - k) == w + Area(w, e - (k + 1));
        TileStep(own, gap, s, d - s);
      }
    }
  }

  /** The cells of a row repeat when its end does and all others are s cells on. */
  lemma {:induction false} TileDown(rows: seq<Row>, w: int, e: int, own: Cell, gap: Cell, s: nat, k: nat, c: nat)
    requires 0 < s < w && k < |rows| && |rows[k].cells| == w && c < w
    requires forall i :: w - s <= i < w ==> rows[k].cells[i] == Tiled(w, e, own, gap, s, k, i)
    requires forall i :: 0 <= i < w - s ==> rows[k].cells[i] == rows[k].cells[i + s]
    ensures rows[k].cells[c] == Tiled(w, e, own, gap, s, k, c)
    decreases w - c
  {
    hide Tiled;
    if c < w - s {
      TileDown(rows, w, e, own, gap, s, k, c + s);
      TiledOn(w, e, own, gap, s, k, c);
    }
  }

  lemma RowTiles(rows: seq<Row>, w: int, e: int, own: Cell, gap: Cell, s: nat, k: nat)
    requires 0 < s < w && k < |rows| && |rows[k].cells| == w
    requires forall i :: w - s <= i < w ==> rows[k].cells[i] == Tiled(w, e, own, gap, s, k, i)
    requires forall i :: 0 <= i < w - s ==> rows[k].cells[i] == rows[k].cells[i + s]
    ensures RowTiled(rows, w, e, own, gap, s, k)
  {
    hide Tiled;
    forall c | 0 <= c < w ensures rows[k].cells[c] == Tiled(w, e, own, gap, s, k, c) {
      TileDown(rows, w, e, own, gap, s, k, c);
    }
  }

  lemma TiledNarrow(w: int, e: int, own: Cell, gap: Cell, s: nat, k: int, c: int)
    requires s > 0 && own.width == 1 && gap.width == 1 && c < w && w >= 0
    ensures Tiled(w, e, own, gap, s, k, c).width == 1
  {
    if k <= e {
      TileOneOf(own, gap, s, Area(w, e - k) + (w - 1 - c));
    }
  }

  lemma {:induction false} TileOneOf(own: Cell, gap: Cell, s: nat, d: nat)
    requires s > 0
    ensures Tile(own, gap, s, d) == own || Tile(own, gap, s, d) == gap
    decreases d
  {
    if d >= s {
      TileOneOf(own, gap, s, d - s);
    }
  }

  /** The group overflows: what is drawn on a row that another of the group follows. */
  lemma DrawnUpper(rows: seq<Row>, g: Site, k: nat, c: nat)
    requires SiteOk(rows, g) && k < GroupEnd(rows, 0) && Overflows(rows, g.room) && c < g.w
    ensures |Emitted(rows, k)| == g.w == |rows[k].cells|
    ensures var s := Lead(rows, g.room, k); var t := Lead(rows, g.room, k + 1); var d := Drawn(rows, g, k, c);
      && (s + c < g.w ==> d == rows[k].cells[s + c])
      && (g.w <= s + c < g.w + t ==> d == rows[k + 1].cells[s + c - g.w])
      && (s + c >= g.w + t && t < |Emitted(rows, k + 1)| ==> d == Blank(rows[k + 1].cells[t].style))
  {
    hide Emitted, GroupEnd, Typeable, AllCellsOk, LineOk, IsBlank, Lead, Overflows;
    BehindFull(rows, g.w, k + 1);
    GroupCells(rows, g.w, k);
    GroupCells(rows, g.w, k + 1);
  }

  lemma DrawnEnd(rows: seq<Row>, g: Site, c: nat)
    requires SiteOk(rows, g) && Overflows(rows, g.room) && c < g.w
    ensures var m := GroupEnd(rows, 0); var s := Lead(rows, g.room, m); var e := Emitted(rows, m);
      && s < |e| <= g.w == |rows[m].cells|
      && Drawn(rows, g, m, c) == (if c < |e| - s then rows[m].cells[s + c] else Ground(g.h, g.n + m + 1, rows[m].cells[s].style))
  {
    hide Emitted, GroupEnd, Typeable, AllCellsOk, LineOk, IsBlank, Lead;
    GroupCells(rows, g.w, GroupEnd(rows, 0));
  }

  /** The cells that are written to row k come from row k and the head of the next. */
  lemma TileUp(rows: seq<Row>, g: Site, e: int, own: Cell, gap: Cell, s: nat, k: nat)
    requires SiteOk(rows, g) && k < GroupEnd(rows, 0) && Overflows(rows, g.room) && ComesBack(rows, g, k)
    requires s > 0 && own.width == 1 && gap.width == 1 && (e >= 0 ==> e < |rows| && g.w > 0 && |rows[e].cells| == g.w && own == rows[e].cells[g.w - 1])
    requires k == g.e <==> k == e
    requires |Emitted(rows, k + 1)| == g.w && Lead(rows, g.room, k + 1) == s && RowTiled(rows, g.w, e, own, gap, s, k + 1)
    ensures Lead(rows, g.room, k) == s && RowTiled(rows, g.w, e, own, gap, s, k)
  {
    hide Emitted, GroupEnd, Typeable, AllCellsOk, LineOk, IsBlank, Drawn, Tiled, Overflows, Lead;
    NarrowLead(rows, g, e, own, gap, s, k);
    DrawnUpper(rows, g, k, 0);
    LeadShort(rows, g.room, k);
    forall i | 0 <= i < g.w
      ensures i < g.w - s ==> rows[k].cells[i] == rows[k].cells[i + s]
      ensures i >= g.w - s ==> rows[k].cells[i] == Tiled(g.w, e, own, gap, s, k, i)
    {
      DrawnUpper(rows, g, k, i);
      DrawnUpper(rows, g, k, g.w - 1);
      TiledOn(g.w, e, own, gap, s, k, i);
      TiledNarrow(g.w, e, own, gap, s, k + 1, s - 1);
      assert Spared(rows, g, k, i) || (k == e && i == g.w - 1);
      if i >= g.w - s {
        assert rows[k + 1].cells[s + i - g.w] == Tiled(g.w, e, own, gap, s, k + 1, s + i - g.w);
        if k == e {
          assert Tiled(g.w, e, own, gap, s, k + 1, s + i - g.w) == gap by {
            BelowTiled(g.w, e, own, gap, s, k + 1, s + i - g.w);
          }
        }
      }
    }
    RowTiles(rows, g.w, e, own, gap, s, k);
  }

  lemma BelowTiled(w: int, e: int, own: Cell, gap: Cell, s: nat, k: int, c: int)
    requires s > 0 && k > e && c < w && w >= 0
    ensures Tiled(w, e, own, gap, s, k, c) == gap
  {
  }

  /** Narrow cells fill the room there is. */
  lemma NarrowLead(rows: seq<Row>, g: Site, e: int, own: Cell, gap: Cell, s: nat, k: nat)
    requires SiteOk(rows, g) && k < GroupEnd(rows, 0)
    requires s > 0 && own.width == 1 && gap.width == 1
    requires |Emitted(rows, k + 1)| == g.w && Lead(rows, g.room, k + 1) == s && RowTiled(rows, g.w, e, own, gap, s, k + 1)
    ensures Lead(rows, g.room, k) == s
  {
    hide Emitted, GroupEnd, Typeable, AllCellsOk, LineOk, IsBlank, Tiled;
    GroupCells(rows, g.w, k + 1);
    LeadShort(rows, g.room, k);
    TiledNarrow(g.w, e, own, gap, s, k + 1, Lead(rows, g.room, k));
  }

  /** The row whose last cell is written again, if it is above row n. */
  function At(g: Site, n: nat): int { if g.e < n then g.e else -1 }

  /** The cell that is written again, if there is one. */
  function Own(rows: seq<Row>, w: int, e: int, gap: Cell): Cell
    requires e < |rows| && RowsFit(rows, w) && w > 0
  {
    if e >= 0 then rows[e].cells[w - 1] else gap
  }

  lemma OwnNarrow(rows: seq<Row>, g: Site, n: nat, gap: Cell)
    requires SiteOk(rows, g) && gap.width == 1
    ensures At(g, n) < |rows| && Own(rows, g.w, At(g, n), gap).width == 1
  {
    hide Typeable, AllCellsOk;
  }

  /** Row k, as one of n rows that repeat themselves every s cells. */
  predicate Tiling(rows: seq<Row>, g: Site, n: nat, gap: Cell, s: nat, k: nat)
    requires SiteOk(rows, g) && s > 0 && k < |rows|
  {
    var e := At(g, n);
    RowTiled(rows, g.w, e, Own(rows, g.w, e, gap), gap, s, k)
  }

  predicate AllTiled(rows: seq<Row>, g: Site, n: nat, gap: Cell, s: nat)
    requires SiteOk(rows, g) && s > 0 && n <= |rows|
  {
    forall k :: 0 <= k < n ==> Tiling(rows, g, n, gap, s, k)
  }

  /** From a tiled row up, all are tiled, with the room of the first. */
  lemma {:induction false} TiledUp(rows: seq<Row>, g: Site, n: nat, gap: Cell, s: nat, k: nat)
    requires SiteOk(rows, g) && k < n <= GroupEnd(rows, 0) + 1 && Overflows(rows, g.room) && ComesBack(rows, g, GroupEnd(rows, 0))
    requires s > 0 && gap.width == 1
    requires |Emitted(rows, k)| == g.w && Lead(rows, g.room, k) == s && Tiling(rows, g, n, gap, s, k)
    ensures s == g.room && forall j :: 0 <= j <= k ==> Tiling(rows, g, n, gap, s, j)
    decreases k
  {
    hide Emitted, GroupEnd, Typeable, AllCellsOk, Drawn, Overflows, RowTiled, Own, Spared, ComesBack, Lead;
    OwnNarrow(rows, g, n, gap);
    var e := At(g, n);
    if k == 0 {
      FirstLead(rows, g, e, Own(rows, g.w, e, gap), gap, s);
    } else {
      TiledAbove(rows, g, n, gap, s, k - 1);
      TiledUp(rows, g, n, gap, s, k - 1);
    }
  }

  lemma TiledAbove(rows: seq<Row>, g: Site, n: nat, gap: Cell, s: nat, k: nat)
    requires SiteOk(rows, g) && k + 1 < n <= GroupEnd(rows, 0) + 1 && Overflows(rows, g.room) && ComesBack(rows, g, GroupEnd(rows, 0))
    requires s > 0 && gap.width == 1
    requires |Emitted(rows, k + 1)| == g.w && Lead(rows, g.room, k + 1) == s && Tiling(rows, g, n, gap, s, k + 1)
    ensures |Emitted(rows, k)| == g.w && Lead(rows, g.room, k) == s && Tiling(rows, g, n, gap, s, k)
  {
    hide Emitted, GroupEnd, Typeable, AllCellsOk, Drawn, Overflows, RowTiled, Spared, Lead;
    OwnNarrow(rows, g, n, gap);
    GroupCells(rows, g.w, k);
    ComesBackLess(rows, g, k);
    TileUp(rows, g, At(g, n), Own(rows, g.w, At(g, n), gap), gap, s, k);
  }

  lemma FirstLead(rows: seq<Row>, g: Site, e: int, own: Cell, gap: Cell, s: nat)
    requires SiteOk(rows, g) && s > 0 && own.width == 1 && gap.width == 1
    requires |Emitted(rows, 0)| == g.w && Lead(rows, g.room, 0) == s && RowTiled(rows, g.w, e, own, gap, s, 0)
    ensures s == g.room
  {
    hide Emitted, GroupEnd, Typeable, AllCellsOk, LineOk, IsBlank, Tiled;
    EmittedIs(rows, 0, g.w);
    TiledNarrow(g.w, e, own, gap, s, 0, g.room);
  }

  /** What the rest of the last row is written on. */
  function LastGround(rows: seq<Row>, g: Site, s: nat): Cell
    requires SiteOk(rows, g) && s < g.w
  {
    Ground(g.h, g.n + GroupEnd(rows, 0) + 1, rows[GroupEnd(rows, 0)].cells[s].style)
  }

  /** The rows of the first group repeat themselves every `room` cells, and what is
      left of the last one is written on what is between. */
  predicate TiledGroup(rows: seq<Row>, g: Site)
    requires SiteOk(rows, g)
  {
    var m := GroupEnd(rows, 0);
    |Emitted(rows, m)| == g.w && AllTiled(rows, g, m + 1, LastGround(rows, g, g.room), g.room)
  }

  /** A last row part of which stays on the line of the row before it. */
  lemma EndTiled(rows: seq<Row>, g: Site)
    requires SiteOk(rows, g) && Overflows(rows, g.room) && ComesBack(rows, g, GroupEnd(rows, 0)) && Lead(rows, g.room, GroupEnd(rows, 0)) > 0
    ensures var m := GroupEnd(rows, 0); var s := Lead(rows, g.room, m);
      |Emitted(rows, m)| == g.w && s < g.w && Tiling(rows, g, m + 1, LastGround(rows, g, s), s, m)
  {
    hide Emitted, GroupEnd, Typeable, AllCellsOk, LineOk, IsBlank, Drawn, Tiled, Overflows, Lead, CellOk;
    var m := GroupEnd(rows, 0);
    var s, cells := Lead(rows, g.room, m), rows[m].cells;
    GroupCells(rows, g.w, m);
    LeadShort(rows, g.room, m);
    DrawnEnd(rows, g, g.w - 1);
    EndReaches(rows, g);
    var gap, e := LastGround(rows, g, s), At(g, m + 1);
    var own := Own(rows, g.w, e, gap);
    forall i | 0 <= i < g.w
      ensures i < g.w - s ==> cells[i] == cells[i + s]
      ensures i >= g.w - s ==> cells[i] == Tiled(g.w, e, own, gap, s, m, i)
    {
      DrawnEnd(rows, g, i);
      TiledOn(g.w, e, own, gap, s, m, i);
      assert Spared(rows, g, m, i) || (m == g.e && i == g.w - 1);
      if m > e {
        BelowTiled(g.w, e, own, gap, s, m, i);
      }
    }
    RowTiles(rows, g.w, e, own, gap, s, m);
  }

  lemma CameBack(rows: seq<Row>, g: Site, k: nat, c: nat)
    requires SiteOk(rows, g) && k <= GroupEnd(rows, 0) && c < g.w && ComesBack(rows, g, GroupEnd(rows, 0)) && k != g.e
    ensures Drawn(rows, g, k, c) == rows[k].cells[c]
  {
    hide GroupEnd, Typeable, AllCellsOk, Drawn;
    assert Spared(rows, g, k, c);
  }

  /** It reaches the edge: short of it, its last cell could not come back. */
  lemma EndReaches(rows: seq<Row>, g: Site)
    requires SiteOk(rows, g) && Overflows(rows, g.room) && ComesBack(rows, g, GroupEnd(rows, 0)) && Lead(rows, g.room, GroupEnd(rows, 0)) > 0
    ensures |Emitted(rows, GroupEnd(rows, 0))| == g.w
  {
    hide Emitted, GroupEnd, Typeable, AllCellsOk, LineOk, IsBlank, Drawn, Overflows, Lead, CellOk;
    var m := GroupEnd(rows, 0);
    var n := |Emitted(rows, m)|;
    GroupCells(rows, g.w, m);
    if n < g.w {
      BlankLook();
      if m != g.e {
        DrawnEnd(rows, g, g.w - 1);
        CameBack(rows, g, m, n - 1);
        CameBack(rows, g, m, g.w - 1);
        DrawnEnd(rows, g, n - 1);
      } else {
        LastShows(rows, g);
      }
    }
  }

  // ---------------------------------------------------------------------------
  // Rows that overflow: a wide character at the edge
  // ---------------------------------------------------------------------------

  /** What is left of the last row, if it begins where it should, is written on a
      default background or fills the row. */
  predicate Settled(rows: seq<Row>, g: Site)
    requires SiteOk(rows, g)
  {
    var m := GroupEnd(rows, 0);
    Emitted(rows, m) != [] && (|Emitted(rows, m)| == g.w || LastGround(rows, g, 0) == BLANK)
  }

  /** With a single column left, rows of one cell repeated precede a row that begins
      with a wide character, which starts the next line and leaves that cell behind. */
  predicate Absorbed(rows: seq<Row>, g: Site, r: nat)
    requires SiteOk(rows, g)
  {
    && r <= GroupEnd(rows, 0) && g.room == 1 && rows[r].cells[0].width == 2
    && AllTiled(rows, g, r, Blank(rows[r].cells[0].style), 1)
  }

  predicate Returns(rows: seq<Row>, g: Site)
    requires SiteOk(rows, g)
  {
    Settled(rows, g) && exists r :: 0 <= r <= GroupEnd(rows, 0) && Absorbed(rows, g, r)
  }

  /** The first row of the group that begins on a line of its own. */
  lemma {:induction false} FirstFree(rows: seq<Row>, room: nat, k: nat) returns (r: nat)
    requires k < |rows| && Lead(rows, room, k) == 0
    ensures r <= k && Lead(rows, room, r) == 0 && (r > 0 ==> Lead(rows, room, r - 1) > 0)
    decreases k
  {
    hide Lead;
    if k == 0 || Lead(rows, room, k - 1) > 0 {
      r := k;
    } else {
      r := FirstFree(rows, room, k - 1);
    }
  }

  /** A row that brings nothing to the line before begins with a wide character. */
  lemma FreeHead(rows: seq<Row>, g: Site, r: nat)
    requires SiteOk(rows, g) && r <= GroupEnd(rows, 0) && Overflows(rows, g.room) && Lead(rows, g.room, r) == 0
    requires r > 0 ==> Lead(rows, g.room, r - 1) > 0
    ensures |rows[r].cells| == g.w && rows[r].cells[0].width == 2 && (r == 0 ==> g.room == 1) && (r > 0 ==> Lead(rows, g.room, r - 1) == 1)
    ensures Emitted(rows, r) != []
  {
    hide Emitted, GroupEnd, Typeable, AllCellsOk, IsBlank, CellOk;
    GroupCells(rows, g.w, r);
    var e := Emitted(rows, r);
    assert e != [];
    PairedHead(e);
  }

  lemma FreeTiled(rows: seq<Row>, g: Site, r: nat)
    requires SiteOk(rows, g) && 0 < r <= GroupEnd(rows, 0) && Overflows(rows, g.room) && ComesBack(rows, g, GroupEnd(rows, 0))
    requires Lead(rows, g.room, r) == 0 && Lead(rows, g.room, r - 1) == 1 && Emitted(rows, r) != []
    ensures |Emitted(rows, r - 1)| == g.w && |rows[r].cells| == g.w && Tiling(rows, g, r, Blank(rows[r].cells[0].style), 1, r - 1)
  {
    hide Emitted, GroupEnd, Typeable, AllCellsOk, LineOk, IsBlank, Drawn, Tiled, Overflows, Lead, CellOk;
    var k, cells := r - 1, rows[r - 1].cells;
    GroupCells(rows, g.w, k);
    GroupCells(rows, g.w, r);
    var gap, e := Blank(rows[r].cells[0].style), At(g, r);
    var own := Own(rows, g.w, e, gap);
    DrawnUpper(rows, g, k, g.w - 1);
    forall i | 0 <= i < g.w
      ensures i < g.w - 1 ==> cells[i] == cells[i + 1]
      ensures i >= g.w - 1 ==> cells[i] == Tiled(g.w, e, own, gap, 1, k, i)
    {
      DrawnUpper(rows, g, k, i);
      TiledOn(g.w, e, own, gap, 1, k, i);
      assert Spared(rows, g, k, i) || (k == g.e && i == g.w - 1);
      if k > e {
        BelowTiled(g.w, e, own, gap, 1, k, i);
      }
    }
    RowTiles(rows, g.w, e, own, gap, 1, k);
  }

  lemma GroundNarrow(rows: seq<Row>, g: Site, s: nat)
    requires SiteOk(rows, g) && s < g.w
    ensures LastGround(rows, g, s).width == 1
  {
    hide GroupEnd, Typeable, AllCellsOk;
  }

  /** What overflows and comes back repeats itself or is brought into place. */
  lemma OverflowShape(rows: seq<Row>, g: Site)
    requires SiteOk(rows, g) && Overflows(rows, g.room) && ComesBack(rows, g, GroupEnd(rows, 0))
    ensures TiledGroup(rows, g) || Returns(rows, g)
  {
    hide Emitted, GroupEnd, Typeable, AllCellsOk, LineOk, IsBlank, Drawn, Tiled, Overflows, Lead, CellOk, Tiling, ComesBack, LastGround;
    var m := GroupEnd(rows, 0);
    var s := Lead(rows, g.room, m);
    if s > 0 {
      EndTiled(rows, g);
      GroundNarrow(rows, g, s);
      TiledUp(rows, g, m + 1, LastGround(rows, g, s), s, m);
    } else {
      var r := FirstFree(rows, g.room, m);
      FreeHead(rows, g, r);
      EndSettled(rows, g);
      if r > 0 {
        FreeTiled(rows, g, r);
        TiledUp(rows, g, r, Blank(rows[r].cells[0].style), 1, r - 1);
      }
      assert Absorbed(rows, g, r);
    }
  }

  lemma ComesBackLess(rows: seq<Row>, g: Site, last: nat)
    requires SiteOk(rows, g) && last <= GroupEnd(rows, 0) && ComesBack(rows, g, GroupEnd(rows, 0))
    ensures ComesBack(rows, g, last)
  {
    hide GroupEnd, Typeable, AllCellsOk, Drawn, Spared;
  }

  lemma EndSettled(rows: seq<Row>, g: Site)
    requires SiteOk(rows, g) && Overflows(rows, g.room) && ComesBack(rows, g, GroupEnd(rows, 0)) && Lead(rows, g.room, GroupEnd(rows, 0)) == 0
    ensures Settled(rows, g)
  {
    hide Emitted, GroupEnd, Typeable, AllCellsOk, LineOk, IsBlank, Drawn, Overflows, Lead, CellOk;
    var m := GroupEnd(rows, 0);
    GroupCells(rows, g.w, m);
    DrawnEnd(rows, g, g.w - 1);
    if |Emitted(rows, m)| < g.w {
      BlankLook();
      if m != g.e {
        CameBack(rows, g, m, g.w - 1);
      } else {
        LastShows(rows, g);
      }
    }
  }

  // ---------------------------------------------------------------------------
  // Such rows do come back
  // ---------------------------------------------------------------------------

  /** All rows of the group are drawn as they were, or all but the cell that is
      written again, over a narrow one. */
  predicate DrawnWell(rows: seq<Row>, g: Site)
    requires SiteOk(rows, g)
  {
    forall k, c :: 0 <= k <= GroupEnd(rows, 0) && 0 <= c < g.w ==>
      if k == g.e && c == g.w - 1 then Drawn(rows, g, k, c).width == 1 else Drawn(rows, g, k, c) == rows[k].cells[c]
  }

  lemma BlankEmits(rows: seq<Row>, w: int, k: nat)
    requires Screenful(rows, w) && k <= GroupEnd(rows, 0) && |rows[k].cells| == w && AllBlank(rows, w, k)
    ensures forall c :: 0 <= c < |Emitted(rows, k)| ==> Emitted(rows, k)[c] == BLANK
    ensures k == GroupEnd(rows, 0) ==> Emitted(rows, k) == []
  {
    hide AllCellsOk, GroupEnd, LineOk, IsBlank, CellOk, Emitted;
    GroupCells(rows, w, k);
    BlankLook();
  }

  /** Blank rows. */
  lemma BlankWell(rows: seq<Row>, g: Site)
    requires SiteOk(rows, g) && forall k :: 0 <= k <= GroupEnd(rows, 0) ==> |rows[k].cells| == g.w && AllBlank(rows, g.w, k)
    ensures !Overflows(rows, g.room) && DrawnWell(rows, g)
  {
    hide Emitted, GroupEnd, Typeable, AllCellsOk, LineOk, IsBlank, CellOk, AllBlank, Body, Lead;
    var m := GroupEnd(rows, 0);
    BlankEmits(rows, g.w, m);
    forall k, c | 0 <= k <= m && 0 <= c < g.w ensures Drawn(rows, g, k, c) == BLANK == rows[k].cells[c] {
      BlankBody(rows, g, k, c);
    }
    BlankLook();
  }

  lemma BlankBody(rows: seq<Row>, g: Site, k: nat, c: nat)
    requires SiteOk(rows, g) && k <= GroupEnd(rows, 0) && c < g.w
    requires forall k :: 0 <= k <= GroupEnd(rows, 0) ==> |rows[k].cells| == g.w && AllBlank(rows, g.w, k)
    ensures k > 0 ==> |Emitted(rows, k - 1)| == g.w
    ensures Body(rows, g.w, g.h, g.n, g.room, k, c) == BLANK == rows[k].cells[c]
  {
    hide Emitted, GroupEnd, Typeable, AllCellsOk, LineOk, IsBlank, CellOk, Lead;
    BehindFull(rows, g.w, k);
    BlankEmits(rows, g.w, k);
    BlankLook();
    LeadShort(rows, g.room, k);
    if k > 0 {
      BlankEmits(rows, g.w, k - 1);
      LeadShort(rows, g.room, k - 1);
    }
  }

  /** Narrow cells leave no gap. */
  lemma {:induction false} RoomLead(rows: seq<Row>, g: Site, n: nat, gap: Cell, k: nat)
    requires SiteOk(rows, g) && k < n <= GroupEnd(rows, 0) + 1 && gap.width == 1 && AllTiled(rows, g, n, gap, g.room)
    requires forall j :: 0 <= j < n ==> |Emitted(rows, j)| == g.w
    ensures Lead(rows, g.room, k) == g.room
    decreases k
  {
    hide Emitted, GroupEnd, Typeable, AllCellsOk, LineOk, IsBlank, CellOk, Tiled, Own;
    GroupCells(rows, g.w, k);
    OwnNarrow(rows, g, n, gap);
    var e := At(g, n);
    assert Tiling(rows, g, n, gap, g.room, k);
    TiledNarrow(g.w, e, Own(rows, g.w, e, gap), gap, g.room, k, g.room);
    if k > 0 {
      RoomLead(rows, g, n, gap, k - 1);
    }
  }

  lemma TiledLead(rows: seq<Row>, g: Site, k: nat)
    requires SiteOk(rows, g) && k <= GroupEnd(rows, 0) && TiledGroup(rows, g)
    ensures Lead(rows, g.room, k) == g.room && Overflows(rows, g.room)
  {
    hide Emitted, GroupEnd, Typeable, AllCellsOk, LineOk, IsBlank, CellOk, AllTiled, LastGround, Lead;
    var m := GroupEnd(rows, 0);
    GroundNarrow(rows, g, g.room);
    forall j | 0 <= j < m + 1 ensures |Emitted(rows, j)| == g.w {
      GroupCells(rows, g.w, j);
    }
    RoomLead(rows, g, m + 1, LastGround(rows, g, g.room), k);
    RoomLead(rows, g, m + 1, LastGround(rows, g, g.room), m);
  }

  lemma TiledAt(rows: seq<Row>, g: Site, n: nat, gap: Cell, s: nat, k: nat, c: nat)
    requires SiteOk(rows, g) && s > 0 && n <= |rows| && AllTiled(rows, g, n, gap, s) && k < n && c < g.w
    ensures var e := At(g, n); |rows[k].cells| == g.w && rows[k].cells[c] == Tiled(g.w, e, Own(rows, g.w, e, gap), gap, s, k, c)
  {
    hide Typeable, AllCellsOk, Own, Tiled;
    assert Tiling(rows, g, n, gap, s, k);
  }

  /** A row of tiles and the head of the next: the same tiles. */
  lemma TiledDrawn(rows: seq<Row>, g: Site, k: nat, c: nat)
    requires SiteOk(rows, g) && k <= GroupEnd(rows, 0) && TiledGroup(rows, g) && c < g.w
    ensures |rows[k].cells| == g.w
    ensures if k == g.e && c == g.w - 1 then Drawn(rows, g, k, c).width == 1 else Drawn(rows, g, k, c) == rows[k].cells[c]
  {
    hide Emitted, GroupEnd, Typeable, AllCellsOk, LineOk, IsBlank, CellOk, AllTiled, LastGround, Lead, Drawn, Tiled, Own, Overflows;
    var m, s, gap := GroupEnd(rows, 0), g.room, LastGround(rows, g, g.room);
    var e := At(g, m + 1);
    var own := Own(rows, g.w, e, gap);
    GroundNarrow(rows, g, s);
    TiledLead(rows, g, k);
    TiledAt(rows, g, m + 1, gap, s, k, c);
    TiledOn(g.w, e, own, gap, s, k, c);
    if c + s < g.w {
      TiledAt(rows, g, m + 1, gap, s, k, c + s);
    }
    if k > e {
      BelowTiled(g.w, e, own, gap, s, k, c);
    }
    if k < m {
      TiledLead(rows, g, k + 1);
      DrawnUpper(rows, g, k, c);
      if c + s >= g.w {
        TiledAt(rows, g, m + 1, gap, s, k + 1, c + s - g.w);
        if k >= e {
          BelowTiled(g.w, e, own, gap, s, k + 1, c + s - g.w);
        }
      }
    } else {
      DrawnEnd(rows, g, c);
      GroundIs(rows, g);
    }
  }

  lemma GroundIs(rows: seq<Row>, g: Site)
    requires SiteOk(rows, g)
    ensures LastGround(rows, g, g.room) == Ground(g.h, g.n + GroupEnd(rows, 0) + 1, rows[GroupEnd(rows, 0)].cells[g.room].style)
  {
    hide GroupEnd, Typeable, AllCellsOk;
  }

  lemma TiledWell(rows: seq<Row>, g: Site)
    requires SiteOk(rows, g) && TiledGroup(rows, g)
    ensures Overflows(rows, g.room) && DrawnWell(rows, g)
  {
    hide Emitted, GroupEnd, Typeable, AllCellsOk, TiledGroup, Drawn, Overflows;
    TiledLead(rows, g, 0);
    forall k, c | 0 <= k <= GroupEnd(rows, 0) && 0 <= c < g.w
      ensures if k == g.e && c == g.w - 1 then Drawn(rows, g, k, c).width == 1 else Drawn(rows, g, k, c) == rows[k].cells[c]
    {
      TiledDrawn(rows, g, k, c);
    }
  }

  lemma {:induction false} FreeLead(rows: seq<Row>, room: nat, r: nat, k: nat)
    requires r <= k < |rows| && Lead(rows, room, r) == 0
    ensures Lead(rows, room, k) == 0
    decreases k
  {
    hide Emitted;
    if k > r {
      FreeLead(rows, room, r, k - 1);
    }
  }

  lemma WideCut(e: seq<Cell>)
    requires LineOk(e) && e != [] && e[0].width == 2
    ensures Cut(e, 1) == 0
  {
    PairedHead(e);
  }

  lemma AbsorbedLead(rows: seq<Row>, g: Site, r: nat, k: nat)
    requires SiteOk(rows, g) && Settled(rows, g) && Absorbed(rows, g, r) && k <= GroupEnd(rows, 0)
    ensures Lead(rows, g.room, k) == (if k < r then 1 else 0) && Overflows(rows, g.room)
  {
    hide Emitted, GroupEnd, Typeable, AllCellsOk, LineOk, IsBlank, CellOk, AllTiled, LastGround;
    var m := GroupEnd(rows, 0);
    GroupCells(rows, g.w, r);
    forall j | 0 <= j < r ensures |Emitted(rows, j)| == g.w {
      GroupCells(rows, g.w, j);
    }
    if r > 0 {
      RoomLead(rows, g, r, Blank(rows[r].cells[0].style), r - 1);
    }
    WideCut(Emitted(rows, r));
    FreeLead(rows, g.room, r, m);
    if k < r {
      RoomLead(rows, g, r, Blank(rows[r].cells[0].style), k);
    } else {
      FreeLead(rows, g.room, r, k);
    }
  }

  lemma AbsorbedUpper(rows: seq<Row>, g: Site, r: nat, k: nat, c: nat)
    requires SiteOk(rows, g) && Settled(rows, g) && Absorbed(rows, g, r) && k < r && c < g.w
    ensures |rows[k].cells| == g.w && k <= GroupEnd(rows, 0)
    ensures if k == g.e && c == g.w - 1 then Drawn(rows, g, k, c).width == 1 else Drawn(rows, g, k, c) == rows[k].cells[c]
  {
    hide Emitted, GroupEnd, Typeable, AllCellsOk, LineOk, IsBlank, CellOk, AllTiled, LastGround, Lead, Drawn, Tiled, Own, Overflows, Settled;
    var gap, e := Blank(rows[r].cells[0].style), At(g, r);
    var own := Own(rows, g.w, e, gap);
    AbsorbedLead(rows, g, r, k);
    AbsorbedLead(rows, g, r, k + 1);
    TiledAt(rows, g, r, gap, 1, k, c);
    TiledOn(g.w, e, own, gap, 1, k, c);
    DrawnUpper(rows, g, k, c);
    if k > e {
      BelowTiled(g.w, e, own, gap, 1, k, c);
    }
    if c + 1 < g.w {
      TiledAt(rows, g, r, gap, 1, k, c + 1);
    } else if k + 1 < r {
      TiledAt(rows, g, r, gap, 1, k + 1, 0);
      if k >= e {
        BelowTiled(g.w, e, own, gap, 1, k + 1, 0);
      }
    } else {
      GroupCells(rows, g.w, r);
      HeadWrites(rows, g, r);
    }
  }

  lemma HeadWrites(rows: seq<Row>, g: Site, r: nat)
    requires SiteOk(rows, g) && Settled(rows, g) && Absorbed(rows, g, r)
    ensures Emitted(rows, r) != []
  {
    hide Emitted, GroupEnd, Typeable, AllCellsOk, AllTiled, LastGround;
    GroupCells(rows, g.w, r);
  }

  lemma AbsorbedLower(rows: seq<Row>, g: Site, r: nat, k: nat, c: nat)
    requires SiteOk(rows, g) && Settled(rows, g) && Absorbed(rows, g, r) && r <= k <= GroupEnd(rows, 0) && c < g.w
    ensures |rows[k].cells| == g.w && Drawn(rows, g, k, c) == rows[k].cells[c]
  {
    hide Emitted, GroupEnd, Typeable, AllCellsOk, LineOk, IsBlank, CellOk, AllTiled, Lead, Drawn, Tiled, Own, Overflows;
    AbsorbedLead(rows, g, r, k);
    GroupCells(rows, g.w, k);
    if k < GroupEnd(rows, 0) {
      DrawnUpper(rows, g, k, c);
    } else {
      DrawnEnd(rows, g, c);
    }
  }

  /** Rows that a wide character brings into place. */
  lemma AbsorbedWell(rows: seq<Row>, g: Site, r: nat)
    requires SiteOk(rows, g) && Settled(rows, g) && Absorbed(rows, g, r)
    ensures Overflows(rows, g.room) && DrawnWell(rows, g)
  {
    hide Emitted, GroupEnd, Typeable, AllCellsOk, Absorbed, Settled, Drawn, Overflows;
    AbsorbedLead(rows, g, r, 0);
    forall k, c | 0 <= k <= GroupEnd(rows, 0) && 0 <= c < g.w
      ensures if k == g.e && c == g.w - 1 then Drawn(rows, g, k, c).width == 1 else Drawn(rows, g, k, c) == rows[k].cells[c]
    {
      if k < r {
        AbsorbedUpper(rows, g, r, k, c);
      } else {
        AbsorbedLower(rows, g, r, k, c);
      }
    }
  }

  /** Every row of the group is blank. */
  predicate BlankGroup(rows: seq<Row>, w: int)
    requires rows != [] && RowsFit(rows, w)
  {
    forall k :: 0 <= k <= GroupEnd(rows, 0) ==> AllBlank(rows, w, k)
  }

  /** How a first group that does not begin at the margin must look: blank, repeating
      itself, or brought into place. */
  predicate Unshaken(rows: seq<Row>, g: Site)
    requires SiteOk(rows, g)
  {
    BlankGroup(rows, g.w) || TiledGroup(rows, g) || Returns(rows, g)
  }

  lemma ShapeOf(rows: seq<Row>, g: Site)
    requires SiteOk(rows, g) && ComesBack(rows, g, GroupEnd(rows, 0))
    ensures Unshaken(rows, g)
  {
    hide GroupEnd, Typeable, AllCellsOk, TiledGroup, Settled, Absorbed, Overflows, AllBlank;
    if Overflows(rows, g.room) {
      OverflowShape(rows, g);
    } else {
      forall k | 0 <= k <= GroupEnd(rows, 0) ensures AllBlank(rows, g.w, k) {
        BlankUp(rows, g, k);
      }
    }
  }

  lemma ShapeWell(rows: seq<Row>, g: Site)
    requires SiteOk(rows, g) && Unshaken(rows, g)
    ensures DrawnWell(rows, g) && (Overflows(rows, g.room) <==> !BlankGroup(rows, g.w))
  {
    hide GroupEnd, Typeable, AllCellsOk, TiledGroup, Settled, Absorbed, Overflows, DrawnWell, AllBlank;
    if BlankGroup(rows, g.w) {
      BlankWell(rows, g);
    } else if TiledGroup(rows, g) {
      TiledWell(rows, g);
    } else {
      var r :| 0 <= r <= GroupEnd(rows, 0) && Absorbed(rows, g, r);
      AbsorbedWell(rows, g, r);
    }
  }
}
