/** Cells, renditions and lines. */
module Cells {
  import opened Utf8

  /** The default colour, a palette entry, or a 24-bit colour. */
  datatype Color = Default | Indexed(i: byte) | Rgb(r: byte, g: byte, b: byte)

  datatype Underline = NoLine | Single | Double | Curly | Dotted | Dashed

  datatype Attrs = Attrs(bold: bool, dim: bool, italic: bool, blink: bool, inverse: bool, hidden: bool, strike: bool)

  datatype Style = Style(fg: Color, bg: Color, ul: Color, attrs: Attrs, underline: Underline)

  const NO_ATTRS := Attrs(false, false, false, false, false, false, false)
  const PLAIN := Style(Default, Default, Default, NO_ATTRS, NoLine)

  /** One screen position: a base rune with its combining marks, or nothing for
      a blank; `width` is 0 for the second half of a wide character. */
  datatype Cell = Cell(ch: seq<Rune>, width: int, style: Style, link: seq<byte>)

  datatype Row = Row(cells: seq<Cell>, wrapped: bool)

  /** The rendition an erased cell keeps: the background only. */
  function EraseStyle(st: Style): Style { PLAIN.(bg := st.bg) }

  function Blank(st: Style): Cell { Cell([], 1, EraseStyle(st), []) }

  const BLANK := Blank(PLAIN)

  predicate IsBlank(c: Cell) {
    (c.ch == [] || c.ch == [0x20]) && c.width != 0 && c.style == PLAIN && c.link == []
  }

  function Blanks(n: nat, st: Style): (s: seq<Cell>)
    ensures |s| == n && forall i :: 0 <= i < n ==> s[i] == Blank(st)
  {
    seq(n, i => Blank(st))
  }

  function BlankRow(w: nat, st: Style): Row { Row(Blanks(w, st), false) }

  function BlankRows(n: nat, w: nat, st: Style): (s: seq<Row>)
    ensures |s| == n && forall i :: 0 <= i < n ==> s[i] == BlankRow(w, st)
  {
    seq(n, i => BlankRow(w, st))
  }

  /** Cells [from, to) erased; out-of-range bounds are clipped. */
  function ClearCells(cells: seq<Cell>, from: int, to: int, st: Style): (s: seq<Cell>)
    ensures |s| == |cells|
    ensures forall i :: 0 <= i < |s| ==> s[i] == if from <= i < to then Blank(st) else cells[i]
  {
    seq(|cells|, i requires 0 <= i < |cells| => if from <= i < to then Blank(st) else cells[i])
  }

  /** The index just past the last cell that is not blank. */
  function LastVisible(cells: seq<Cell>): (n: nat)
    ensures n <= |cells|
    ensures forall i :: n <= i < |cells| ==> IsBlank(cells[i])
    ensures n > 0 ==> !IsBlank(cells[n - 1])
  {
    if cells == [] then 0
    else if !IsBlank(cells[|cells| - 1]) then |cells|
    else LastVisible(cells[..|cells| - 1])
  }

  function Trimmed(r: Row): Row { r.(cells := r.cells[..LastVisible(r.cells)]) }

  function Trims(rows: seq<Row>): (r: seq<Row>)
    ensures |r| == |rows| && forall y :: 0 <= y < |r| ==> r[y] == Trimmed(rows[y])
  {
    seq(|rows|, y requires 0 <= y < |rows| => Trimmed(rows[y]))
  }

  lemma TrimsFirst(rows: seq<Row>)
    requires rows != []
    ensures Trims(rows) == [Trimmed(rows[0])] + Trims(rows[1..])
  {
    hide Trimmed;
  }

  /** The row padded or truncated to w columns, never cutting a wide character. */
  function Fitted(r: Row, w: nat): (f: Row)
    ensures |f.cells| == w && f.wrapped == r.wrapped
    ensures forall x :: 0 <= x < w && x < |r.cells| && (x < w - 1 || r.cells[x].width != 2) ==> f.cells[x] == r.cells[x]
    ensures forall x :: 0 <= x < w && (x >= |r.cells| || (x == w - 1 && r.cells[x].width == 2)) ==> f.cells[x] == BLANK
  {
    var cells := if |r.cells| >= w then r.cells[..w] else r.cells + Blanks(w - |r.cells|, PLAIN);
    r.(cells := if w > 0 && cells[w - 1].width == 2 then cells[w - 1 := BLANK] else cells)
  }

  /** LastVisible is determined by what it promises. */
  lemma {:induction false} LastVisibleIs(cells: seq<Cell>, n: nat)
    requires n <= |cells|
    requires forall i :: n <= i < |cells| ==> IsBlank(cells[i])
    requires n > 0 ==> !IsBlank(cells[n - 1])
    ensures LastVisible(cells) == n
    decreases |cells|
  {
    if n < |cells| {
      LastVisibleIs(cells[..|cells| - 1], n);
    }
  }
}
