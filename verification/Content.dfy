/** What cells, lines and strings hold in a well-formed terminal. */
module Content {
  import opened Utf8
  import opened Cells
  import opened Width
  import opened Parser
  import opened Sequences

  /** Text that an OSC string carried after at least `used` bytes. */
  predicate TextOk(s: seq<byte>, used: nat) { OscFits(s, used) && NoControls(s) }

  predicate LinkOk(link: seq<byte>) { TextOk(link, 3) }

  /** A base rune of the given width and zero-width marks, none of them a control. */
  predicate GraphemeOk(ch: seq<Rune>, width: int) {
    && ch != [] && RuneWidth(ch[0]) == width
    && (forall i :: 0 < i < |ch| ==> RuneWidth(ch[i]) == 0)
    && (forall i :: 0 <= i < |ch| ==> !IsControl(ch[i]))
  }

  predicate CellOk(c: Cell) {
    && LinkOk(c.link)
    && (c.width == 0 || c.width == 1 || c.width == 2)
    && (c.width == 0 ==> c.ch == [])
    && (c.width == 1 ==> c.ch == [] || (GraphemeOk(c.ch, 1) && c.ch != [0x20]))
    && (c.width == 2 ==> GraphemeOk(c.ch, 2))
  }

  predicate CellsOk(cells: seq<Cell>) { forall x :: 0 <= x < |cells| ==> CellOk(cells[x]) }

  /** The second half of a wide character. */
  function Half(c: Cell): Cell { Cell([], 0, c.style, c.link) }

  /** Wide characters are whole: each is followed by its half, and no half is alone. */
  predicate Paired(cells: seq<Cell>) {
    && (forall x :: 0 <= x < |cells| && cells[x].width == 2 ==> x + 1 < |cells| && cells[x + 1] == Half(cells[x]))
    && (forall x :: 0 <= x < |cells| && cells[x].width == 0 ==> x > 0 && cells[x - 1].width == 2)
  }

  predicate LineOk(cells: seq<Cell>) { CellsOk(cells) && Paired(cells) }

  predicate AllCellsOk(rows: seq<Row>) { forall y :: 0 <= y < |rows| ==> CellsOk(rows[y].cells) }

  predicate AllPaired(rows: seq<Row>) { forall y :: 0 <= y < |rows| ==> Paired(rows[y].cells) }

  lemma BlankIs(c: Cell)
    requires CellOk(c) && IsBlank(c)
    ensures c == BLANK
  {
  }
}
