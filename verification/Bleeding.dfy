/** A row that scrolls in takes the background of the pen. When that leaves a line
    that is written on it as it was. */
module Bleeding {
  import opened Cells
  import opened Snapshots
  import opened Content
  import opened Alignment

  /** Line k is written on a background and leaves some of it showing; line 0 is line b
      of the tape. */
  predicate Bleeds(h: int, lines: seq<Row>, k: nat, b: nat, w: int)
    requires k < |lines|
  {
    && b + k >= h && PenAt(lines, k).bg != Default
    && |Emitted(lines, k)| != w && !(k + 1 < |lines| && lines[k + 1].wrapped)
  }

  lemma BlankTail(cells: seq<Cell>)
    requires CellsOk(cells)
    ensures forall i :: LastVisible(cells) <= i < |cells| ==> cells[i] == BLANK
  {
    hide CellOk, IsBlank;
    forall i | LastVisible(cells) <= i < |cells| ensures cells[i] == BLANK {
      BlankIs(cells[i]);
    }
  }

  lemma BlankLooks(st: Style)
    ensures IsBlank(Blank(st)) <==> st.bg == Default
    ensures Blank(st) == BLANK <==> st.bg == Default
  {
  }

  lemma PaperIs(h: int, lines: seq<Row>, k: nat, b: nat, w: int)
    requires k < |lines| && |Emitted(lines, k)| != w && !(k + 1 < |lines| && lines[k + 1].wrapped)
    ensures Paper(h, lines, k, b + k).bg == Default <==> !Bleeds(h, lines, k, b, w)
  {
    hide PenAt, Emitted;
  }

  lemma SheetFlat(h: int, lines: seq<Row>, k: nat, n: nat, w: int)
    requires Typeable(lines, w) && k < |lines| && !(k + 1 < |lines| && lines[k + 1].wrapped)
    ensures var e := Emitted(lines, k);
      && |e| <= w && Sheet(h, lines, k, n, w) == e + Blanks(w - |e|, Paper(h, lines, k, n))
      && e == lines[k].cells[..LastVisible(lines[k].cells)]
  {
    hide Paper, Typeable, LineOk, LastVisible;
    EmittedIs(lines, k, w);
  }

  lemma SheetFull(h: int, lines: seq<Row>, k: nat, n: nat, w: int)
    requires Typeable(lines, w) && k + 1 < |lines| && lines[k + 1].wrapped && Continues(lines, k + 1, w)
    ensures var e := Emitted(lines, k);
      && |e| <= w && e == lines[k].cells && Sheet(h, lines, k, n, w) == e + (if |e| < w then [BLANK] else [])
  {
    hide Paper, Typeable, LastVisible, Sheet;
    SheetGap(h, lines, k, n, w);
  }

  /** A line on the screen comes out as it was unless it bleeds. */
  lemma RowSame(h: int, lines: seq<Row>, k: nat, b: nat, w: int)
    requires Typeable(lines, w) && k < |lines| && |lines[k].cells| == w
    requires k + 1 < |lines| && lines[k + 1].wrapped ==> Continues(lines, k + 1, w)
    ensures |Emitted(lines, k)| <= w && (Sheet(h, lines, k, b + k, w) == lines[k].cells <==> !Bleeds(h, lines, k, b, w))
  {
    hide Paper, LastVisible, Sheet, Continues, Emitted, Paired, CellsOk, PenAt;
    var cells, e := lines[k].cells, Emitted(lines, k);
    if k + 1 < |lines| && lines[k + 1].wrapped {
      SheetFull(h, lines, k, b + k, w);
    } else {
      SheetFlat(h, lines, k, b + k, w);
      assert LineOk(cells);
      BlankTail(cells);
      var paper := Paper(h, lines, k, b + k);
      BlankLooks(paper);
      var sheet := Sheet(h, lines, k, b + k, w);
      if |e| == w {
        assert sheet == e == cells;
      } else {
        PaperIs(h, lines, k, b, w);
        assert sheet[w - 1] == Blank(paper) && cells[w - 1] == BLANK;
        if paper.bg == Default {
          assert sheet == cells;
        }
      }
    }
  }

  lemma TrimmedTo(cells: seq<Cell>, n: nat)
    requires n <= |cells| && (n > 0 ==> !IsBlank(cells[n - 1])) && forall i :: n <= i < |cells| ==> IsBlank(cells[i])
    ensures cells[..LastVisible(cells)] == cells[..n]
  {
    hide IsBlank, LastVisible;
    LastVisibleIs(cells, n);
  }

  /** A stored line comes out as it was unless it bleeds. */
  lemma StoredSame(h: int, lines: seq<Row>, k: nat, b: nat, w: int)
    requires Typeable(lines, w) && k < |lines| && LastVisible(lines[k].cells) == |lines[k].cells|
    requires k + 1 < |lines| && lines[k + 1].wrapped ==> Continues(lines, k + 1, w)
    ensures |Emitted(lines, k)| <= w
    ensures var sheet := Sheet(h, lines, k, b + k, w);
      sheet[..LastVisible(sheet)] == lines[k].cells <==> !Bleeds(h, lines, k, b, w)
  {
    hide Paper, LastVisible, Sheet, Continues, Emitted, Paired, CellsOk, PenAt, IsBlank, Typeable;
    EmittedIs(lines, k, w);
    var cells, e := lines[k].cells, Emitted(lines, k);
    var sheet := Sheet(h, lines, k, b + k, w);
    BlankLooks(PLAIN);
    if k + 1 < |lines| && lines[k + 1].wrapped {
      SheetFull(h, lines, k, b + k, w);
      TrimmedTo(sheet, |e|);
      assert sheet[..|e|] == e;
    } else {
      SheetFlat(h, lines, k, b + k, w);
      assert cells[..|cells|] == cells;
      var paper := Paper(h, lines, k, b + k);
      BlankLooks(paper);
      if |e| == w {
        assert sheet == e;
        TrimmedTo(sheet, w);
      } else {
        PaperIs(h, lines, k, b, w);
        if paper.bg == Default {
          TrimmedTo(sheet, |e|);
          assert sheet[..|e|] == e;
        } else {
          assert !IsBlank(sheet[w - 1]);
          TrimmedTo(sheet, w);
        }
      }
    }
  }
}
