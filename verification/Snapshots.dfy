/** The terminal written back as an escape stream. */
module Snapshots {
  import opened Utf8
  import opened Cells
  import opened Parser
  import opened Sequences
  import opened Terminal

  /** One thing the snapshot writes. */
  datatype Piece =
    | Csi(priv: byte, params: seq<Param>, inter: byte, final: byte)
    | Esc(inter: byte, final: byte)
    | OscString(data: seq<byte>)
    | Text(runes: seq<Rune>)
    | Control(b: byte)
    | Raw(bytes: seq<byte>)

  function PieceBytes(p: Piece): seq<byte> {
    match p
    case Csi(priv, ps, inter, final) => CsiText(priv, ps, inter, final)
    case Esc(inter, final) => [ESC] + Opt(inter) + [final]
    case OscString(data) => OscText(data)
    case Text(rs) => EncodeAll(rs)
    case Control(b) => [b]
    case Raw(bytes) => bytes
  }

  function Bytes(ps: seq<Piece>): seq<byte> {
    if ps == [] then [] else PieceBytes(ps[0]) + Bytes(ps[1..])
  }

  // ---------------------------------------------------------------------------
  // Renditions
  // ---------------------------------------------------------------------------

  function If(b: bool, p: Param): seq<Param> { if b then [p] else [] }

  function UnderlineParams(u: Underline): seq<Param> {
    match u
    case NoLine => []
    case Single => [P(4)]
    case Double => [P(21)]
    case Curly => [P(4), S(3)]
    case Dotted => [P(4), S(4)]
    case Dashed => [P(4), S(5)]
  }

  /** A colour: short codes for the first 16 palette entries when `base` and
      `bright` give any, else the extended form. */
  function ColorParams(c: Color, ext: nat, base: nat, bright: nat): seq<Param> {
    match c
    case Default => []
    case Indexed(i) =>
      if base != 0 && i < 8 then [P(base + i)]
      else if bright != 0 && 8 <= i < 16 then [P(bright + (i - 8))]
      else [P(ext), P(5), P(i)]
    case Rgb(r, g, b) => [P(ext), P(2), P(r), P(g), P(b)]
  }

  function ColorsParams(st: Style): seq<Param> {
    ColorParams(st.fg, 38, 30, 90) + (ColorParams(st.bg, 48, 40, 100) + ColorParams(st.ul, 58, 0, 0))
  }

  function LateParams(st: Style): seq<Param> {
    var a := st.attrs;
    UnderlineParams(st.underline)
    + (If(a.blink, P(5)) + (If(a.inverse, P(7)) + (If(a.hidden, P(8)) + (If(a.strike, P(9)) + ColorsParams(st)))))
  }

  /** The parameters that set exactly `st`, whatever the rendition was before. */
  function SgrParams(st: Style): seq<Param> {
    var a := st.attrs;
    [P(0)] + (If(a.bold, P(1)) + (If(a.dim, P(2)) + (If(a.italic, P(3)) + LateParams(st))))
  }

  function SgrPiece(st: Style): Piece { Csi(0, SgrParams(st), 0, 'm' as int) }

  const RESET := Csi(0, [P(0)], 0, 'm' as int)

  function LinkPiece(link: seq<byte>): Piece { OscString([0x38, 0x3b, 0x3b] + link) }

  function TitlePiece(title: seq<byte>): Piece { OscString([0x30, 0x3b] + title) }

  function SetPiece(n: nat): Piece { Csi('?' as int, [P(n)], 0, 'h' as int) }
  function ResetPiece(n: nat): Piece { Csi('?' as int, [P(n)], 0, 'l' as int) }

  /** Cursor position; a negative row is written with its sign. */
  function CupPiece(x: nat, y: int): Piece {
    if y + 1 >= 0 then Csi(0, [P(y + 1), P(x + 1)], 0, 'H' as int)
    else Raw([ESC, '[' as int, '-' as int] + Itoa(-(y + 1)) + [0x3b] + Itoa(x + 1) + ['H' as int])
  }

  // ---------------------------------------------------------------------------
  // Lines
  // ---------------------------------------------------------------------------

  /** The rendition and link in force while lines are written. */
  datatype Brush = Brush(pen: Style, link: seq<byte>)

  const DRY := Brush(PLAIN, [])

  function Dip(brush: Brush, c: Cell): Brush {
    if c.width == 0 then brush else Brush(c.style, c.link)
  }

  function CellText(c: Cell): seq<Rune> { if c.ch == [] then [0x20] else c.ch }

  function CellPieces(c: Cell, brush: Brush): seq<Piece> {
    if c.width == 0 then []
    else
      (if c.style != brush.pen then [SgrPiece(c.style)] else [])
      + (if c.link != brush.link then [LinkPiece(c.link)] else [])
      + [Text(CellText(c))]
  }

  function RowPieces(cells: seq<Cell>, brush: Brush): seq<Piece> {
    if cells == [] then []
    else CellPieces(cells[0], brush) + RowPieces(cells[1..], Dip(brush, cells[0]))
  }

  function DipAll(brush: Brush, cells: seq<Cell>): Brush
    decreases |cells|
  {
    if cells == [] then brush else DipAll(Dip(brush, cells[0]), cells[1..])
  }

  /** The cells of a line that are written: all of them when the next line
      continues it, else those up to the last visible one. */
  function Emitted(lines: seq<Row>, k: nat): seq<Cell>
    requires k < |lines|
  {
    if k + 1 < |lines| && lines[k + 1].wrapped then lines[k].cells
    else lines[k].cells[..LastVisible(lines[k].cells)]
  }

  const NEWLINE := [Control(0x0d), Control(0x0a)]

  /** What is written between line k and the next one. */
  function Break(lines: seq<Row>, k: nat): seq<Piece> {
    if k + 1 < |lines| && !lines[k + 1].wrapped then NEWLINE else []
  }

  /** Lines k and on. */
  function LinesPieces(lines: seq<Row>, k: nat, brush: Brush): seq<Piece>
    decreases |lines| - k
  {
    if k >= |lines| then []
    else
      RowPieces(Emitted(lines, k), brush) + Break(lines, k)
      + LinesPieces(lines, k + 1, DipAll(brush, Emitted(lines, k)))
  }

  function LinesBrush(lines: seq<Row>, k: nat, brush: Brush): Brush
    decreases |lines| - k
  {
    if k >= |lines| then brush else LinesBrush(lines, k + 1, DipAll(brush, Emitted(lines, k)))
  }

  // ---------------------------------------------------------------------------
  // Screens
  // ---------------------------------------------------------------------------

  function WipePieces(brush: Brush): seq<Piece> {
    (if brush.pen != PLAIN then [RESET] else []) + (if brush.link != [] then [LinkPiece([])] else [])
  }

  function SavedPieces(saved: Saved): seq<Piece>
    requires saved.valid ==> saved.x >= 0
  {
    if !saved.valid then []
    else [SgrPiece(saved.pen), CupPiece(saved.x, saved.y), Esc(0, '7' as int), RESET]
  }

  function RegionPieces(s: Screen, h: int): seq<Piece>
    requires 0 <= s.top <= s.bot
  {
    if s.top == 0 && s.bot == h - 1 then []
    else [Csi(0, [P(s.top + 1), P(s.bot + 1)], 0, 'r' as int)]
  }

  function CursorPieces(s: Screen, origin: bool): seq<Piece>
    requires s.cur.x >= 0
  {
    if origin then [SetPiece(6), CupPiece(s.cur.x, s.cur.y - s.top)] else [CupPiece(s.cur.x, s.cur.y)]
  }

  /** A pending wrap is reproduced by writing the last cell again. */
  function PendingPieces(s: Screen, w: int): seq<Piece>
    requires s.cur.pendingWrap ==> 0 <= s.cur.y < |s.rows| && 0 < w <= |s.rows[s.cur.y].cells|
  {
    if !s.cur.pendingWrap then []
    else
      var last := s.rows[s.cur.y].cells[w - 1];
      if last.width == 1 && last.ch != [] then [SgrPiece(last.style), Text(last.ch), RESET] else []
  }

  function ScreenPieces(t: T, s: Screen, withScrollback: bool): seq<Piece>
    requires ScreenFits(s, t.w, t.h)
  {
    var lines := if withScrollback then s.scrollback + s.rows else s.rows;
    LinesPieces(lines, 0, DRY)
    + (WipePieces(LinesBrush(lines, 0, DRY))
    + (SavedPieces(s.saved)
    + (RegionPieces(s, t.h)
    + (CursorPieces(s, t.modes.origin && withScrollback != t.altActive)
    + PendingPieces(s, t.w)))))
  }

  function When(b: bool, p: Piece): seq<Piece> { if b then [p] else [] }

  function CharsetPieces(cs: Charsets): seq<Piece> {
    When(cs.g0.Graphics?, Esc('(' as int, '0' as int))
    + (When(cs.g1.Graphics?, Esc(')' as int, '0' as int))
    + When(cs.gl == 1, Control(0x0e)))
  }

  function ModePieces(m: Modes): seq<Piece> {
    When(m.insert, Csi(0, [P(4)], 0, 'h' as int))
    + (When(m.lineFeedNewline, Csi(0, [P(20)], 0, 'h' as int))
    + (When(m.cursorKeys, SetPiece(1))
    + (When(!m.autowrap, ResetPiece(7))
    + (When(m.bracketedPaste, SetPiece(2004))
    + (When(m.focusEvents, SetPiece(1004))
    + (When(m.mouse != 0, SetPiece(m.mouse))
    + (When(m.mouseEnc != 0, SetPiece(m.mouseEnc))
    + When(m.cursorStyle != 0, Csi(0, [P(m.cursorStyle)], ' ' as int, 'q' as int)))))))))
  }

  /** Pen, link and modes that outlive the snapshot. */
  function StatePieces(t: T): seq<Piece> {
    [SgrPiece(t.pen)]
    + (When(t.link != [], LinkPiece(t.link))
    + (CharsetPieces(t.charsets)
    + (ModePieces(t.modes)
    + (When(t.title != [], TitlePiece(t.title))
    + When(t.modes.cursorVisible, SetPiece(25))))))
  }

  const PROLOGUE := [RESET, SetPiece(7), ResetPiece(6), ResetPiece(25)]

  function Pieces(t: T): seq<Piece> {
    PROLOGUE
    + (ScreenPieces(t, t.main, true)
    + ((if t.altActive then [SetPiece(1049)] + ScreenPieces(t, t.alt, false) else [])
    + StatePieces(t)))
  }

  /** Snapshot: an escape stream that rebuilds the terminal's state. */
  function Snapshot(t: T): seq<byte> { Bytes(Pieces(t)) }

  // ---------------------------------------------------------------------------
  // The stream reads back as the pieces it was made of
  // ---------------------------------------------------------------------------

  function PieceActs(p: Piece): seq<Action> {
    match p
    case Csi(priv, ps, inter, final) => [CsiDispatch(priv, inter, ps, final)]
    case Esc(inter, final) => [EscDispatch(inter, final)]
    case OscString(data) => [OscDispatch(data)]
    case Text(rs) => Prints(rs)
    case Control(b) => [Execute(b)]
    case Raw(_) => []
  }

  /** Pieces that survive the trip through the parser. */
  predicate PieceOk(p: Piece) {
    match p
    case Csi(priv, ps, inter, final) => ValidCsi(priv, inter, final) && Writable(ps)
    case Esc(inter, final) => (inter == '(' as int || inter == ')' as int || inter == 0) && 0x30 <= final <= 0x39
    case OscString(data) => OscFits(data, 0) && NoControls(data)
    case Text(rs) => forall i :: 0 <= i < |rs| ==> !IsControl(rs[i])
    case Control(b) => b == 0x0d || b == 0x0a || b == 0x0e
    case Raw(bytes) => Ignored(bytes)
  }

  /** The bytes of a cursor position with a negative row: the sign makes the parser
      ignore the sequence. */
  predicate Ignored(bytes: seq<byte>) {
    && |bytes| >= 5 && bytes[..3] == [ESC, '[' as int, '-' as int] && bytes[|bytes| - 1] == 'H' as int
    && forall i :: 3 <= i < |bytes| - 1 ==> 0x30 <= bytes[i] <= 0x3b
  }

  predicate PiecesOk(ps: seq<Piece>) { forall i :: 0 <= i < |ps| ==> PieceOk(ps[i]) }

  function Acts(ps: seq<Piece>): seq<Action> {
    if ps == [] then [] else PieceActs(ps[0]) + Acts(ps[1..])
  }

  lemma EscRead(p: PState, inter: byte, final: byte)
    requires Ready(p) && PieceOk(Esc(inter, final))
    ensures var o := ParseLoop(p, PieceBytes(Esc(inter, final)));
      Ready(o.p) && o.acts == [EscDispatch(inter, final)]
  {
    hide ParseLoop;
    var s := [ESC] + Opt(inter) + [final];
    LoopAscii(p, s);
    var e := ResetCsi(p).(state := Escape);
    assert FeedByte(p, ESC) == Out(e, []);
    if inter == 0 {
      assert s == [ESC] + [final];
      FeedAppend(p, [ESC], [final]);
      Feed1(p, ESC);
      Feed1(e, final);
    } else {
      assert s == [ESC] + ([inter] + [final]);
      FeedAppend(p, [ESC], [inter] + [final]);
      Feed1(p, ESC);
      FeedAppend(e, [inter], [final]);
      Feed1(e, inter);
      Feed1(e.(inter := inter, state := EscapeIntermediate), final);
    }
  }

  lemma ControlRead(p: PState, b: byte)
    requires Ready(p) && PieceOk(Control(b))
    ensures ParseLoop(p, [b]) == Out(p, [Execute(b)])
  {
    LoopAscii(p, [b]);
    Feed1(p, b);
  }

  lemma {:induction false} IgnoreRead(p: PState, s: seq<byte>)
    requires p.state.CsiIntermediate? || p.state.CsiIgnore?
    requires forall i :: 0 <= i < |s| ==> 0x30 <= s[i] <= 0x3b
    ensures var o := Feed(p, s); o.acts == [] && o.p.partial == p.partial && o.p == p.(state := if s == [] then p.state else CsiIgnore)
    decreases |s|
  {
    if s != [] {
      IgnoreRead(p.(state := CsiIgnore), s[1..]);
    }
  }

  lemma RawRead(p: PState, bytes: seq<byte>)
    requires Ready(p) && Ignored(bytes)
    ensures var o := ParseLoop(p, bytes); Ready(o.p) && o.acts == []
  {
    hide ParseLoop, Feed;
    var n := |bytes| - 1;
    LoopAscii(p, bytes);
    var head, body, tail := bytes[..3], bytes[3..n], [bytes[n]];
    assert bytes == head + (body + tail);
    var q := ResetCsi(p).(state := Escape);
    assert head == [ESC] + (['[' as int] + ['-' as int]);
    FeedAppend(p, [ESC], ['[' as int] + ['-' as int]);
    Feed1(p, ESC);
    FeedAppend(q, ['[' as int], ['-' as int]);
    Feed1(q, '[' as int);
    Feed1(q.(state := CsiEntry), '-' as int);
    var e := q.(inter := '-' as int, state := CsiIntermediate);
    FeedAppend(p, head, body + tail);
    FeedAppend(e, body, tail);
    IgnoreRead(e, body);
    Feed1(e.(state := CsiIgnore), bytes[n]);
  }

  lemma PieceRead(p: PState, piece: Piece)
    requires Ready(p) && PieceOk(piece)
    ensures var o := ParseLoop(p, PieceBytes(piece)); Ready(o.p) && o.acts == PieceActs(piece)
  {
    hide ParseLoop, OscFits;
    match piece
    case Csi(priv, ps, inter, final) => CsiRoundTrip(p, priv, ps, inter, final);
    case Esc(inter, final) => EscRead(p, inter, final);
    case OscString(data) => OscRoundTrip(p, data);
    case Text(rs) => TextRead(p, rs);
    case Control(b) => ControlRead(p, b);
    case Raw(bytes) => RawRead(p, bytes);
  }

  /** The bytes of a list of pieces dispatch exactly the pieces' actions. */
  lemma {:induction false} PiecesRead(p: PState, ps: seq<Piece>)
    requires Ready(p) && PiecesOk(ps)
    ensures var o := ParseLoop(p, Bytes(ps)); Ready(o.p) && o.acts == Acts(ps)
    decreases |ps|
  {
    hide ParseLoop, PieceBytes, PieceActs, PieceOk;
    if ps == [] {
      LoopNil(p, Out(p, []));
    } else {
      PieceRead(p, ps[0]);
      LoopSplit(p, PieceBytes(ps[0]), Bytes(ps[1..]));
      PiecesRead(ParseLoop(p, PieceBytes(ps[0])).p, ps[1..]);
    }
  }
}
