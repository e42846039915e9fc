/** What dispatched sequences do to the terminal: controls, escapes, control
    sequences, renditions and operating system commands. */
module Dispatch {
  import opened Utf8
  import opened Cells
  import opened Parser
  import opened Terminal

  /** Parameter i, or a default when it is absent or zero. */
  function ParamAt(ps: seq<Param>, i: nat, def: nat): nat {
    if i >= |ps| || !ps[i].has || ps[i].value == 0 then def else ps[i].value
  }

  /** Parameter i, or a default when it is absent; zero is a value. */
  function RawParam(ps: seq<Param>, i: nat, def: int): int {
    if i >= |ps| || !ps[i].has then def else ps[i].value
  }

  // ---------------------------------------------------------------------------
  // SGR
  // ---------------------------------------------------------------------------

  /** The arguments after 38, 48 or 58 at the head of `ps`: the colour and how
      many parameters it took, 0 when malformed. */
  function ExtendedColor(ps: seq<Param>): (c: (Color, nat))
    requires ps != []
    ensures c.1 < |ps|
  {
    var sub := |ps| > 1 && ps[1].sub;
    var mode := RawParam(ps, 1, -1);
    if mode == 5 then
      var n := RawParam(ps, 2, 0);
      if |ps| <= 2 || n < 0 || n > 255 then (Default, 0) else (Indexed(n), 2)
    else if mode == 2 then
      // 2::r:g:b has an empty colour space before the components.
      var skip := sub && |ps| > 5 && ps[5].sub && !ps[2].has;
      var start := if skip then 3 else 2;
      if start + 2 >= |ps| then (Default, 0)
      else
        var r, g, b := RawParam(ps, start, 0), RawParam(ps, start + 1, 0), RawParam(ps, start + 2, 0);
        if r > 255 || g > 255 || b > 255 then (Default, 0)
        else (Rgb(r, g, b), if skip then 5 else 4)
    else (Default, 0)
  }

  /** The underline style of 4, or of 4:n. */
  function UnderlineOf(ps: seq<Param>): Underline
    requires ps != []
  {
    if |ps| > 1 && ps[1].sub then
      match RawParam(ps, 1, 1)
      case 0 => NoLine
      case 2 => Double
      case 3 => Curly
      case 4 => Dotted
      case 5 => Dashed
      case _ => Single
    else Single
  }

  /** The rendition after the first parameter of `ps`, and how many parameters
      that took. */
  function SgrStep(ps: seq<Param>, pen: Style): (r: (Style, nat))
    requires ps != []
    ensures 1 <= r.1 <= |ps|
  {
    var v := RawParam(ps, 0, 0);
    if ps[0].sub then (pen, 1)
    else if v == 0 then (PLAIN, 1)
    else if v == 1 then (pen.(attrs := pen.attrs.(bold := true)), 1)
    else if v == 2 then (pen.(attrs := pen.attrs.(dim := true)), 1)
    else if v == 3 then (pen.(attrs := pen.attrs.(italic := true)), 1)
    else if v == 4 then (pen.(underline := UnderlineOf(ps)), 1)
    else if v == 5 || v == 6 then (pen.(attrs := pen.attrs.(blink := true)), 1)
    else if v == 7 then (pen.(attrs := pen.attrs.(inverse := true)), 1)
    else if v == 8 then (pen.(attrs := pen.attrs.(hidden := true)), 1)
    else if v == 9 then (pen.(attrs := pen.attrs.(strike := true)), 1)
    else if v == 21 then (pen.(underline := Double), 1)
    else if v == 22 then (pen.(attrs := pen.attrs.(bold := false, dim := false)), 1)
    else if v == 23 then (pen.(attrs := pen.attrs.(italic := false)), 1)
    else if v == 24 then (pen.(underline := NoLine), 1)
    else if v == 25 then (pen.(attrs := pen.attrs.(blink := false)), 1)
    else if v == 27 then (pen.(attrs := pen.attrs.(inverse := false)), 1)
    else if v == 28 then (pen.(attrs := pen.attrs.(hidden := false)), 1)
    else if v == 29 then (pen.(attrs := pen.attrs.(strike := false)), 1)
    else if 30 <= v <= 37 then (pen.(fg := Indexed(v - 30)), 1)
    else if v == 39 then (pen.(fg := Default), 1)
    else if 40 <= v <= 47 then (pen.(bg := Indexed(v - 40)), 1)
    else if v == 49 then (pen.(bg := Default), 1)
    else if v == 59 then (pen.(ul := Default), 1)
    else if 90 <= v <= 97 then (pen.(fg := Indexed(v - 90 + 8)), 1)
    else if 100 <= v <= 107 then (pen.(bg := Indexed(v - 100 + 8)), 1)
    else if v == 38 || v == 48 || v == 58 then
      var (c, used) := ExtendedColor(ps);
      if used == 0 then (pen, 1)
      else if v == 38 then (pen.(fg := c), 1 + used)
      else if v == 48 then (pen.(bg := c), 1 + used)
      else (pen.(ul := c), 1 + used)
    else (pen, 1)
  }

  function SgrRun(ps: seq<Param>, pen: Style): Style
    decreases |ps|
  {
    if ps == [] then pen
    else
      var (pen', n) := SgrStep(ps, pen);
      SgrRun(ps[n..], pen')
  }

  /** SGR: no parameters at all reset the rendition. */
  function Sgr(ps: seq<Param>, pen: Style): Style {
    if ps == [] then PLAIN else SgrRun(ps, pen)
  }

  // ---------------------------------------------------------------------------
  // Modes
  // ---------------------------------------------------------------------------

  function SetMode(m: Modes, n: int, on: bool): Modes {
    if n == 4 then m.(insert := on)
    else if n == 20 then m.(lineFeedNewline := on)
    else m
  }

  function SetModes(t: T, ps: seq<Param>, on: bool): (r: T)
    decreases |ps|
  {
    if ps == [] then t
    else SetModes(t.(modes := SetMode(t.modes, RawParam(ps, 0, -1), on)), ps[1..], on)
  }

  /** The private modes that are flags or numbers of the mode record. */
  function PrivateFlag(m: Modes, n: int, on: bool): Modes {
    if n == 1 then m.(cursorKeys := on)
    else if n == 7 then m.(autowrap := on)
    else if n == 25 then m.(cursorVisible := on)
    else if n == 9 || n == 1000 || n == 1002 || n == 1003 then
      m.(mouse := if on then n else if m.mouse == n then 0 else m.mouse)
    else if n == 1005 || n == 1006 || n == 1015 then
      m.(mouseEnc := if on then n else if m.mouseEnc == n then 0 else m.mouseEnc)
    else if n == 1004 then m.(focusEvents := on)
    else if n == 2004 then m.(bracketedPaste := on)
    else m
  }

  function SetPrivateMode(t: T, n: int, on: bool): T {
    if n == 6 then MoveCursor(t.(modes := t.modes.(origin := on)), 0, 0)
    else if n == 47 || n == 1047 then if on then EnterAlt(t, false) else LeaveAlt(t, false)
    else if n == 1049 then if on then EnterAlt(t, true) else LeaveAlt(t, true)
    else t.(modes := PrivateFlag(t.modes, n, on))
  }

  function SetPrivateModes(t: T, ps: seq<Param>, on: bool): T
    decreases |ps|
  {
    if ps == [] then t
    else SetPrivateModes(SetPrivateMode(t, RawParam(ps, 0, -1), on), ps[1..], on)
  }

  // ---------------------------------------------------------------------------
  // Dispatch
  // ---------------------------------------------------------------------------

  function ApplyExecute(t: T, b: byte): T {
    var s := Active(t);
    if b == 0x08 then SetCur(t, Max(s.cur.x - 1, 0), s.cur.y, false)
    else if b == 0x09 then TabForward(t, 1)
    else if 0x0a <= b <= 0x0c then
      var t1 := LineFeed(t);
      if t1.modes.lineFeedNewline then SetCur(t1, 0, Active(t1).cur.y, false) else t1
    else if b == 0x0d then SetCur(t, 0, s.cur.y, false)
    else if b == 0x0e then t.(charsets := t.charsets.(gl := 1))
    else if b == 0x0f then t.(charsets := t.charsets.(gl := 0))
    else t
  }

  function Designate(final: byte): Charset {
    if final == '0' as int then Graphics else Ascii
  }

  function ApplyEsc(t: T, inter: byte, final: byte): T {
    var s := Active(t);
    if inter == 0 then
      if final == '7' as int then SaveCursor(t)
      else if final == '8' as int then RestoreCursor(t)
      else if final == 'D' as int then LineFeed(t)
      else if final == 'E' as int then
        var t1 := LineFeed(t);
        SetCur(t1, 0, Active(t1).cur.y, false)
      else if final == 'H' as int then t.(tabStops := t.tabStops[s.cur.x := true])
      else if final == 'M' as int then ReverseIndex(t)
      else if final == 'c' as int then FullReset(t)
      else t
    else if inter == '(' as int then t.(charsets := t.charsets.(g0 := Designate(final)))
    else if inter == ')' as int then t.(charsets := t.charsets.(g1 := Designate(final)))
    else if inter == '#' as int && final == '8' as int then Align(t)
    else t
  }

  function ClearTabs(t: T, mode: int): T {
    if mode == 0 then t.(tabStops := t.tabStops[Active(t).cur.x := false])
    else if mode == 3 then t.(tabStops := seq(t.w, i => false))
    else t
  }

  /** DECSTBM: a region of at least two lines, and the cursor home. */
  function SetRegion(t: T, ps: seq<Param>): T {
    var top := ParamAt(ps, 0, 1) - 1;
    var bot := Min(ParamAt(ps, 1, t.h) - 1, t.h - 1);
    if top < bot then MoveCursor(With(t, Active(t).(top := top, bot := bot)), 0, 0) else t
  }

  /** CSI sequences that move the cursor. */
  function ApplyMotion(t: T, ps: seq<Param>, f: byte): T {
    var s := Active(t);
    var n := ParamAt(ps, 0, 1);
    if f == 'A' as int then CursorUp(t, n)
    else if f == 'B' as int || f == 'e' as int then CursorDown(t, n)
    else if f == 'C' as int || f == 'a' as int then SetColumn(t, s.cur.x + n)
    else if f == 'D' as int then SetColumn(t, s.cur.x - n)
    else if f == 'E' as int then SetColumn(CursorDown(t, n), 0)
    else if f == 'F' as int then SetColumn(CursorUp(t, n), 0)
    else if f == 'G' as int || f == '`' as int then SetColumn(t, n - 1)
    else if f == 'H' as int || f == 'f' as int then
      MoveCursor(t, ParamAt(ps, 1, 1) - 1, n - 1 + if t.modes.origin then s.top else 0)
    else if f == 'I' as int then TabForward(t, n)
    else if f == 'Z' as int then TabBackward(t, n)
    else if f == 'd' as int then MoveCursor(t, s.cur.x, n - 1 + if t.modes.origin then s.top else 0)
    else t
  }

  /** CSI sequences that change cells and lines. */
  function ApplyEdit(t: T, ps: seq<Param>, f: byte): T {
    hide InsertCells, EraseInDisplay, EraseInLine, InsertLines, DeleteLines, DeleteChars, Scroll, ScrollDown, EraseChars, Repeat;
    var n := ParamAt(ps, 0, 1);
    if f == '@' as int then
      var t1 := InsertCells(t, n);
      SetCur(t1, Active(t1).cur.x, Active(t1).cur.y, false)
    else if f == 'J' as int then EraseInDisplay(t, RawParam(ps, 0, 0))
    else if f == 'K' as int then EraseInLine(t, RawParam(ps, 0, 0))
    else if f == 'L' as int then InsertLines(t, n)
    else if f == 'M' as int then DeleteLines(t, n)
    else if f == 'P' as int then DeleteChars(t, n)
    else if f == 'S' as int then Scroll(t, n, false)
    else if f == 'T' as int then ScrollDown(t, n)
    else if f == 'X' as int then EraseChars(t, n)
    else if f == 'b' as int then if t.lastPrinted != 0 then Repeat(t, t.lastPrinted, n) else t
    else t
  }

  predicate IsMotion(f: byte) {
    f == 'A' as int || f == 'B' as int || f == 'e' as int || f == 'C' as int || f == 'a' as int
    || f == 'D' as int || f == 'E' as int || f == 'F' as int || f == 'G' as int || f == '`' as int
    || f == 'H' as int || f == 'f' as int || f == 'I' as int || f == 'Z' as int || f == 'd' as int
  }

  function ApplyPlainCsi(t: T, ps: seq<Param>, f: byte): T {
    hide ApplyMotion, ApplyEdit, SetModes, Sgr, SetRegion, SaveCursor, RestoreCursor, ClearTabs;
    if IsMotion(f) then ApplyMotion(t, ps, f)
    else if f == 'g' as int then ClearTabs(t, RawParam(ps, 0, 0))
    else if f == 'h' as int then SetModes(t, ps, true)
    else if f == 'l' as int then SetModes(t, ps, false)
    else if f == 'm' as int then t.(pen := Sgr(ps, t.pen))
    else if f == 'r' as int then SetRegion(t, ps)
    else if f == 's' as int then SaveCursor(t)
    else if f == 'u' as int then RestoreCursor(t)
    else ApplyEdit(t, ps, f)
  }

  function ApplyCsi(t: T, priv: byte, inter: byte, ps: seq<Param>, f: byte): T {
    hide ApplyPlainCsi, SetPrivateModes, SoftReset;
    if inter != 0 then
      if inter == ' ' as int && f == 'q' as int then
        t.(modes := t.modes.(cursorStyle := RawParam(ps, 0, 0)))
      else if inter == '!' as int && f == 'p' as int then SoftReset(t)
      else t
    else if priv == '?' as int then
      if f == 'h' as int then SetPrivateModes(t, ps, true)
      else if f == 'l' as int then SetPrivateModes(t, ps, false)
      else t
    else if priv == 0 then ApplyPlainCsi(t, ps, f)
    else t
  }

  /** The first ';' of a string, or its length. */
  function Semicolon(s: seq<byte>): (i: nat)
    ensures i <= |s| && (i < |s| ==> s[i] == 0x3b)
  {
    if s == [] || s[0] == 0x3b then 0 else 1 + Semicolon(s[1..])
  }

  datatype Option<T> = None | Some(value: T)

  function Digits(s: seq<byte>, acc: nat): Option<nat>
    decreases |s|
  {
    if s == [] then Some(acc)
    else if 0x30 <= s[0] <= 0x39 then Digits(s[1..], acc * 10 + (s[0] - 0x30))
    else None
  }

  /** strconv.Atoi, but for the range check: no code beyond it means anything. */
  function Atoi(s: seq<byte>): Option<int> {
    var neg := s != [] && s[0] == 0x2d;
    var body := if s != [] && (s[0] == 0x2d || s[0] == 0x2b) then s[1..] else s;
    if body == [] then None
    else match Digits(body, 0)
      case None => None
      case Some(n) => var v: int := n; Some(if neg then -v else v)
  }

  /** Title and hyperlinks. */
  function ApplyOsc(t: T, data: seq<byte>): T {
    var sep := Semicolon(data);
    if sep == |data| then t
    else
      var arg := data[sep + 1..];
      match Atoi(data[..sep])
      case None => t
      case Some(code) =>
        if code == 0 || code == 2 then t.(title := arg)
        else if code == 8 then
          var p := Semicolon(arg);
          if p == |arg| then t else t.(link := arg[p + 1..])
        else t
  }

  function Apply(t: T, a: Action): T {
    hide PrintRune, ApplyExecute, ApplyEsc, ApplyCsi, ApplyOsc;
    match a
    case Print(r) => PrintRune(t, r)
    case Execute(b) => ApplyExecute(t, b)
    case EscDispatch(inter, final) => ApplyEsc(t, inter, final)
    case CsiDispatch(priv, inter, ps, final) => ApplyCsi(t, priv, inter, ps, final)
    case OscDispatch(data) => ApplyOsc(t, data)
  }

  function ApplyAll(t: T, acts: seq<Action>): T
    decreases |acts|
  {
    hide Apply;
    if acts == [] then t else ApplyAll(Apply(t, acts[0]), acts[1..])
  }

  lemma {:induction false} ApplyAppend(t: T, a: seq<Action>, b: seq<Action>)
    ensures ApplyAll(t, a + b) == ApplyAll(ApplyAll(t, a), b)
    decreases |a|
  {
    hide Apply;
    if a == [] {
      assert a + b == b;
    } else {
      assert (a + b)[1..] == a[1..] + b;
      ApplyAppend(Apply(t, a[0]), a[1..], b);
    }
  }

  // ---------------------------------------------------------------------------
  // The emulator: parser and terminal together
  // ---------------------------------------------------------------------------

  datatype Emulator = Emulator(p: PState, t: T)

  function NewEmulator(w: nat, h: nat, maxScrollback: nat): Emulator
    requires w >= 2 && h >= 1
  {
    Emulator(INIT, New(w, h, maxScrollback))
  }

  function Write(e: Emulator, data: seq<byte>): Emulator {
    var o := Parse(e.p, data);
    Emulator(o.p, ApplyAll(e.t, o.acts))
  }

  function WriteAll(e: Emulator, chunks: seq<seq<byte>>): Emulator
    decreases |chunks|
  {
    if chunks == [] then e else WriteAll(Write(e, chunks[0]), chunks[1..])
  }

  lemma {:induction false} WriteAllIs(e: Emulator, chunks: seq<seq<byte>>)
    ensures WriteAll(e, chunks)
      == Emulator(ParseAll(e.p, chunks).p, ApplyAll(e.t, ParseAll(e.p, chunks).acts))
    decreases |chunks|
  {
    hide Parse, Apply;
    if chunks != [] {
      WriteAllIs(Write(e, chunks[0]), chunks[1..]);
      var o := Parse(e.p, chunks[0]);
      ApplyAppend(e.t, o.acts, ParseAll(o.p, chunks[1..]).acts);
    }
  }

  /** Chunking does not matter to the terminal either: a stream without torn
      sequences, however it is cut into Write calls, leaves the emulator where
      one call of the whole leaves it. */
  lemma WriteChunks(e: Emulator, chunks: seq<seq<byte>>)
    requires Pending(e.p) && NoTorn(e.p.partial + Flatten(chunks))
    ensures WriteAll(e, chunks) == Write(e, Flatten(chunks))
  {
    hide Parse, ApplyAll, WriteAll;
    WriteAllIs(e, chunks);
    ChunkingIrrelevant(e.p, chunks);
  }
}
