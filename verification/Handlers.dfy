/** Dispatched sequences carried out in place, and the emulator whole: the parser
    and the screens, written to chunk by chunk. */
module Handlers {
  import opened Utf8
  import opened Cells
  import opened Parser
  import opened Terminal
  import opened ScreenMachine
  import Dispatch
  import ParserMachine

  /** execute. */
  method Execute(d: Display, b: byte)
    requires d.Valid()
    modifies d.Footprint()
    ensures d.Valid() && d.View() == Dispatch.ApplyExecute(old(d.View()), b)
    ensures forall o :: o in d.Footprint() ==> o in old(d.Footprint()) || fresh(o)
  {
    hide Display.Valid, Display.View, Display.Footprint, SetCur, LineFeed, TabForward;
    d.Sees();
    var s, cs := Active(d.rest), d.rest.charsets;
    if b == 0x08 {
      d.Move(if s.cur.x > 0 then s.cur.x - 1 else 0, s.cur.y, false);
    } else if b == 0x09 {
      d.TabForward(1);
    } else if 0x0a <= b <= 0x0c {
      d.LineFeed();
      d.Sees();
      if d.rest.modes.lineFeedNewline {
        d.Move(0, Active(d.rest).cur.y, false);
      }
    } else if b == 0x0d {
      d.Move(0, s.cur.y, false);
    } else if b == 0x0e {
      SetCharsets(d, cs.(gl := 1));
    } else if b == 0x0f {
      SetCharsets(d, cs.(gl := 0));
    }
  }

  /** The designated sets. */
  method SetCharsets(d: Display, cs: Charsets)
    requires d.Valid() && 0 <= cs.gl <= 1
    modifies d.Footprint()
    ensures d.Valid() && d.View() == old(d.View()).(charsets := cs)
    ensures forall o :: o in d.Footprint() ==> o in old(d.Footprint()) || fresh(o)
  {
    hide Display.Valid, Display.View, Display.Footprint;
    d.Sees();
    d.SetFields(d.rest.pen, d.rest.link, cs, d.rest.modes);
  }

  /** The modes. */
  method SetModeFields(d: Display, m: Modes)
    requires d.Valid()
    modifies d.Footprint()
    ensures d.Valid() && d.View() == old(d.View()).(modes := m) && d.rest == old(d.rest).(modes := m)
    ensures forall o :: o in d.Footprint() ==> o in old(d.Footprint()) || fresh(o)
  {
    hide Display.Valid, Display.View, Display.Footprint;
    d.Sees();
    d.SetFields(d.rest.pen, d.rest.link, d.rest.charsets, m);
  }

  /** The pen. */
  method SetPen(d: Display, pen: Style)
    requires d.Valid()
    modifies d.Footprint()
    ensures d.Valid() && d.View() == old(d.View()).(pen := pen)
    ensures forall o :: o in d.Footprint() ==> o in old(d.Footprint()) || fresh(o)
  {
    hide Display.Valid, Display.View, Display.Footprint;
    d.Sees();
    d.SetFields(pen, d.rest.link, d.rest.charsets, d.rest.modes);
  }

  /** escDispatch. */
  method Esc(d: Display, inter: byte, final: byte)
    requires d.Valid()
    modifies d.Footprint()
    ensures d.Valid() && d.View() == Dispatch.ApplyEsc(old(d.View()), inter, final)
    ensures forall o :: o in d.Footprint() ==> o in old(d.Footprint()) || fresh(o)
  {
    hide Display.Valid, Display.View, Display.Footprint, Align, SaveCursor, RestoreCursor, LineFeed, ReverseIndex, FullReset, SetCur;
    d.Sees();
    var cs := d.rest.charsets;
    if inter == 0 {
      PlainEsc(d, final);
    } else if inter == '(' as int {
      SetCharsets(d, cs.(g0 := Dispatch.Designate(final)));
    } else if inter == ')' as int {
      SetCharsets(d, cs.(g1 := Dispatch.Designate(final)));
    } else if inter == '#' as int && final == '8' as int {
      d.Align();
    }
  }

  /** Escapes without an intermediate byte. */
  method PlainEsc(d: Display, final: byte)
    requires d.Valid()
    modifies d.Footprint()
    ensures d.Valid() && d.View() == Dispatch.ApplyEsc(old(d.View()), 0, final)
    ensures forall o :: o in d.Footprint() ==> o in old(d.Footprint()) || fresh(o)
  {
    hide Display.Valid, Display.View, Display.Footprint, Align, RestoreCursor, LineFeed, ReverseIndex, FullReset, SetCur;
    d.Sees();
    if final == '7' as int {
      d.SaveCursor();
    } else if final == '8' as int {
      d.RestoreCursor();
    } else if final == 'D' as int {
      d.LineFeed();
    } else if final == 'E' as int {
      d.LineFeed();
      d.Sees();
      d.Move(0, Active(d.rest).cur.y, false);
    } else if final == 'H' as int {
      d.SetTitle(d.rest.title, d.rest.tabStops[Active(d.rest).cur.x := true]);
    } else if final == 'M' as int {
      d.ReverseIndex();
    } else if final == 'c' as int {
      d.FullReset();
    }
  }

  /** TBC. */
  method ClearTabs(d: Display, mode: int)
    requires d.Valid()
    modifies d.Footprint()
    ensures d.Valid() && d.View() == Dispatch.ClearTabs(old(d.View()), mode)
    ensures forall o :: o in d.Footprint() ==> o in old(d.Footprint()) || fresh(o)
  {
    hide Display.Valid, Display.View, Display.Footprint;
    d.Sees();
    if mode == 0 {
      d.SetTitle(d.rest.title, d.rest.tabStops[Active(d.rest).cur.x := false]);
    } else if mode == 3 {
      var stops := d.rest.tabStops;
      for i := 0 to |stops|
        invariant |stops| == d.rest.w && forall k :: 0 <= k < i ==> !stops[k]
      {
        stops := stops[i := false];
      }
      assert stops == seq(d.View().w, i => false);
      d.SetTitle(d.rest.title, stops);
    }
  }

  /** DECSTBM. */
  method SetRegion(d: Display, ps: seq<Param>)
    requires d.Valid()
    modifies d.Footprint()
    ensures d.Valid() && d.View() == Dispatch.SetRegion(old(d.View()), ps)
    ensures forall o :: o in d.Footprint() ==> o in old(d.Footprint()) || fresh(o)
  {
    hide Display.Valid, Display.View, Display.Footprint, MoveCursor;
    d.Sees();
    var top, bot := Dispatch.ParamAt(ps, 0, 1) - 1, Dispatch.ParamAt(ps, 1, d.rest.h) - 1;
    if bot > d.rest.h - 1 {
      bot := d.rest.h - 1;
    }
    if top < bot {
      d.SetMargins(top, bot);
      d.MoveCursor(0, 0);
    }
  }

  /** CSI sequences that move the cursor. */
  method Motion(d: Display, ps: seq<Param>, f: byte)
    requires d.Valid()
    modifies d.Footprint()
    ensures d.Valid() && d.View() == Dispatch.ApplyMotion(old(d.View()), ps, f)
    ensures forall o :: o in d.Footprint() ==> o in old(d.Footprint()) || fresh(o)
  {
    hide Display.Valid, Display.View, Display.Footprint, CursorUp, CursorDown, SetColumn, MoveCursor, TabForward, TabBackward;
    d.Sees();
    var s, n := Active(d.rest), Dispatch.ParamAt(ps, 0, 1);
    if f == 'A' as int {
      d.CursorUp(n);
    } else if f == 'B' as int || f == 'e' as int {
      d.CursorDown(n);
    } else if f == 'C' as int || f == 'a' as int {
      d.SetColumn(s.cur.x + n);
    } else if f == 'D' as int {
      d.SetColumn(s.cur.x - n);
    } else if f == 'E' as int {
      d.CursorDown(n);
      d.SetColumn(0);
    } else if f == 'F' as int {
      d.CursorUp(n);
      d.SetColumn(0);
    } else if f == 'G' as int || f == '`' as int {
      d.SetColumn(n - 1);
    } else if f == 'H' as int || f == 'f' as int {
      d.MoveCursor(Dispatch.ParamAt(ps, 1, 1) - 1, n - 1 + if d.rest.modes.origin then s.top else 0);
    } else if f == 'I' as int {
      d.TabForward(n);
    } else if f == 'Z' as int {
      d.TabBackward(n);
    } else if f == 'd' as int {
      d.MoveCursor(s.cur.x, n - 1 + if d.rest.modes.origin then s.top else 0);
    }
  }

  /** CSI sequences that change cells and lines. */
  method Edit(d: Display, ps: seq<Param>, f: byte)
    requires d.Valid()
    modifies d.Footprint()
    ensures d.Valid() && d.View() == Dispatch.ApplyEdit(old(d.View()), ps, f)
    ensures forall o :: o in d.Footprint() ==> o in old(d.Footprint()) || fresh(o)
  {
    hide Display.Valid, Display.View, Display.Footprint, InsertCells, SetCur, EraseInDisplay, EraseInLine, InsertLines, DeleteLines, DeleteChars, Scroll, ScrollDown, EraseChars, Repeat;
    d.Sees();
    var n := Dispatch.ParamAt(ps, 0, 1);
    AtLeastOne(ps);
    if f == '@' as int {
      d.InsertBlanks(n);
    } else if f == 'J' as int {
      d.EraseInDisplay(Dispatch.RawParam(ps, 0, 0));
    } else if f == 'K' as int {
      d.EraseInLine(Dispatch.RawParam(ps, 0, 0));
    } else if f == 'L' as int {
      d.InsertLines(n);
    } else if f == 'M' as int {
      d.DeleteLines(n);
    } else if f == 'P' as int {
      d.DeleteChars(n);
    } else if f == 'S' as int {
      d.ScrollBy(n, false);
    } else if f == 'T' as int {
      d.ScrollDownBy(n);
    } else if f == 'X' as int {
      d.EraseChars(n);
    } else if f == 'b' as int {
      if d.rest.lastPrinted != 0 {
        d.Repeat(d.rest.lastPrinted, n);
      }
    }
  }

  lemma AtLeastOne(ps: seq<Param>)
    ensures Dispatch.ParamAt(ps, 0, 1) >= 1
  {
  }

  /** sgr: one pass over the parameters. */
  method Sgr(d: Display, ps: seq<Param>)
    requires d.Valid()
    modifies d.Footprint()
    ensures d.Valid() && d.View() == old(d.View()).(pen := Dispatch.Sgr(ps, old(d.View()).pen))
    ensures forall o :: o in d.Footprint() ==> o in old(d.Footprint()) || fresh(o)
  {
    hide Display.Valid, Display.View, Display.Footprint, Dispatch.SgrStep;
    d.Sees();
    if |ps| == 0 {
      SetPen(d, PLAIN);
      return;
    }
    var pen := d.rest.pen;
    var i := 0;
    assert ps[0..] == ps;
    while i < |ps|
      invariant 0 <= i <= |ps|
      invariant Dispatch.SgrRun(ps[i..], pen) == Dispatch.SgrRun(ps, d.rest.pen)
    {
      var (pen', n) := Dispatch.SgrStep(ps[i..], pen);
      assert ps[i..][n..] == ps[i + n..];
      pen, i := pen', i + n;
    }
    SetPen(d, pen);
  }

  /** setModes. */
  method SetModes(d: Display, ps: seq<Param>, on: bool)
    requires d.Valid()
    modifies d.Footprint()
    ensures d.Valid() && d.View() == Dispatch.SetModes(old(d.View()), ps, on)
    ensures forall o :: o in d.Footprint() ==> o in old(d.Footprint()) || fresh(o)
  {
    hide Display.Valid, Display.View, Display.Footprint, Dispatch.SetMode;
    d.Sees();
    ghost var before, fp := d.View(), d.Footprint();
    assert ps[0..] == ps;
    for i := 0 to |ps|
      invariant d.Valid() && Dispatch.SetModes(d.View(), ps[i..], on) == Dispatch.SetModes(before, ps, on)
      invariant forall o :: o in d.Footprint() ==> o in fp || fresh(o)
    {
      d.Sees();
      assert ps[i..][0] == ps[i] && ps[i..][1..] == ps[i + 1..];
      SetModeFields(d, Dispatch.SetMode(d.rest.modes, Dispatch.RawParam([ps[i]], 0, -1), on));
    }
  }

  /** One private mode. */
  method SetPrivateMode(d: Display, n: int, on: bool)
    requires d.Valid()
    modifies d.Footprint()
    ensures d.Valid() && d.View() == Dispatch.SetPrivateMode(old(d.View()), n, on)
    ensures forall o :: o in d.Footprint() ==> o in old(d.Footprint()) || fresh(o)
  {
    hide Display.Valid, Display.View, Display.Footprint, MoveCursor, EnterAlt, LeaveAlt, Dispatch.PrivateFlag;
    d.Sees();
    if n == 6 {
      SetModeFields(d, d.rest.modes.(origin := on));
      d.MoveCursor(0, 0);
    } else if n == 47 || n == 1047 || n == 1049 {
      if on {
        d.EnterAltScreen(n == 1049);
      } else {
        d.LeaveAltScreen(n == 1049);
      }
    } else {
      SetModeFields(d, Dispatch.PrivateFlag(d.rest.modes, n, on));
    }
  }

  /** setPrivateModes. */
  method SetPrivateModes(d: Display, ps: seq<Param>, on: bool)
    requires d.Valid()
    modifies d.Footprint()
    ensures d.Valid() && d.View() == Dispatch.SetPrivateModes(old(d.View()), ps, on)
    ensures forall o :: o in d.Footprint() ==> o in old(d.Footprint()) || fresh(o)
  {
    hide Display.Valid, Display.View, Display.Footprint, Dispatch.SetPrivateMode;
    d.Sees();
    ghost var before, fp := d.View(), d.Footprint();
    assert ps[0..] == ps;
    for i := 0 to |ps|
      invariant d.Valid() && Dispatch.SetPrivateModes(d.View(), ps[i..], on) == Dispatch.SetPrivateModes(before, ps, on)
      invariant forall o :: o in d.Footprint() ==> o in fp || fresh(o)
    {
      assert ps[i..][0] == ps[i] && ps[i..][1..] == ps[i + 1..];
      SetPrivateMode(d, Dispatch.RawParam([ps[i]], 0, -1), on);
    }
  }

  /** CSI sequences without prefix or intermediate byte. */
  method PlainCsi(d: Display, ps: seq<Param>, f: byte)
    requires d.Valid()
    modifies d.Footprint()
    ensures d.Valid() && d.View() == Dispatch.ApplyPlainCsi(old(d.View()), ps, f)
    ensures forall o :: o in d.Footprint() ==> o in old(d.Footprint()) || fresh(o)
  {
    hide Display.Valid, Display.View, Display.Footprint, Dispatch.ApplyMotion, Dispatch.ClearTabs, Dispatch.SetModes, Dispatch.Sgr, Dispatch.SetRegion, Dispatch.ApplyEdit, RestoreCursor;
    d.Sees();
    if Dispatch.IsMotion(f) {
      Motion(d, ps, f);
    } else if f == 'g' as int {
      ClearTabs(d, Dispatch.RawParam(ps, 0, 0));
    } else if f == 'h' as int {
      SetModes(d, ps, true);
    } else if f == 'l' as int {
      SetModes(d, ps, false);
    } else if f == 'm' as int {
      Sgr(d, ps);
    } else if f == 'r' as int {
      SetRegion(d, ps);
    } else if f == 's' as int {
      d.SaveCursor();
    } else if f == 'u' as int {
      d.RestoreCursor();
    } else {
      Edit(d, ps, f);
    }
  }

  /** csiDispatch. */
  method Csi(d: Display, priv: byte, inter: byte, ps: seq<Param>, f: byte)
    requires d.Valid()
    modifies d.Footprint()
    ensures d.Valid() && d.View() == Dispatch.ApplyCsi(old(d.View()), priv, inter, ps, f)
    ensures forall o :: o in d.Footprint() ==> o in old(d.Footprint()) || fresh(o)
  {
    hide Display.Valid, Display.View, Display.Footprint, SoftReset, Dispatch.SetPrivateModes, Dispatch.ApplyPlainCsi;
    d.Sees();
    if inter != 0 {
      if inter == ' ' as int && f == 'q' as int {
        SetModeFields(d, d.rest.modes.(cursorStyle := Dispatch.RawParam(ps, 0, 0)));
      } else if inter == '!' as int && f == 'p' as int {
        d.SoftReset();
      }
    } else if priv == '?' as int {
      if f == 'h' as int {
        SetPrivateModes(d, ps, true);
      } else if f == 'l' as int {
        SetPrivateModes(d, ps, false);
      }
    } else if priv == 0 {
      PlainCsi(d, ps, f);
    }
  }

  /** dispatchOSC. */
  method Osc(d: Display, data: seq<byte>)
    requires d.Valid()
    modifies d.Footprint()
    ensures d.Valid() && d.View() == Dispatch.ApplyOsc(old(d.View()), data)
    ensures forall o :: o in d.Footprint() ==> o in old(d.Footprint()) || fresh(o)
  {
    hide Display.Valid, Display.View, Display.Footprint, Dispatch.Semicolon, Dispatch.Atoi;
    d.Sees();
    var sep := Dispatch.Semicolon(data);
    if sep == |data| {
      return;
    }
    var arg, code := data[sep + 1..], Dispatch.Atoi(data[..sep]);
    if code == Dispatch.Some(0) || code == Dispatch.Some(2) {
      d.SetTitle(arg, d.rest.tabStops);
    } else if code == Dispatch.Some(8) {
      var p := Dispatch.Semicolon(arg);
      if p < |arg| {
        d.SetFields(d.rest.pen, arg[p + 1..], d.rest.charsets, d.rest.modes);
      }
    }
  }

  /** What one parsed action does. */
  method Carry(d: Display, a: Action)
    requires d.Valid()
    modifies d.Footprint()
    ensures d.Valid() && d.View() == Dispatch.Apply(old(d.View()), a)
    ensures forall o :: o in d.Footprint() ==> o in old(d.Footprint()) || fresh(o)
  {
    hide Display.Valid, Display.View, Display.Footprint, PrintRune, Dispatch.ApplyExecute, Dispatch.ApplyEsc, Dispatch.ApplyCsi, Dispatch.ApplyOsc;
    match a
    case Print(r) => d.Print(r);
    case Execute(b) => Execute(d, b);
    case EscDispatch(inter, final) => Esc(d, inter, final);
    case CsiDispatch(priv, inter, ps, final) => Csi(d, priv, inter, ps, final);
    case OscDispatch(data) => Osc(d, data);
  }

  /** Actions in order. */
  method CarryAll(d: Display, acts: seq<Action>)
    requires d.Valid()
    modifies d.Footprint()
    ensures d.Valid() && d.View() == Dispatch.ApplyAll(old(d.View()), acts)
    ensures forall o :: o in d.Footprint() ==> o in old(d.Footprint()) || fresh(o)
  {
    hide Display.Valid, Display.View, Display.Footprint, Dispatch.Apply;
    ghost var before, fp := d.View(), d.Footprint();
    assert acts[0..] == acts;
    for i := 0 to |acts|
      invariant d.Valid() && Dispatch.ApplyAll(d.View(), acts[i..]) == Dispatch.ApplyAll(before, acts)
      invariant forall o :: o in d.Footprint() ==> o in fp || fresh(o)
    {
      assert acts[i..][0] == acts[i] && acts[i..][1..] == acts[i + 1..];
      Carry(d, acts[i]);
    }
  }

  /** The emulator: the parser's machine and the screens. */
  class Emulator {
    const parser: ParserMachine.Machine
    const display: Display

    ghost predicate Valid()
      reads this, parser, parser.Repr(), display, display.main, display.alt
      reads display.main.rows, display.alt.rows, display.main.blank, display.alt.blank
    {
      parser.Valid() && display.Valid()
    }

    ghost function View(): Dispatch.Emulator
      requires Valid()
      reads this, parser, parser.Repr(), display, display.main, display.alt
      reads display.main.rows, display.alt.rows, display.main.blank, display.alt.blank
      reads Buffers.Stores(display.main.rows[..]), Buffers.Stores(display.alt.rows[..]), Buffers.Stores(display.main.scrollback)
    {
      Dispatch.Emulator(parser.View(), display.View())
    }

    constructor (w: nat, h: nat, maxScrollback: nat)
      requires w >= 2 && h >= 1
      ensures Valid() && View() == Dispatch.NewEmulator(w, h, maxScrollback)
    {
      hide Display.Valid, Display.View, ParserMachine.Machine.Valid, ParserMachine.Machine.View;
      var m := new ParserMachine.Machine();
      assert forall o :: o in m.Repr() ==> allocated(o);
      var d := new Display(w, h, maxScrollback);
      assert m.View() == INIT;
      assert d.Valid() && d.View() == New(w, h, maxScrollback);
      Buffers.OldStores(d.main.rows[..]);
      Buffers.OldStores(d.alt.rows[..]);
      Buffers.OldStores(d.main.scrollback);
      parser, display := m, d;
    }

    /** Write: what one call leaves is what the functions on values say. */
    method Write(data: seq<byte>)
      requires Valid()
      modifies parser.Repr(), display.Footprint()
      ensures Valid() && View() == Dispatch.Write(old(View()), data)
    {
      hide Display.Valid, Display.View, Display.Footprint, ParserMachine.Machine.Valid, ParserMachine.Machine.View, Parse, Dispatch.ApplyAll;
      ghost var e := View();
      var n := |parser.out|;
      Unrelated(parser, display);
      parser.Write(data);
      assert display.Valid() && display.View() == e.t;
      ghost var p := parser.View();
      Unrelated(parser, display);
      CarryAll(display, parser.out[n..]);
      assert parser.Valid() && parser.View() == p;
    }
  }

  /** Nothing a display is made of is part of a parser. */
  lemma Unrelated(m: ParserMachine.Machine, d: Display)
    ensures m.Repr() !! d.Footprint()
    ensures m.Repr() !! {d, d.main, d.alt, d.main.rows, d.alt.rows, d.main.blank, d.alt.blank}
    ensures m.Repr() !! Buffers.Stores(d.main.rows[..]) + Buffers.Stores(d.alt.rows[..]) + Buffers.Stores(d.main.scrollback)
  {
  }
}
