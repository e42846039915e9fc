/** When a client may join: exactly when the server's parser is between sequences,
    for the parser's place in a sequence is no part of the snapshot. */
module Joining {
  import opened Utf8
  import opened Cells
  import opened Width
  import opened Parser
  import opened Sequences
  import opened Cuts
  import opened Terminal
  import opened Dispatch
  import opened Simulation
  import opened Rejoin

  const SO: byte := 0x0e
  const SI: byte := 0x0f
  const CR: byte := 0x0d
  const BRACKET: byte := ']' as int
  const KAY: byte := 'K' as int

  predicate Follows(e: Emulator, out: seq<byte>) {
    var d, t := Write(Joined(e.t), out).t, Write(e, out).t;
    Sim(false, d, t) || Sim(true, d, t)
  }

  // ---------------------------------------------------------------------------
  // Outputs that show it
  // ---------------------------------------------------------------------------

  /** The shift that changes the set in use. */
  function Shift(t: T): byte { if t.charsets.gl == 0 then SO else SI }

  /** Output after which a client that joined in the middle of a sequence differs. */
  function Witness(e: Emulator): seq<byte> {
    if e.p.partial != [] || e.p.state == Osc || e.p.state == Str then [Shift(e.t)]
    else if e.p.state == Escape || e.p.state == OscEscape || e.p.state == StrEscape then [BRACKET, Shift(e.t)]
    else [CR, KAY]
  }

  predicate Texts(acts: seq<Action>) { forall i :: 0 <= i < |acts| ==> acts[i].Print? }

  lemma {:induction false} NoRepeats(known: bool, t: T, acts: seq<Action>)
    requires forall i :: 0 <= i < |acts| ==> !IsRepeat(acts[i])
    ensures RepeatsOwn(known, t, acts)
    decreases |acts|
  {
    hide Apply, Knows;
    if acts != [] {
      NoRepeats(Knows(known, t, acts[0]), Apply(t, acts[0]), acts[1..]);
    }
  }

  /** Text changes no charset. */
  lemma {:induction false} TextKeeps(t: T, acts: seq<Action>)
    requires Texts(acts)
    ensures ApplyAll(t, acts).charsets == t.charsets
    decreases |acts|
  {
    hide PrintRune;
    if acts != [] {
      PrintKeeps(t, acts[0].r);
      TextKeeps(Apply(t, acts[0]), acts[1..]);
    }
  }

  lemma FeedKeeps(t: T)
    ensures LineFeed(t).charsets == t.charsets && WrapToNextLine(t).charsets == t.charsets
  {
    hide ScrollRows, PushAll;
  }

  lemma RoomKeeps(t: T, width: int)
    requires !Active(t).cur.pendingWrap && 1 <= width <= 2
    ensures MakeRoom(t, width).charsets == t.charsets
  {
    hide WrapToNextLine;
    FeedKeeps(SetLine(t, Line(t)[Active(t).cur.x := Blank(t.pen)]));
  }

  lemma TakeKeeps(t: T)
    ensures TakeWrap(t).charsets == t.charsets
  {
    hide WrapToNextLine;
    FeedKeeps(t);
  }

  lemma AsideKeeps(t: T, n: int)
    requires n >= 0
    ensures MoveAside(t, n).charsets == t.charsets
  {
    hide InsertInLine;
    InsertedWidth(Line(t), Active(t).cur.x, n, t.pen);
  }

  lemma InsertedWidth(cells: seq<Cell>, x: int, n: int, pen: Style)
    requires 0 <= x < |cells| && n >= 0
    ensures |InsertInLine(cells, x, n, pen)| == |cells|
  {
  }

  lemma PutKeeps(t: T, r: Rune, width: int)
    requires 1 <= width <= 2 && Active(t).cur.x + width <= t.w && !Active(t).cur.pendingWrap
    ensures Place(t, r, width).charsets == t.charsets
  {
    hide PlaceInLine;
    PlacedLength(Line(t), Active(t).cur.x, if r == 0x20 then [] else [r], width, t.pen, t.link);
  }

  lemma PlacedLength(cells: seq<Cell>, x: int, ch: seq<Rune>, width: int, pen: Style, link: seq<byte>)
    requires 0 <= x < |cells| && 1 <= width <= 2 && x + width <= |cells|
    ensures |PlaceInLine(cells, x, ch, width, pen, link)| == |cells|
  {
  }

  lemma CombineKeeps(t: T, r: Rune)
    ensures Combine(t, r).charsets == t.charsets
  {
  }

  lemma PrintParts(t: T, g: Rune, width: int)
    requires 1 <= width <= 2
    ensures var t1 := TakeWrap(t.(lastPrinted := g));
      && !Active(t1).cur.pendingWrap
      && (var room := MakeRoom(t1, width);
        var aside := MoveAside(room, width);
        !Active(aside).cur.pendingWrap && Active(aside).cur.x + width <= aside.w)
  {
  }

  lemma PrintKeeps(t: T, r: Rune)
    ensures PrintRune(t, r).charsets == t.charsets
  {
    hide Combine, TakeWrap, MakeRoom, MoveAside, Place, RuneWidth, Translate;
    var g := Translate(t.charsets, r);
    var width := RuneWidth(g);
    RuneColumns(g);
    if width == 0 {
      CombineKeeps(t, g);
    } else {
      PrintParts(t, g, width);
      var t1 := t.(lastPrinted := g);
      TakeKeeps(t1);
      RoomKeeps(TakeWrap(t1), width);
      AsideKeeps(MakeRoom(TakeWrap(t1), width), width);
      PutKeeps(MoveAside(MakeRoom(TakeWrap(t1), width), width), g, width);
    }
  }

  lemma RuneColumns(g: Rune)
    ensures 0 <= RuneWidth(g) <= 2
  {
  }

  // ---------------------------------------------------------------------------
  // What the server's parser makes of them
  // ---------------------------------------------------------------------------

  lemma ParseOne(p: PState, b: byte)
    requires p.partial == [] && b < 0x80
    ensures Parse(p, [b]) == FeedByte(p, b)
  {
    hide ParseLoop, FeedByte;
    ParseFresh(p, [b]);
    LoopAscii(p, [b]);
    Feed1(p, b);
  }

  lemma ParseTwo(p: PState, a: byte, b: byte)
    requires p.partial == [] && a < 0x80 && b < 0x80
    ensures Parse(p, [a, b]) == Then(FeedByte(p, a), FeedByte(FeedByte(p, a).p, b))
  {
    hide ParseLoop, FeedByte;
    ParseFresh(p, [a, b]);
    LoopAscii(p, [a, b]);
    assert [a, b] == [a] + [b];
    FeedAppend(p, [a], [b]);
    Feed1(p, a);
    Feed1(FeedByte(p, a).p, b);
  }

  /** A shift after a cut rune, or in a string, is not carried out. */
  lemma ShiftUnseen(p: PState, x: byte)
    requires Pending(p) && (p.partial != [] || p.state == Osc || p.state == Str) && (x == SO || x == SI)
    ensures Texts(Parse(p, [x]).acts)
  {
    hide Parse, ParseLoop, Pull, PrefixOk, Decode;
    if p.partial == [] {
      ParseOne(p, x);
    } else {
      TearsHeld(p, [x]);
      TornSeam(p.partial, [x]);
      if p.state == Ground {
        TwoCalls(p, [x]);
        assert [x][1..] == [];
        LoopNil(p.(partial := []), Out(p, []));
      } else {
        TwoStored(p, [x]);
      }
    }
  }

  lemma BracketUnseen(p: PState, x: byte)
    requires p.partial == [] && (p.state == Escape || p.state == OscEscape || p.state == StrEscape) && (x == SO || x == SI)
    ensures Parse(p, [BRACKET, x]).acts == []
  {
    hide Parse;
    ParseTwo(p, BRACKET, x);
  }

  predicate Ends(a: Action) { (a.EscDispatch? || a.CsiDispatch?) && a.final == KAY }

  /** A letter ends the sequence the server is in. */
  lemma KayEnds(p: PState)
    requires p.partial == [] && p.state != Ground && p.state != Osc && p.state != Str
    requires p.state != Escape && p.state != OscEscape && p.state != StrEscape
    ensures var acts := Parse(p, [CR, KAY]).acts;
      |acts| >= 1 && acts[0] == Execute(CR) && |acts| <= 2 && (|acts| == 2 ==> Ends(acts[1]))
  {
    hide Parse;
    ParseTwo(p, CR, KAY);
    assert FeedByte(p, CR) == Out(p, [Execute(CR)]);
  }

  // ---------------------------------------------------------------------------
  // What the terminals make of it
  // ---------------------------------------------------------------------------

  lemma Apply2(t: T, a: Action, b: Action)
    ensures ApplyAll(t, [a]) == Apply(t, a) && ApplyAll(t, [a, b]) == Apply(Apply(t, a), b)
  {
    hide Apply;
    assert [a][1..] == [] && [a, b][1..] == [b] && [b][1..] == [];
    assert ApplyAll(Apply(t, a), [b]) == Apply(Apply(t, a), b);
  }

  lemma ExecuteIs(t: T, b: byte)
    ensures Apply(t, Execute(b)) == ApplyExecute(t, b)
  {
    hide PrintRune, ApplyExecute, ApplyEsc, ApplyCsi, ApplyOsc;
  }

  lemma Shifts(t: T)
    ensures Apply(t, Execute(Shift(t))).charsets.gl == if t.charsets.gl == 0 then 1 else 0
  {
    hide Apply, LineFeed, TabForward, SetCur;
    ExecuteIs(t, Shift(t));
  }

  lemma CarriageReturns(t: T)
    ensures Apply(t, Execute(CR)) == SetCur(t, 0, Active(t).cur.y, false)
  {
    hide Apply, LineFeed, TabForward, SetCur;
    ExecuteIs(t, CR);
  }

  /** The end of a sequence leaves the cursor where it is. */
  lemma EndsStill(t: T, a: Action)
    requires Ends(a)
    ensures Active(Apply(t, a)).cur == Active(t).cur
  {
    hide PrintRune, ApplyExecute, ApplyEsc, ApplyCsi, ApplyOsc;
    match a
    case EscDispatch(inter, final) => EscStill(t, inter);
    case CsiDispatch(priv, inter, ps, final) => CsiStill(t, priv, inter, ps);
  }

  lemma EscStill(t: T, inter: byte)
    ensures Active(ApplyEsc(t, inter, KAY)).cur == Active(t).cur
  {
    hide SaveCursor, RestoreCursor, LineFeed, ReverseIndex, FullReset, Align;
  }

  lemma CsiStill(t: T, priv: byte, inter: byte, ps: seq<Param>)
    ensures Active(ApplyCsi(t, priv, inter, ps, KAY)).cur == Active(t).cur
  {
    hide EraseInLine, ApplyPlainCsi, ApplyEdit, RawParam, ApplyCsi;
    CsiIs(t, priv, inter, ps);
    KayPlain(t, ps);
    KayErases(t, ps);
    ErasesStill(t, RawParam(ps, 0, 0));
  }

  lemma CsiIs(t: T, priv: byte, inter: byte, ps: seq<Param>)
    ensures ApplyCsi(t, priv, inter, ps, KAY) == if inter == 0 && priv == 0 then ApplyPlainCsi(t, ps, KAY) else t
  {
    hide ApplyPlainCsi, SetPrivateModes, SoftReset, RawParam;
  }

  lemma KayPlain(t: T, ps: seq<Param>)
    ensures ApplyPlainCsi(t, ps, KAY) == ApplyEdit(t, ps, KAY)
  {
    hide ApplyEdit, ApplyMotion, SetModes, SetRegion, Sgr, ClearTabs, SaveCursor, RestoreCursor;
  }

  lemma KayErases(t: T, ps: seq<Param>)
    ensures ApplyEdit(t, ps, KAY) == EraseInLine(t, RawParam(ps, 0, 0))
  {
    hide EraseInLine, InsertCells, EraseInDisplay, SetCur, Repeat, InsertLines, DeleteLines, DeleteChars, Scroll, ScrollDown, EraseChars;
  }

  lemma ErasesStill(t: T, mode: int)
    ensures Active(EraseInLine(t, mode)).cur == Active(t).cur
  {
  }

  /** A letter printed in the first column moves the cursor to the second. */
  lemma PrintsKay(t: T)
    requires Active(t).cur.x == 0 && !Active(t).cur.pendingWrap
    ensures Active(Apply(t, Print(KAY))).cur.x == 1
  {
    hide Combine, TakeWrap, MakeRoom, MoveAside, Place, RuneWidth, Translate;
    PlainLetter(t.charsets);
    var t1 := t.(lastPrinted := KAY);
    StaysPut(t1);
    AsideSame(t1);
    PlacesKay(MoveAside(t1, 1));
  }

  lemma PlainLetter(cs: Charsets)
    ensures Translate(cs, KAY) == KAY && RuneWidth(KAY) == 1
  {
  }

  lemma StaysPut(t: T)
    requires !Active(t).cur.pendingWrap
    ensures TakeWrap(t) == t && MakeRoom(t, 1) == t
  {
  }

  lemma AsideSame(t: T)
    ensures Active(MoveAside(t, 1)).cur == Active(t).cur && MoveAside(t, 1).w == t.w
  {
  }

  lemma PlacesKay(t: T)
    requires Active(t).cur.x == 0 && !Active(t).cur.pendingWrap
    ensures Active(Place(t, KAY, 1)).cur.x == 1
  {
    hide PlaceInLine;
    PlacedLength(Line(t), 0, [KAY], 1, t.pen, t.link);
  }

  // ---------------------------------------------------------------------------
  // Exactly then
  // ---------------------------------------------------------------------------

  /** Terminals of different charsets or cursors are not similar. */
  lemma Unlike(e: Emulator, out: seq<byte>)
    requires var d, t := Write(Joined(e.t), out).t, Write(e, out).t;
      d.charsets != t.charsets || Active(d).cur != Active(t).cur
    ensures !Follows(e, out)
  {
    hide Write, Joined;
    var d, t := Write(Joined(e.t), out).t, Write(e, out).t;
    if Sim(false, d, t) {
      Simulation.Alike(false, d, t);
    }
    if Sim(true, d, t) {
      Simulation.Alike(true, d, t);
    }
  }

  lemma WriteActs(e: Emulator, out: seq<byte>)
    ensures Write(e, out).t == ApplyAll(e.t, Parse(e.p, out).acts)
  {
    hide Parse, ApplyAll;
  }

  /** A client that joins in the middle of a sequence differs after the witness. */
  lemma WitnessDiffers(e: Emulator)
    requires Pending(e.p) && Telling(e.t) && !Ready(e.p)
    ensures RepeatsOwn(false, e.t, Parse(e.p, Witness(e)).acts) && !Follows(e, Witness(e))
  {
    hide Parse, Telling, Joined, Write, Sim, RepeatsOwn, Follows, Shift;
    JoinedSame(e.t);
    if e.p.partial != [] || e.p.state == Osc || e.p.state == Str {
      ByShift(e, Joined(e.t));
    } else if e.p.state == Escape || e.p.state == OscEscape || e.p.state == StrEscape {
      ByBracket(e, Joined(e.t));
    } else {
      ByKay(e, Joined(e.t));
    }
    Unlike(e, Witness(e));
  }

  lemma ByShift(e: Emulator, c: Emulator)
    requires Pending(e.p) && (e.p.partial != [] || e.p.state == Osc || e.p.state == Str)
    requires Ready(c.p) && c.t.charsets == e.t.charsets
    ensures var out := [Shift(e.t)];
      RepeatsOwn(false, e.t, Parse(e.p, out).acts) && Write(c, out).t.charsets != Write(e, out).t.charsets
  {
    hide Parse, ApplyAll, Apply, Write, RepeatsOwn;
    var x, acts := Shift(e.t), Parse(e.p, [Shift(e.t)]).acts;
    WriteActs(e, [x]);
    WriteActs(c, [x]);
    ShiftUnseen(e.p, x);
    NoRepeats(false, e.t, acts);
    TextKeeps(e.t, acts);
    ParseOne(c.p, x);
    Apply2(c.t, Execute(x), Execute(x));
    Shifts(c.t);
  }

  lemma ByBracket(e: Emulator, c: Emulator)
    requires e.p.partial == [] && (e.p.state == Escape || e.p.state == OscEscape || e.p.state == StrEscape)
    requires Ready(c.p) && c.t.charsets == e.t.charsets
    ensures var out := [BRACKET, Shift(e.t)];
      RepeatsOwn(false, e.t, Parse(e.p, out).acts) && Write(c, out).t.charsets != Write(e, out).t.charsets
  {
    hide Parse, ApplyAll, Apply, Write, RepeatsOwn;
    var x, out := Shift(e.t), [BRACKET, Shift(e.t)];
    WriteActs(e, out);
    WriteActs(c, out);
    BracketUnseen(e.p, x);
    NoRepeats(false, e.t, []);
    TextKeeps(e.t, []);
    ParseTwo(c.p, BRACKET, x);
    assert Parse(c.p, out).acts == [Print(BRACKET), Execute(x)];
    Apply2(c.t, Print(BRACKET), Execute(x));
    TextKeeps(c.t, [Print(BRACKET)]);
    Shifts(Apply(c.t, Print(BRACKET)));
  }

  lemma ByKay(e: Emulator, c: Emulator)
    requires e.p.partial == [] && e.p.state != Ground && e.p.state != Osc && e.p.state != Str
    requires e.p.state != Escape && e.p.state != OscEscape && e.p.state != StrEscape && Ready(c.p)
    ensures var out := [CR, KAY];
      RepeatsOwn(false, e.t, Parse(e.p, out).acts) && Active(Write(c, out).t).cur != Active(Write(e, out).t).cur
  {
    hide Parse, ApplyAll, Apply, Write, RepeatsOwn, SetCur;
    var out, acts := [CR, KAY], Parse(e.p, [CR, KAY]).acts;
    WriteActs(e, out);
    WriteActs(c, out);
    KayEnds(e.p);
    NoRepeats(false, e.t, acts);
    KayShows(e.t, acts);
    ParseTwo(c.p, CR, KAY);
    assert Parse(c.p, out).acts == [Execute(CR), Print(KAY)];
    Apply2(c.t, Execute(CR), Print(KAY));
    CarriageReturns(c.t);
    ReturnedHome(c.t);
    PrintsKay(Apply(c.t, Execute(CR)));
  }

  lemma ReturnedHome(t: T)
    ensures var c := Active(SetCur(t, 0, Active(t).cur.y, false)).cur; c.x == 0 && !c.pendingWrap
  {
  }

  lemma KayShows(t: T, acts: seq<Action>)
    requires 1 <= |acts| <= 2 && acts[0] == Execute(CR) && (|acts| == 2 ==> Ends(acts[1]))
    ensures Active(ApplyAll(t, acts)).cur.x == 0
  {
    hide Apply, ApplyAll;
    var a := if |acts| == 2 then acts[1] else acts[0];
    assert acts == if |acts| == 2 then [acts[0], a] else [acts[0]];
    Apply2(t, acts[0], a);
    CarriageReturns(t);
    ReturnedHome(t);
    if |acts| == 2 {
      EndsStill(Apply(t, acts[0]), a);
    }
  }

  lemma JoinedSame(t: T)
    requires Telling(t)
    ensures var c := Joined(t); Ready(c.p) && c.t.charsets == t.charsets
  {
    hide Telling, Joined, Sim;
    var e := Emulator(INIT, t);
    JoinedSim(e);
    Simulation.Alike(false, Joined(t).t, t);
  }

  lemma NothingParsed(p: PState)
    requires Pending(p)
    ensures Parse(p, []).acts == [] && Parse(p, []).p == p
  {
    if p.partial != [] {
      assert p.partial + [] == p.partial;
    }
  }

  /** What a client shows before anything more is printed. */
  lemma FollowsNothing(e: Emulator)
    requires Pending(e.p) && Drawable(e.t) && Follows(e, [])
    ensures Telling(e.t)
  {
    hide Parse, ParseLoop, Telling, Joined, Sim, Drawable;
    JoinedExact(e.t);
    var c := Joined(e.t);
    NothingParsed(e.p);
    NothingParsed(c.p);
    assert ApplyAll(e.t, []) == e.t && ApplyAll(c.t, []) == c.t;
    SimForgets(c.t, e.t);
  }

  lemma SimForgets(d: T, t: T)
    ensures Sim(true, d, t) ==> Sim(false, d, t)
  {
    hide ScreenFits;
  }

  /** Joining, exactly. A client that starts from the snapshot shows what the server
      shows, whatever is printed next, if and only if the snapshot says everything of
      the server's terminal and the server's parser is between sequences. */
  lemma JoinExactly(e: Emulator)
    requires Pending(e.p) && Drawable(e.t)
    ensures Ready(e.p) && Telling(e.t) <==>
      forall out: seq<byte> :: RepeatsOwn(false, e.t, Parse(e.p, out).acts) ==> Follows(e, out)
  {
    hide Parse, Telling, Joined, Write, Sim, RepeatsOwn, Witness, Follows, Drawable;
    if !Telling(e.t) {
      NothingParsed(e.p);
      NoRepeats(false, e.t, []);
      if Follows(e, []) {
        FollowsNothing(e);
      }
    } else if Ready(e.p) {
      forall out: seq<byte> | RepeatsOwn(false, e.t, Parse(e.p, out).acts) ensures Follows(e, out) {
        ReadyFollows(e, out);
      }
    } else {
      WitnessDiffers(e);
    }
  }

  lemma ReadyFollows(e: Emulator, out: seq<byte>)
    requires Ready(e.p) && Telling(e.t) && RepeatsOwn(false, e.t, Parse(e.p, out).acts)
    ensures Follows(e, out)
  {
    hide Parse, Telling, Joined, Write, Sim, RepeatsOwn;
    var known := JoinedFollows(e, out);
  }
}
