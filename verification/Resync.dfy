/** Two parsers that meet at an escape character: whatever they were doing,
    they agree from the byte after it on. */
module Resync {
  import opened Utf8
  import opened Parser

  /** The part of a parser that can still influence anything: left-over
      parameters matter only inside a sequence, OSC text only inside one. */
  predicate LiveEq(p: PState, q: PState) {
    && p.state == q.state && p.partial == q.partial
    && match p.state
       case Escape | CsiEntry | CsiParam | CsiIntermediate =>
         p.params == q.params && p.inter == q.inter && p.priv == q.priv && p.overflow == q.overflow
       case EscapeIntermediate => p.inter == q.inter
       case Osc | OscEscape => p.osc == q.osc
       case _ => true
  }

  predicate OutEq(o: Out, o': Out) { LiveEq(o.p, o'.p) && o.acts == o'.acts }

  lemma CsiParamLive(p: PState, q: PState, b: byte)
    requires LiveEq(p, q) && p.state == CsiParam
    ensures OutEq(FeedCsiParam(p, b), FeedCsiParam(q, b))
  {
  }

  lemma EscapeLive(p: PState, q: PState, b: byte)
    requires LiveEq(p, q) && p.state == Escape
    ensures OutEq(FeedEscape(p, b), FeedEscape(q, b))
  {
  }

  lemma ControlLive(p: PState, q: PState, b: byte)
    requires LiveEq(p, q) && IsControl(b)
    ensures OutEq(FeedControl(p, b), FeedControl(q, b))
  {
  }

  lemma FeedLive(p: PState, q: PState, b: byte)
    requires LiveEq(p, q)
    ensures LiveEq(FeedByte(p, b).p, FeedByte(q, b).p) && FeedByte(p, b).acts == FeedByte(q, b).acts
  {
    hide FeedCsiParam, FeedEscape, FeedControl;
    if IsControl(b) {
      ControlLive(p, q, b);
    } else {
      match p.state
      case Escape => EscapeLive(p, q, b);
      case CsiEntry => CsiParamLive(p.(state := CsiParam), q.(state := CsiParam), b);
      case CsiParam => CsiParamLive(p, q, b);
      case OscEscape | StrEscape =>
        EscapeLive(ResetCsi(p).(state := Escape), ResetCsi(q).(state := Escape), b);
      case _ =>
    }
  }

  lemma TurnLive(p: PState, q: PState, data: seq<byte>)
    requires LiveEq(p, q) && data != []
    ensures Turn(p, data).1 == Turn(q, data).1
    ensures LiveEq(Turn(p, data).0.p, Turn(q, data).0.p)
    ensures Turn(p, data).0.acts == Turn(q, data).0.acts
  {
    hide FeedByte;
    FeedLive(p, q, data[0]);
  }

  /** What agrees keeps agreeing, over every later byte stream. */
  lemma {:induction false} LoopLive(p: PState, q: PState, data: seq<byte>)
    requires LiveEq(p, q)
    ensures LiveEq(ParseLoop(p, data).p, ParseLoop(q, data).p)
    ensures ParseLoop(p, data).acts == ParseLoop(q, data).acts
    decreases |data|
  {
    if data != [] {
      hide Turn, ParseLoop;
      LoopTurn(p, data);
      LoopTurn(q, data);
      TurnLive(p, q, data);
      var (o, n) := Turn(p, data);
      if n > 0 {
        LoopLive(o.p, Turn(q, data).0.p, data[n..]);
      } else {
        assert LiveEq(p.(partial := data), q.(partial := data));
      }
    }
  }

  /** The bytes that, after an escape character, leave no trace of what was before. */
  predicate Settles(b: byte) { !IsControl(b) || b == ESC || b == CAN || b == SUB }

  /** From any two states, an escape character and a byte that settles bring the
      parsers into agreement. */
  lemma Meet(p: PState, q: PState, b: byte)
    requires p.partial == q.partial == [] && Settles(b)
    ensures LiveEq(FeedByte(FeedByte(p, ESC).p, b).p, FeedByte(FeedByte(q, ESC).p, b).p)
  {
    MeetFresh(p, b);
    MeetFresh(q, b);
  }

  /** The state every parser reaches: that of one that was in ground. */
  lemma MeetFresh(p: PState, b: byte)
    requires p.partial == [] && Settles(b)
    ensures LiveEq(FeedByte(FeedByte(p, ESC).p, b).p, FeedByte(INIT.(state := Escape), b).p)
  {
    var e := FeedByte(p, ESC).p;
    if IsControl(b) {
      ControlMeets(e, b);
    } else {
      match p.state
      case Osc =>
        assert e == p.(state := OscEscape);
        FeedLive(ResetCsi(e).(state := Escape), INIT.(state := Escape), b);
      case Str =>
        assert e == p.(state := StrEscape);
        FeedLive(ResetCsi(e).(state := Escape), INIT.(state := Escape), b);
      case _ =>
        FeedLive(e, INIT.(state := Escape), b);
    }
  }

  lemma ControlMeets(e: PState, b: byte)
    requires e.partial == [] && (e.state.Escape? || e.state.OscEscape? || e.state.StrEscape?)
    requires b == ESC || b == CAN || b == SUB
    ensures LiveEq(FeedByte(e, b).p, FeedByte(INIT.(state := Escape), b).p)
  {
  }

  /** Exactly those bytes do: any other control ends an abandoned string in ground
      while an escape sequence goes on. */
  lemma MeetExactly(b: byte)
    ensures Settles(b) <==> forall p: PState, q: PState :: p.partial == q.partial == [] ==>
      LiveEq(FeedByte(FeedByte(p, ESC).p, b).p, FeedByte(FeedByte(q, ESC).p, b).p)
  {
    if Settles(b) {
      forall p: PState, q: PState | p.partial == q.partial == []
        ensures LiveEq(FeedByte(FeedByte(p, ESC).p, b).p, FeedByte(FeedByte(q, ESC).p, b).p)
      {
        Meet(p, q, b);
      }
    } else {
      var p, q := INIT, INIT.(state := Osc);
      assert !LiveEq(FeedByte(FeedByte(p, ESC).p, b).p, FeedByte(FeedByte(q, ESC).p, b).p);
    }
  }

  /** A stream without torn sequences leaves nothing pending before an escape. */
  lemma NothingPendingBeforeEsc(p: PState, before: seq<byte>, kept: seq<byte>)
    requires p.partial == [] && NoTorn(before + kept) && kept != [] && kept[0] == ESC
    ensures ParseLoop(p, before).p.partial == []
  {
    hide ParseLoop, PrefixOk;
    LoopPending(p, before);
    var held := ParseLoop(p, before).p.partial;
    if held != [] {
      var k := |before| - |held|;
      NoTornSuffix(before + kept, k);
      assert (before + kept)[k..] == held + kept;
      NoTornHead(held + kept);
      TornAtEsc(held, kept);
      assert false;
    }
  }

  lemma TornAtEsc(held: seq<byte>, kept: seq<byte>)
    requires held != [] && Need(held[0]) > |held| && kept != [] && kept[0] == ESC
    ensures !PrefixOk(held + kept)
  {
    assert (held + kept)[|held|] == ESC;
  }

  /** Replay resynchronises. A parser that has seen the whole history and one
      that starts fresh at an escape character (followed by a byte that settles)
      dispatch the same actions from the third byte on and end in
      agreement. */
  lemma ReplayTracks(p: PState, before: seq<byte>, kept: seq<byte>)
      returns (whole: seq<Action>, alone: seq<Action>, common: seq<Action>)
    requires p.partial == [] && NoTorn(before + kept)
    requires |kept| >= 2 && kept[0] == ESC && Settles(kept[1])
    ensures ParseLoop(p, before + kept).acts == whole + common
    ensures ParseLoop(INIT, kept).acts == alone + common && |alone| <= 1
    ensures ParseLoop(p, before).acts <= whole
    ensures |whole| <= |ParseLoop(p, before).acts| + 1
    ensures LiveEq(ParseLoop(p, before + kept).p, ParseLoop(INIT, kept).p)
  {
    hide ParseLoop, FeedByte, PrefixOk;
    NothingPendingBeforeEsc(p, before, kept);
    var m := ParseLoop(p, before).p;
    LoopSplit(p, before, kept);
    TwoBytes(m, kept);
    TwoBytes(INIT, kept);
    Meet(m, INIT, kept[1]);
    var e, f := FeedByte(m, ESC), FeedByte(INIT, ESC);
    var e', f' := FeedByte(e.p, kept[1]), FeedByte(f.p, kept[1]);
    EscSilent(m);
    EscSilent(INIT);
    LoopLive(e'.p, f'.p, kept[2..]);
    whole := ParseLoop(p, before).acts + e'.acts;
    alone := f'.acts;
    common := ParseLoop(e'.p, kept[2..]).acts;
  }

  lemma EscSilent(p: PState)
    ensures FeedByte(p, ESC).acts == [] && !Decodes(FeedByte(p, ESC).p.state)
  {
  }

  lemma TwoBytes(p: PState, data: seq<byte>)
    requires p.partial == [] && |data| >= 2 && data[0] == ESC
    ensures var e := FeedByte(p, ESC); var e' := FeedByte(e.p, data[1]);
      ParseLoop(p, data) == Then(Out(e'.p, e'.acts), ParseLoop(e'.p, data[2..]))
  {
    hide ParseLoop, FeedByte;
    EscSilent(p);
    LoopTurn(p, data);
    var e := FeedByte(p, ESC);
    LoopTurn(e.p, data[1..]);
    assert data[1..][1..] == data[2..];
  }

  /** What a byte that does not settle costs: after an escape character and a line
      feed a parser inside an OSC string is not in step with a fresh one. The
      first abandons the string and prints what follows, the second is still
      inside the escape sequence. */
  lemma ControlAfterEscDiffers()
    ensures var q := INIT.(state := Osc);
      && ParseLoop(q, [ESC, 0x0a, 0x5b]).acts == [Execute(0x0a), Print(0x5b)]
      && ParseLoop(INIT, [ESC, 0x0a, 0x5b]).acts == [Execute(0x0a)]
      && ParseLoop(INIT, [ESC, 0x0a, 0x5b]).p.state == CsiEntry
  {
    var q := INIT.(state := Osc);
    var d := [ESC, 0x0a, 0x5b];
    TwoBytes(q, d);
    TwoBytes(INIT, d);
    assert d[2..] == [0x5b] && [0x5b][1..] == [];
    var r := q.(state := OscEscape);
    var e := INIT.(state := Escape);
    assert FeedByte(q, ESC).p == r && FeedByte(INIT, ESC).p == e;
    assert FeedByte(r, 0x0a) == Out(INIT, [Execute(0x0a)]) && FeedByte(e, 0x0a) == Out(e, [Execute(0x0a)]);
    assert FeedByte(INIT, 0x5b) == Out(INIT, [Print(0x5b)]) && FeedByte(e, 0x5b) == Out(e.(state := CsiEntry), []);
    hide FeedByte;
    LoopTurn(INIT, [0x5b]);
    LoopTurn(e, [0x5b]);
    LoopNil(INIT, Out(INIT, []));
    LoopNil(e.(state := CsiEntry), Out(INIT, []));
  }
}
