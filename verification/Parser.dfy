/** The escape sequence parser: a VT500-style state machine over bytes (ECMA-48,
    section 5.4) that turns terminal output into actions. Actions never depend
    on the screen, so the parser is specified on its own; `Terminal` interprets
    what it dispatches. */
module Parser {
  import opened Utf8

  const ESC: byte := 0x1b
  const BEL: byte := 0x07
  const CAN: byte := 0x18
  const SUB: byte := 0x1a
  const DEL: byte := 0x7f

  const MAX_PARAMS := 32
  const MAX_OSC_BYTES := 4096
  const MAX_VALUE := 0x1000000

  datatype State =
    | Ground | Escape | EscapeIntermediate
    | CsiEntry | CsiParam | CsiIntermediate | CsiIgnore
    | Osc | OscEscape
    | Str | StrEscape

  /** One CSI parameter: `has` is false for an empty one, `sub` is true for one
      introduced by ':'. */
  datatype Param = Param(value: nat, has: bool, sub: bool)

  datatype Action =
    | Print(r: Rune)
    | Execute(b: byte)
    | EscDispatch(inter: byte, final: byte)
    | CsiDispatch(priv: byte, inter: byte, params: seq<Param>, final: byte)
    | OscDispatch(data: seq<byte>)

  datatype PState = PState(
    state: State, params: seq<Param>, inter: byte, priv: byte, overflow: bool,
    osc: seq<byte>, partial: seq<byte>)

  const INIT := PState(Ground, [], 0, 0, false, [], [])

  /** A parser and what it dispatched on the way there. */
  datatype Out = Out(p: PState, acts: seq<Action>)

  predicate IsControl(b: int) { b < 0x20 || b == DEL }

  function ResetCsi(p: PState): PState {
    p.(params := [], inter := 0, priv := 0, overflow := false)
  }

  /** The parameter list once the first slot is in use. */
  function Opened(params: seq<Param>): seq<Param> {
    if params == [] then [Param(0, false, false)] else params
  }

  function PushDigit(p: PState, b: byte): PState
    requires 0x30 <= b <= 0x39
  {
    if p.overflow then p
    else
      var ps := Opened(p.params);
      var last := ps[|ps| - 1];
      var v := last.value * 10 + (b - 0x30);
      p.(params := ps[|ps| - 1 := Param(if v > MAX_VALUE then MAX_VALUE else v, true, last.sub)])
  }

  function NextParam(p: PState, sub: bool): PState {
    if p.overflow then p
    else
      var ps := Opened(p.params);
      if |ps| >= MAX_PARAMS then p.(params := ps, overflow := true)
      else p.(params := ps + [Param(0, false, sub)])
  }

  /** A dispatched escape sequence; RIS (ESC c) also replaces the parser. */
  function DispatchEsc(p: PState, inter: byte, final: byte): Out {
    Out(if inter == 0 && final == 'c' as int then INIT else p.(state := Ground), [EscDispatch(inter, final)])
  }

  function DispatchCsi(p: PState, final: byte): Out {
    Out(p.(state := Ground), [CsiDispatch(p.priv, p.inter, p.params, final)])
  }

  /** C0 controls and DEL: part of a string payload, executed anywhere else. */
  function FeedControl(p: PState, b: byte): Out
    requires IsControl(b)
  {
    match p.state
    case Osc =>
      if b == BEL then Out(p.(state := Ground), [OscDispatch(p.osc)])
      else if b == ESC then Out(p.(state := OscEscape), [])
      else Out(p, [])
    case Str => Out(if b == ESC then p.(state := StrEscape) else p, [])
    case _ =>
      var q := if p.state.OscEscape? || p.state.StrEscape? then p.(state := Ground) else p;
      if b == ESC then Out(ResetCsi(q).(state := Escape), [])
      else if b == CAN || b == SUB then Out(q.(state := Ground), [])
      else Out(q, [Execute(b)])
  }

  function FeedEscape(p: PState, b: byte): Out {
    if 0x20 <= b <= 0x2f then Out(p.(inter := b, state := EscapeIntermediate), [])
    else if b == '[' as int then Out(p.(state := CsiEntry), [])
    else if b == ']' as int then Out(p.(osc := [], state := Osc), [])
    else if b == 'P' as int || b == 'X' as int || b == '^' as int || b == '_' as int then
      Out(p.(state := Str), [])
    else DispatchEsc(p, 0, b)
  }

  function FeedEscapeIntermediate(p: PState, b: byte): Out {
    if 0x20 <= b <= 0x2f then Out(p.(inter := b), [])
    else DispatchEsc(p, p.inter, b)
  }

  function FeedCsiParam(p: PState, b: byte): Out {
    if 0x30 <= b <= 0x39 then Out(PushDigit(p, b), [])
    else if b == ';' as int then Out(NextParam(p, false), [])
    else if b == ':' as int then Out(NextParam(p, true), [])
    else if 0x3c <= b <= 0x3f then Out(p.(state := CsiIgnore), [])
    else if 0x20 <= b <= 0x2f then Out(p.(inter := b, state := CsiIntermediate), [])
    else DispatchCsi(p, b)
  }

  function FeedCsiEntry(p: PState, b: byte): Out {
    if 0x30 <= b <= 0x3b then FeedCsiParam(p.(state := CsiParam), b)
    else if 0x3c <= b <= 0x3f then Out(p.(priv := b, state := CsiParam), [])
    else if 0x20 <= b <= 0x2f then Out(p.(inter := b, state := CsiIntermediate), [])
    else DispatchCsi(p, b)
  }

  function FeedCsiIntermediate(p: PState, b: byte): Out {
    if 0x20 <= b <= 0x2f then Out(p.(inter := b), [])
    else if 0x30 <= b <= 0x3f then Out(p.(state := CsiIgnore), [])
    else DispatchCsi(p, b)
  }

  /** The byte after an escape character inside a string: '\\' ends the string,
      anything else abandons it and belongs to the new escape sequence. */
  function FeedStringEscape(p: PState, b: byte): Out {
    if b != '\\' as int then FeedEscape(ResetCsi(p).(state := Escape), b)
    else Out(p.(state := Ground), if p.state.OscEscape? then [OscDispatch(p.osc)] else [])
  }

  function FeedByte(p: PState, b: byte): (o: Out)
    ensures |o.acts| <= 1
  {
    if IsControl(b) then FeedControl(p, b)
    else match p.state
    case Ground => Out(p, [Print(b)])
    case Escape => FeedEscape(p, b)
    case EscapeIntermediate => FeedEscapeIntermediate(p, b)
    case CsiEntry => FeedCsiEntry(p, b)
    case CsiParam => FeedCsiParam(p, b)
    case CsiIntermediate => FeedCsiIntermediate(p, b)
    case CsiIgnore => Out(if 0x40 <= b <= 0x7e then p.(state := Ground) else p, [])
    case Osc => Out(if |p.osc| < MAX_OSC_BYTES then p.(osc := p.osc + [b]) else p, [])
    case Str => Out(p, [])
    case OscEscape | StrEscape => FeedStringEscape(p, b)
  }

  /** A decoded rune: printed in ground, part of an OSC string, else ignored. */
  function FeedRune(p: PState, r: Rune): Out {
    match p.state
    case Ground => Out(p, [Print(r)])
    case Osc => Out(if |p.osc| < MAX_OSC_BYTES then p.(osc := p.osc + Encode(r)) else p, [])
    case _ => Out(p, [])
  }

  /** The states in which bytes from 0x80 on are decoded rather than fed one by one. */
  predicate Decodes(s: State) { s.Ground? || s.Osc? || s.Str? }

  function Then(o: Out, q: Out): Out { Out(q.p, o.acts + q.acts) }

  /** One turn of Write's main loop: what the head of `data` does and how many
      bytes it takes. An incomplete rune takes none. */
  function Turn(p: PState, data: seq<byte>): (t: (Out, nat))
    requires data != []
    ensures t.1 <= |data|
  {
    if data[0] < 0x80 || !Decodes(p.state) then (FeedByte(p, data[0]), 1)
    else
      var (r, size) := Decode(data);
      if size > 1 then (FeedRune(p, r), size)
      else if !FullRune(data) then (Out(p, []), 0)
      else (Out(p, []), 1)
  }

  /** The main loop of Write: no rune is pending. */
  function ParseLoop(p: PState, data: seq<byte>): Out
    decreases |data|
  {
    if data == [] then Out(p, [])
    else
      var (o, n) := Turn(p, data);
      if n == 0 then Out(p.(partial := data), [])
      else Then(o, ParseLoop(o.p, data[n..]))
  }

  /** How many bytes of `data` complete the pending ones, all of it if none do. */
  function Pull(pending: seq<byte>, data: seq<byte>): (k: nat)
    ensures k <= |data|
    decreases |data|
  {
    if data == [] || |pending| >= UTF_MAX then 0
    else if FullRune(pending + [data[0]]) then 1
    else 1 + Pull(pending + [data[0]], data[1..])
  }

  function FeedRunes(p: PState, rest: seq<byte>): Out
    decreases |rest|
  {
    if rest == [] then Out(p, [])
    else
      var (r, size) := Decode(rest);
      var o := FeedRune(p, r);
      Then(o, FeedRunes(o.p, rest[size..]))
  }

  /** One Write call: first finish the rune cut by the previous one. */
  function Parse(p: PState, data: seq<byte>): Out {
    if p.partial == [] then ParseLoop(p, data)
    else
      var k := Pull(p.partial, data);
      var held := p.partial + data[..k];
      if !FullRune(held) then Out(p.(partial := held), [])
      else
        var (r, size) := Decode(held);
        var o := FeedRune(p.(partial := []), r);
        var o' := Then(o, FeedRunes(o.p, held[size..]));
        Then(o', ParseLoop(o'.p, data[k..]))
  }

  /** A pending rune is the true beginning of one, cut in a state that decodes. */
  predicate Pending(p: PState) {
    p.partial != [] ==>
      Decodes(p.state) && Need(p.partial[0]) > |p.partial| && PrefixOk(p.partial)
  }

  lemma FeedKeepsPartial(p: PState, b: byte)
    requires p.partial == []
    ensures FeedByte(p, b).p.partial == []
  {
  }

  lemma TurnKeepsPartial(p: PState, data: seq<byte>)
    requires data != [] && p.partial == []
    ensures Turn(p, data).0.p.partial == []
  {
    FeedKeepsPartial(p, data[0]);
  }

  /** Bytes that follow do not change a turn that takes something. */
  lemma TurnExtend(p: PState, a: seq<byte>, b: seq<byte>)
    requires a != [] && Turn(p, a).1 > 0
    ensures Turn(p, a + b) == Turn(p, a)
  {
    assert (a + b)[0] == a[0];
    if a[0] >= 0x80 && Decodes(p.state) {
      assert FullRune(a);
      DecodeExtend(a, b);
      assert FullRune(a + b);
    }
  }

  lemma TurnHolds(p: PState, data: seq<byte>)
    requires data != [] && Turn(p, data).1 == 0
    ensures Decodes(p.state) && Need(data[0]) > |data| && PrefixOk(data)
  {
  }

  /** What is left pending is the end of what was read, and the true beginning
      of a rune. */
  lemma {:induction false} LoopPending(p: PState, data: seq<byte>)
    requires p.partial == []
    ensures var q := ParseLoop(p, data).p;
      Pending(q) && |q.partial| <= |data| && data[|data| - |q.partial|..] == q.partial
    decreases |data|
  {
    if data != [] {
      hide Turn, PrefixOk, Need;
      var (o, n) := Turn(p, data);
      if n == 0 {
        TurnHolds(p, data);
      } else {
        TurnKeepsPartial(p, data);
        LoopPending(o.p, data[n..]);
      }
    }
  }

  // ---------------------------------------------------------------------------
  // Where a stream is cut makes no difference
  // ---------------------------------------------------------------------------

  lemma ThenAssoc(a: Out, b: Out, c: Out)
    ensures Then(a, Then(b, c)) == Then(Then(a, b), c)
  {
  }

  lemma LoopNil(p: PState, o: Out)
    ensures ParseLoop(p, []) == Out(p, []) && Then(Out(p, []), o) == o
  {
  }

  lemma LoopTurn(p: PState, data: seq<byte>)
    requires data != []
    ensures var (o, n) := Turn(p, data);
      ParseLoop(p, data) == if n == 0 then Out(p.(partial := data), [])
                            else Then(o, ParseLoop(o.p, data[n..]))
    ensures Turn(p, data).1 > 0 ==>
      ParseLoop(p, data).p == ParseLoop(Turn(p, data).0.p, data[Turn(p, data).1..]).p
  {
  }

  /** Reading `a` and then `b` is reading `a + b` when `a` leaves no rune pending. */
  lemma {:induction false} LoopSplit(p: PState, a: seq<byte>, b: seq<byte>)
    requires p.partial == [] && ParseLoop(p, a).p.partial == []
    ensures ParseLoop(p, a + b) == Then(ParseLoop(p, a), ParseLoop(ParseLoop(p, a).p, b))
    decreases |a|
  {
    hide Turn, Then, ParseLoop;
    if a == [] {
      LoopNil(p, ParseLoop(p, b));
      assert a + b == b;
    } else {
      LoopTurn(p, a);
      var (o, n) := Turn(p, a);
      TurnExtend(p, a, b);
      TurnKeepsPartial(p, a);
      LoopSplit(o.p, a[n..], b);
      LoopTurn(p, a + b);
      assert (a + b)[n..] == a[n..] + b;
      var rest := ParseLoop(o.p, a[n..]);
      ThenAssoc(o, rest, ParseLoop(rest.p, b));
    }
  }

  /** Pulling bytes in completes a rune exactly, unless the data runs out. */
  lemma {:induction false} PullExact(pending: seq<byte>, data: seq<byte>)
    requires pending != [] && Need(pending[0]) > |pending| && PrefixOk(pending + data)
    ensures var k := Pull(pending, data);
      k == if |pending + data| < Need(pending[0]) then |data| else Need(pending[0]) - |pending|
    decreases |data|
  {
    if data != [] {
      var next := pending + [data[0]];
      assert next + data[1..] == pending + data;
      assert PrefixOk(next);
      if !FullRune(next) {
        PullExact(next, data[1..]);
      }
    }
  }

  /** The call that completes a pending rune. */
  lemma ResumeFull(p: PState, held: seq<byte>, rest: seq<byte>)
    requires held != [] && |held| == Need(held[0]) > 1 && PrefixOk(held) && Decodes(p.state)
    requires p.partial == []
    ensures var o := FeedRune(p, Decode(held).0);
      && Then(o, FeedRunes(o.p, held[Decode(held).1..])) == o
      && ParseLoop(p, held + rest) == Then(o, ParseLoop(o.p, rest))
  {
    hide FeedRune, FeedByte;
    DecodeExtend(held, rest);
    var (r, size) := Decode(held);
    assert held[size..] == [];
    assert (held + rest)[size..] == rest;
    assert Turn(p, held + rest) == (FeedRune(p, r), size);
    hide Turn;
    LoopTurn(p, held + rest);
  }

  /** A call that finds a rune pending behaves as if it had been handed the whole
      rune, when its first bytes continue the rune as far as they go. */
  lemma Resume(p: PState, data: seq<byte>)
    requires Pending(p) && (p.partial == [] || PrefixOk(p.partial + data))
    ensures Parse(p, data) == ParseLoop(p.(partial := []), p.partial + data)
  {
    hide Turn, ParseLoop, FeedRunes, FeedRune, Then, Decode, Second, Cont;
    var s := p.partial + data;
    var q := p.(partial := []);
    if p.partial == [] {
      assert s == data;
      assert q == p;
    } else {
      PullExact(p.partial, data);
      var k := Pull(p.partial, data);
      var held := p.partial + data[..k];
      assert held + data[k..] == s;
      if |s| < Need(s[0]) {
        assert held == s;
        LoopTurn(q, s);
        HoldTurn(q, s);
      } else {
        ResumeFull(q, held, data[k..]);
      }
    }
  }

  lemma HoldTurn(p: PState, data: seq<byte>)
    requires data != [] && Decodes(p.state) && Need(data[0]) > |data| && PrefixOk(data)
    ensures Turn(p, data) == (Out(p, []), 0)
  {
  }

  lemma ParseFresh(p: PState, data: seq<byte>)
    requires p.partial == []
    ensures Parse(p, data) == ParseLoop(p, data)
  {
  }

  lemma CutPending(p: PState, a: seq<byte>, b: seq<byte>)
    requires p.partial == [] && a != [] && NoTorn(a + b)
    requires Decodes(p.state) && Need(a[0]) > |a| && PrefixOk(a)
    ensures ParseLoop(p, a + b) == Then(Out(p.(partial := a), []), Parse(p.(partial := a), b))
  {
    hide ParseLoop, Parse, PrefixOk;
    NoTornHead(a + b);
    Resume(p.(partial := a), b);
    assert p.(partial := a).(partial := []) == p;
  }

  /** Chunking, one cut: in a stream with no torn sequence, two calls see what
      one call sees, wherever the cut falls. */
  lemma {:induction false} LoopCut(p: PState, a: seq<byte>, b: seq<byte>)
    requires p.partial == [] && NoTorn(a + b)
    ensures ParseLoop(p, a + b) == Then(ParseLoop(p, a), Parse(ParseLoop(p, a).p, b))
    decreases |a|
  {
    hide Parse, ParseLoop, Turn, PrefixOk, Need, FullRune, Then;
    if a == [] {
      LoopNil(p, ParseLoop(p, b));
      assert a + b == b;
      assert Parse(p, b) == ParseLoop(p, b) by { ParseFresh(p, b); }
    } else {
      var (o, n) := Turn(p, a);
      LoopTurn(p, a);
      if n == 0 {
        TurnHolds(p, a);
        CutPending(p, a, b);
      } else {
        TurnExtend(p, a, b);
        TurnKeepsPartial(p, a);
        assert (a + b)[n..] == a[n..] + b;
        NoTornSuffix(a + b, n);
        var rest := ParseLoop(o.p, a[n..]);
        LoopCut(o.p, a[n..], b);
        LoopTurn(p, a + b);
        ThenAssoc(o, rest, Parse(rest.p, b));
      }
    }
  }

  /** All the calls of a list of chunks, one after the other. */
  function ParseAll(p: PState, chunks: seq<seq<byte>>): Out
    decreases |chunks|
  {
    if chunks == [] then Out(p, [])
    else
      var o := Parse(p, chunks[0]);
      Then(o, ParseAll(o.p, chunks[1..]))
  }

  function Flatten(chunks: seq<seq<byte>>): seq<byte> {
    if chunks == [] then [] else chunks[0] + Flatten(chunks[1..])
  }

  /** Chunking does not matter: for every stream without torn sequences (every
      well-formed UTF-8 stream is one) and every way of cutting it into calls,
      the parser ends in the same state and dispatches the same actions. */
  lemma {:induction false} ChunkingIrrelevant(p: PState, chunks: seq<seq<byte>>)
    requires Pending(p) && NoTorn(p.partial + Flatten(chunks))
    ensures ParseAll(p, chunks) == Parse(p, Flatten(chunks))
    decreases |chunks|
  {
    if chunks == [] {
      ParseNothing(p);
    } else {
      var a, b := chunks[0], Flatten(chunks[1..]);
      var o := Parse(p, a);
      ParseCut(p, a, b);
      ChunkingIrrelevant(o.p, chunks[1..]);
      hide Parse;
    }
  }

  lemma ParseNothing(p: PState)
    requires Pending(p)
    ensures Parse(p, []) == Out(p, [])
  {
    if p.partial != [] {
      assert p.partial + [][..0] == p.partial;
    }
  }

  lemma ParseCut(p: PState, a: seq<byte>, b: seq<byte>)
    requires Pending(p) && NoTorn(p.partial + (a + b))
    ensures Parse(p, a + b) == Then(Parse(p, a), Parse(Parse(p, a).p, b))
    ensures Pending(Parse(p, a).p) && NoTorn(Parse(p, a).p.partial + b)
  {
    hide Parse, ParseLoop, PrefixOk;
    var q := p.(partial := []);
    var held := p.partial + a;
    var s := held + b;
    assert s == p.partial + (a + b);
    NoTornPrefix(s, |held|);
    assert s[..|held|] == held;
    NoTornHead(held);
    NoTornHead(s);
    Resume(p, a);
    Resume(p, a + b);
    LoopCut(q, held, b);
    LoopPending(q, held);
    var k := |held| - |Parse(p, a).p.partial|;
    NoTornSuffix(s, k);
    assert s[k..] == held[k..] + b;
  }

  /** The hypothesis is needed: a sequence torn right where two calls meet
      swallows the control that follows it. One call drops the bad byte and
      starts an escape sequence; two calls print the escape character. */
  lemma TornCutDiffers()
    ensures ParseAll(INIT, [[0xE4], [ESC]]) == Out(INIT, [Print(RUNE_ERROR), Print(ESC)])
    ensures Parse(INIT, [0xE4, ESC]) == Out(INIT.(state := Escape), [])
  {
    var p := INIT.(partial := [0xE4]);
    TornOneCall();
    TornSecondCall(p);
    assert Parse(INIT, [0xE4]) == Out(p, []);
    hide Parse, ParseLoop;
    var chunks := [[0xE4], [ESC]];
    assert chunks[1..] == [[ESC]] && [[ESC]][1..] == [];
    assert ParseAll(p, [[ESC]]) == Then(Parse(p, [ESC]), ParseAll(INIT, []));
  }

  lemma TornOneCall()
    ensures Parse(INIT, [0xE4, ESC]) == Out(INIT.(state := Escape), [])
  {
    var d := [0xE4, ESC];
    assert Turn(INIT, d) == (Out(INIT, []), 1);
    assert d[1..] == [ESC];
    var q := FeedByte(INIT, ESC).p;
    assert Turn(INIT, [ESC]) == (Out(INIT.(state := Escape), []), 1);
    assert [ESC][1..] == [];
    LoopTurn(INIT, [ESC]);
    LoopTurn(INIT, d);
  }

  lemma TornSecondCall(p: PState)
    requires p == INIT.(partial := [0xE4])
    ensures Parse(p, [ESC]) == Out(INIT, [Print(RUNE_ERROR), Print(ESC)])
  {
    assert [0xE4] + [ESC] == [0xE4, ESC];
    assert Pull([0xE4], [ESC]) == 1;
    var held := [0xE4] + [ESC][..1];
    assert held == [0xE4, ESC];
    assert Decode(held) == (RUNE_ERROR, 1);
    assert held[1..] == [ESC];
    assert Decode([ESC]) == (ESC, 1);
    assert [ESC][1..] == [];
    assert FeedRunes(INIT, [ESC]) == Out(INIT, [Print(ESC)]);
  }
}
