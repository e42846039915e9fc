/** The parser in place: fixed parameter arrays with slots left over from earlier
    sequences, a string buffer, and the bytes of a rune cut by the end of a call. */
module ParserMachine {
  import opened Utf8
  import opened Parser

  class Machine {
    var state: State
    const params: array<nat>
    const hasValue: array<bool>
    const isSub: array<bool>
    var nParams: nat
    var inter: byte
    var priv: byte
    var overflow: bool
    var osc: seq<byte>
    const partial: array<byte>
    var nPart: nat
    /** What was dispatched so far. */
    var out: seq<Action>

    function Repr(): set<object> { {this, params, hasValue, isSub, partial} }

    /** While no slot is in use, the first one is clean; the others need not be. */
    predicate Valid()
      reads Repr()
    {
      && params.Length == hasValue.Length == isSub.Length == MAX_PARAMS && partial.Length == UTF_MAX
      && hasValue != isSub
      && nParams <= MAX_PARAMS && nPart <= UTF_MAX
      && (nParams == 0 ==> params[0] == 0 && !hasValue[0] && !isSub[0])
    }

    function Params(): (ps: seq<Param>)
      requires Valid()
      reads Repr()
      ensures |ps| == nParams
    {
      seq(nParams, i requires 0 <= i < nParams reads Repr() requires Valid() => Param(params[i], hasValue[i], isSub[i]))
    }

    function View(): PState
      requires Valid()
      reads Repr()
    {
      PState(state, Params(), inter, priv, overflow, osc, partial[..nPart])
    }

    constructor ()
      ensures Valid() && View() == INIT && out == [] && fresh(Repr())
    {
      state := Ground;
      params, hasValue, isSub := new nat[MAX_PARAMS](i => 0), new bool[MAX_PARAMS](i => false), new bool[MAX_PARAMS](i => false);
      partial := new byte[UTF_MAX](i => 0);
      nParams, inter, priv, overflow, osc, nPart, out := 0, 0, 0, false, [], 0, [];
    }

    method ResetCSI()
      requires Valid()
      modifies this, params, hasValue, isSub
      ensures Valid() && View() == ResetCsi(old(View())) && out == old(out)
      ensures state == old(state) && nPart == old(nPart)
    {
      var i := 0;
      while i < nParams + 1 && i < MAX_PARAMS
        invariant i <= MAX_PARAMS && nParams == old(nParams) && Valid()
        invariant forall j :: 0 <= j < i ==> params[j] == 0 && !hasValue[j] && !isSub[j]
        invariant state == old(state) && osc == old(osc) && nPart == old(nPart) && out == old(out)
      {
        params[i], hasValue[i], isSub[i] := 0, false, false;
        i := i + 1;
      }
      nParams, inter, priv, overflow := 0, 0, 0, false;
    }

    method PushDigitAt(b: byte)
      requires Valid() && 0x30 <= b <= 0x39
      modifies this, params, hasValue
      ensures Valid() && View() == PushDigit(old(View()), b) && out == old(out)
    {
      if overflow {
        return;
      }
      if nParams == 0 {
        nParams := 1;
      }
      var i := nParams - 1;
      var v := params[i] * 10 + (b - 0x30);
      if v > MAX_VALUE {
        v := MAX_VALUE;
      }
      params[i] := v;
      hasValue[i] := true;
      assert Params() == PushDigit(old(View()), b).params;
    }

    method NextParamAt(sub: bool)
      requires Valid()
      modifies this, params, hasValue, isSub
      ensures Valid() && View() == NextParam(old(View()), sub) && out == old(out)
    {
      if overflow {
        return;
      }
      if nParams == 0 {
        nParams := 1;
      }
      if nParams >= MAX_PARAMS {
        overflow := true;
        assert Params() == NextParam(old(View()), sub).params;
        return;
      }
      params[nParams], hasValue[nParams], isSub[nParams] := 0, false, sub;
      nParams := nParams + 1;
      assert Params() == NextParam(old(View()), sub).params;
    }

    /** Only the control state and the collected bytes change. */
    method Go(s: State, i: byte, p: byte)
      requires Valid()
      modifies this`state, this`inter, this`priv
      ensures Valid() && View() == old(View()).(state := s, inter := i, priv := p)
    {
      state, inter, priv := s, i, p;
      assert Params() == old(Params());
    }

    method Emit(a: Action)
      requires Valid()
      modifies this`out
      ensures Valid() && View() == old(View()) && out == old(out) + [a]
    {
      out := out + [a];
      assert Params() == old(Params());
    }

    /** Dispatch after leaving for ground. RIS replaces the parser. */
    method DispatchEscAt(i: byte, final: byte)
      requires Valid()
      modifies Repr()
      ensures Valid() && View() == DispatchEsc(old(View()), i, final).p && out == old(out) + DispatchEsc(old(View()), i, final).acts
    {
      Go(Ground, inter, priv);
      Emit(EscDispatch(i, final));
      if i == 0 && final == 'c' as int {
        Renew();
      }
    }

    method Renew()
      requires Valid()
      modifies Repr()
      ensures Valid() && View() == INIT && out == old(out)
    {
      state, nParams, inter, priv, overflow, osc, nPart := Ground, 0, 0, 0, false, [], 0;
      params[0], hasValue[0], isSub[0] := 0, false, false;
    }

    method DispatchCsiAt(final: byte)
      requires Valid()
      modifies Repr()
      ensures Valid() && View() == DispatchCsi(old(View()), final).p && out == old(out) + DispatchCsi(old(View()), final).acts
    {
      Go(Ground, inter, priv);
      Emit(CsiDispatch(priv, inter, Params(), final));
    }

    method DispatchOscAt()
      requires Valid()
      modifies Repr()
      ensures Valid() && View() == old(View()).(state := Ground) && out == old(out) + [OscDispatch(old(osc))]
    {
      Emit(OscDispatch(osc));
      Go(Ground, inter, priv);
    }

    method AppendOsc(more: seq<byte>)
      requires Valid()
      modifies this`osc
      ensures Valid()
      ensures View() == if |old(osc)| < MAX_OSC_BYTES then old(View()).(osc := old(osc) + more) else old(View())
    {
      if |osc| < MAX_OSC_BYTES {
        osc := osc + more;
      }
      assert Params() == old(Params());
    }

    method FeedControlAt(b: byte)
      requires Valid() && IsControl(b)
      modifies Repr()
      ensures Valid() && View() == FeedControl(old(View()), b).p && out == old(out) + FeedControl(old(View()), b).acts
    {
      if state.Osc? {
        if b == BEL {
          DispatchOscAt();
        } else if b == ESC {
          Go(OscEscape, inter, priv);
        }
        return;
      }
      if state.Str? {
        if b == ESC {
          Go(StrEscape, inter, priv);
        }
        return;
      }
      if state.OscEscape? || state.StrEscape? {
        Go(Ground, inter, priv);
      }
      if b == ESC {
        ResetCSI();
        Go(Escape, inter, priv);
      } else if b == CAN || b == SUB {
        Go(Ground, inter, priv);
      } else {
        Emit(Execute(b));
      }
    }

    method FeedEscapeAt(b: byte)
      requires Valid()
      modifies Repr()
      ensures Valid() && View() == FeedEscape(old(View()), b).p && out == old(out) + FeedEscape(old(View()), b).acts
    {
      if 0x20 <= b <= 0x2f {
        Go(EscapeIntermediate, b, priv);
      } else if b == '[' as int {
        Go(CsiEntry, inter, priv);
      } else if b == ']' as int {
        osc := [];
        assert Params() == old(Params());
        Go(Osc, inter, priv);
      } else if b == 'P' as int || b == 'X' as int || b == '^' as int || b == '_' as int {
        Go(Str, inter, priv);
      } else {
        DispatchEscAt(0, b);
      }
    }

    method FeedCsiParamAt(b: byte)
      requires Valid()
      modifies Repr()
      ensures Valid() && View() == FeedCsiParam(old(View()), b).p && out == old(out) + FeedCsiParam(old(View()), b).acts
    {
      if 0x30 <= b <= 0x39 {
        PushDigitAt(b);
      } else if b == ';' as int {
        NextParamAt(false);
      } else if b == ':' as int {
        NextParamAt(true);
      } else if 0x3c <= b <= 0x3f {
        Go(CsiIgnore, inter, priv);
      } else if 0x20 <= b <= 0x2f {
        Go(CsiIntermediate, b, priv);
      } else {
        DispatchCsiAt(b);
      }
    }

    /** feedByte. A first parameter byte and a byte after an abandoned string are
        fed once more in the state they belong to. */
    method Feed(b: byte)
      requires Valid()
      modifies Repr()
      ensures Valid() && View() == FeedByte(old(View()), b).p && out == old(out) + FeedByte(old(View()), b).acts
      decreases if state.CsiEntry? || state.OscEscape? || state.StrEscape? then 1 else 0
    {
      hide FeedControl, FeedEscape, FeedCsiParam, ResetCsi;
      if b < 0x20 || b == DEL {
        FeedControlAt(b);
        return;
      }
      match state
      case Ground => Emit(Print(b));
      case Escape => FeedEscapeAt(b);
      case EscapeIntermediate =>
        if 0x20 <= b <= 0x2f {
          Go(EscapeIntermediate, b, priv);
        } else {
          DispatchEscAt(inter, b);
        }
      case CsiEntry =>
        if 0x30 <= b <= 0x3b {
          Go(CsiParam, inter, priv);
          Feed(b);
        } else if 0x3c <= b <= 0x3f {
          Go(CsiParam, inter, b);
        } else if 0x20 <= b <= 0x2f {
          Go(CsiIntermediate, b, priv);
        } else {
          DispatchCsiAt(b);
        }
      case CsiParam => FeedCsiParamAt(b);
      case CsiIntermediate =>
        if 0x20 <= b <= 0x2f {
          Go(CsiIntermediate, b, priv);
        } else if 0x30 <= b <= 0x3f {
          Go(CsiIgnore, inter, priv);
        } else {
          DispatchCsiAt(b);
        }
      case CsiIgnore =>
        if 0x40 <= b <= 0x7e {
          Go(Ground, inter, priv);
        }
      case Osc => AppendOsc([b]);
      case Str =>
      case OscEscape =>
        if b == '\\' as int {
          DispatchOscAt();
        } else {
          ResetCSI();
          Go(Escape, inter, priv);
          Feed(b);
        }
      case StrEscape =>
        if b == '\\' as int {
          Go(Ground, inter, priv);
        } else {
          ResetCSI();
          Go(Escape, inter, priv);
          Feed(b);
        }
    }

    method FeedRuneAt(r: Rune)
      requires Valid()
      modifies Repr()
      ensures Valid() && View() == FeedRune(old(View()), r).p && out == old(out) + FeedRune(old(View()), r).acts
    {
      if state.Ground? {
        Emit(Print(r));
      } else if state.Osc? {
        AppendOsc(Encode(r));
      }
    }
  
    /** Bytes join the pending ones until they are a rune or something else. */
    method PullInto(data: seq<byte>) returns (k: nat)
      requires Valid() && nPart > 0
      modifies this`nPart, partial
      ensures Valid() && k == Pull(old(partial[..nPart]), data)
      ensures View() == old(View()).(partial := old(partial[..nPart]) + data[..k])
    {
      ghost var held := partial[..nPart];
      k := 0;
      var full := false;
      while k < |data| && nPart < UTF_MAX && !full
        invariant k <= |data| && Valid() && partial[..nPart] == held + data[..k]
        invariant Pull(held, data) == if full then k else k + Pull(partial[..nPart], data[k..])
      {
        hide FullRune;
        assert data[k..][0] == data[k] && data[k..][1..] == data[k + 1..];
        assert data[..k + 1] == data[..k] + [data[k]];
        ghost var before := partial[..nPart];
        partial[nPart] := data[k];
        nPart := nPart + 1;
        assert partial[..nPart] == before + [data[k]];
        k := k + 1;
        full := FullRune(partial[..nPart]);
      }
      assert Params() == old(Params());
    }

    method ClearPartial()
      requires Valid()
      modifies this`nPart
      ensures Valid() && View() == old(View()).(partial := []) && nPart == 0
    {
      nPart := 0;
      assert Params() == old(Params());
    }

    /** An incomplete rune at the end of a call is kept for the next one. */
    method Hold(rest: seq<byte>)
      requires Valid() && |rest| <= UTF_MAX
      modifies this`nPart, partial
      ensures Valid() && View() == old(View()).(partial := rest)
    {
      for j := 0 to |rest|
        invariant partial[..j] == rest[..j]
      {
        partial[j] := rest[j];
      }
      nPart := |rest|;
      assert rest[..|rest|] == rest;
      assert Params() == old(Params());
    }

    /** The runes of what was pulled in beyond the first. */
    method FeedRest(rest: seq<byte>)
      requires Valid()
      modifies Repr()
      ensures Valid() && View() == FeedRunes(old(View()), rest).p && out == old(out) + FeedRunes(old(View()), rest).acts
    {
      hide FeedRune, Decode;
      var left := rest;
      ghost var acts: seq<Action> := [];
      while left != []
        invariant Valid() && out == old(out) + acts
        invariant FeedRunes(old(View()), rest) == Then(Out(View(), acts), FeedRunes(View(), left))
        decreases |left|
      {
        var (r, size) := Decode(left);
        ghost var o := FeedRune(View(), r);
        ThenAssoc(Out(View(), acts), o, FeedRunes(o.p, left[size..]));
        FeedRuneAt(r);
        acts := acts + o.acts;
        left := left[size..];
      }
    }

    /** The main loop: ASCII and bytes inside sequences one by one, runes whole. */
    method Loop(data: seq<byte>)
      requires Valid() && nPart == 0
      modifies Repr()
      ensures Valid() && View() == ParseLoop(old(View()), data).p && out == old(out) + ParseLoop(old(View()), data).acts
    {
      hide ParseLoop, Turn, FeedByte, FeedRune, FullRune, Decode, Decodes;
      var i := 0;
      ghost var acts: seq<Action> := [];
      assert data[0..] == data;
      while i < |data|
        invariant i <= |data| && Valid() && View().partial == [] && out == old(out) + acts
        invariant ParseLoop(old(View()), data) == Then(Out(View(), acts), ParseLoop(View(), data[i..]))
      {
        ghost var p := View();
        var b, rest := data[i], data[i..];
        LoopTurn(p, rest);
        TurnKeepsPartial(p, rest);
        if b < 0x80 || !Decodes(state) {
          TurnAscii(p, rest);
          ThenAssoc(Out(p, acts), FeedByte(p, b), ParseLoop(FeedByte(p, b).p, rest[1..]));
          Feed(b);
          acts := acts + FeedByte(p, b).acts;
          assert rest[1..] == data[i + 1..];
          i := i + 1;
        } else {
          var (r, size) := Decode(rest);
          TurnRune(p, rest);
          if size == 1 {
            if !FullRune(rest) {
              HeldShort(rest);
              Hold(rest);
              return;
            }
            DropTurn(p, acts, rest);
            assert rest[1..] == data[i + 1..];
            i := i + 1;
          } else {
            ThenAssoc(Out(p, acts), FeedRune(p, r), ParseLoop(FeedRune(p, r).p, rest[size..]));
            FeedRuneAt(r);
            acts := acts + FeedRune(p, r).acts;
            assert rest[size..] == data[i + size..];
            i := i + size;
          }
        }
      }
      assert data[i..] == [] && acts + [] == acts;
      LoopNil(View(), Out(View(), []));
    }

    /** The pending bytes are a rune, or begin with bytes that cannot become one. */
    method FeedHeld(held: seq<byte>)
      requires Valid() && held == partial[..nPart] && held != []
      modifies Repr()
      ensures Valid() && nPart == 0
      ensures var o := FeedRune(old(View()).(partial := []), Decode(held).0);
        var o' := Then(o, FeedRunes(o.p, held[Decode(held).1..]));
        View() == o'.p && out == old(out) + o'.acts
    {
      hide FeedRunes, FeedRune, FullRune, Decode;
      ghost var p := View();
      var (r, size) := Decode(held);
      ClearPartial();
      FeedRuneAt(r);
      FeedRest(held[size..]);
      ghost var o := FeedRune(p.(partial := []), r);
      RuneKeepsPartial(p.(partial := []), r);
      RunesKeepPartial(o.p, held[size..]);
      assert View().partial == [] && |View().partial| == nPart;
    }

    /** Write: first the rune cut by the previous call, then the rest. */
    method Write(data: seq<byte>)
      requires Valid()
      modifies Repr()
      ensures Valid() && View() == Parse(old(View()), data).p && out == old(out) + Parse(old(View()), data).acts
    {
      hide ParseLoop, FeedRunes, FeedRune, FullRune, Decode, Pull;
      if nPart == 0 {
        assert partial[..nPart] == [];
        Loop(data);
        return;
      }
      var k := PullInto(data);
      var held := partial[..nPart];
      if !FullRune(held) {
        return;
      }
      FeedHeld(held);
      Loop(data[k..]);
    }
  }

  lemma TurnAscii(p: PState, data: seq<byte>)
    requires data != [] && (data[0] < 0x80 || !Decodes(p.state))
    ensures Turn(p, data) == (FeedByte(p, data[0]), 1)
  {
    hide FeedByte, Decode;
  }

  lemma TurnRune(p: PState, data: seq<byte>)
    requires data != [] && data[0] >= 0x80 && Decodes(p.state)
    ensures var (r, size) := Decode(data);
      size >= 1 && size <= |data|
      && Turn(p, data) == if size > 1 then (FeedRune(p, r), size) else if !FullRune(data) then (Out(p, []), 0) else (Out(p, []), 1)
  {
    hide FeedRune;
  }

  lemma DropTurn(p: PState, acts: seq<Action>, data: seq<byte>)
    requires data != [] && Turn(p, data) == (Out(p, []), 1)
    ensures Then(Out(p, acts), ParseLoop(p, data)) == Then(Out(p, acts), ParseLoop(p, data[1..]))
  {
    hide Turn;
  }

  lemma HeldShort(s: seq<byte>)
    requires s != [] && !FullRune(s)
    ensures |s| < UTF_MAX
  {
  }

  lemma {:induction false} RunesKeepPartial(p: PState, rest: seq<byte>)
    ensures FeedRunes(p, rest).p.partial == p.partial
    decreases |rest|
  {
    hide Decode, FeedRune;
    if rest != [] {
      var (r, size) := Decode(rest);
      RuneKeepsPartial(p, r);
      RunesKeepPartial(FeedRune(p, r).p, rest[size..]);
    }
  }

  lemma RuneKeepsPartial(p: PState, r: Rune)
    ensures FeedRune(p, r).p.partial == p.partial
  {
  }
}
