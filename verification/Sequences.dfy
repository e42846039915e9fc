/** Escape sequences as text, and the parser as the inverse of writing them:
    a control sequence with any parameter list, an OSC string, and plain text
    are each read back as exactly the action they were written for. */
module Sequences {
  import opened Utf8
  import opened Parser

  function Itoa(n: nat): (s: seq<byte>)
    ensures s != [] && forall i :: 0 <= i < |s| ==> 0x30 <= s[i] <= 0x39
  {
    if n < 10 then [0x30 + n] else Itoa(n / 10) + [0x30 + n % 10]
  }

  /** A parameter that is given. */
  function P(n: nat): Param { Param(n, true, false) }

  /** A sub-parameter, introduced by ':'. */
  function S(n: nat): Param { Param(n, true, true) }

  function MoreText(ps: seq<Param>): seq<byte> {
    if ps == [] then []
    else [if ps[0].sub then ':' as int else ';' as int] + Itoa(ps[0].value) + MoreText(ps[1..])
  }

  function ParamText(ps: seq<Param>): seq<byte> {
    if ps == [] then [] else Itoa(ps[0].value) + MoreText(ps[1..])
  }

  function Opt(b: byte): seq<byte> { if b == 0 then [] else [b] }

  /** CSI, private marker, parameters, intermediate, final byte. */
  function CsiText(priv: byte, ps: seq<Param>, inter: byte, final: byte): seq<byte> {
    [ESC, '[' as int] + Opt(priv) + ParamText(ps) + Opt(inter) + [final]
  }

  /** The parameter lists a control sequence can carry in full. */
  predicate Writable(ps: seq<Param>) {
    && |ps| <= MAX_PARAMS
    && (ps != [] ==> !ps[0].sub)
    && forall i :: 0 <= i < |ps| ==> ps[i].has && ps[i].value <= MAX_VALUE
  }

  predicate Ascii(s: seq<byte>) { forall i :: 0 <= i < |s| ==> s[i] < 0x80 }

  /** Bytes fed one by one. */
  function Feed(p: PState, s: seq<byte>): Out
    decreases |s|
  {
    if s == [] then Out(p, [])
    else
      var o := FeedByte(p, s[0]);
      Then(o, Feed(o.p, s[1..]))
  }

  lemma {:induction false} FeedAppend(p: PState, a: seq<byte>, b: seq<byte>)
    ensures Feed(p, a + b) == Then(Feed(p, a), Feed(Feed(p, a).p, b))
    decreases |a|
  {
    hide FeedByte;
    if a == [] {
      assert a + b == b;
    } else {
      assert (a + b)[1..] == a[1..] + b;
      var o := FeedByte(p, a[0]);
      FeedAppend(o.p, a[1..], b);
      ThenAssoc(o, Feed(o.p, a[1..]), Feed(Feed(p, a).p, b));
    }
  }

  lemma Feed1(p: PState, b: byte)
    ensures Feed(p, [b]) == FeedByte(p, b)
  {
    hide FeedByte;
    assert [b][1..] == [];
  }

  lemma {:induction false} LoopAscii(p: PState, s: seq<byte>)
    requires p.partial == [] && Ascii(s)
    ensures ParseLoop(p, s) == Feed(p, s) && Feed(p, s).p.partial == []
    decreases |s|
  {
    hide FeedByte;
    if s != [] {
      LoopTurn(p, s);
      FeedKeepsPartial(p, s[0]);
      LoopAscii(FeedByte(p, s[0]).p, s[1..]);
    }
  }

  // ---------------------------------------------------------------------------
  // Control sequences
  // ---------------------------------------------------------------------------

  /** The digits of n, read onto an empty last parameter. */
  lemma {:induction false} DigitsRead(p: PState, done: seq<Param>, sub: bool, n: nat)
    requires p.state == CsiParam && !p.overflow && n <= MAX_VALUE
    requires p.params == done + [Param(0, false, sub)] || (p.params == done == [] && !sub)
    ensures Feed(p, Itoa(n)) == Out(p.(params := done + [Param(n, true, sub)]), [])
    decreases n
  {
    hide FeedByte;
    var d := 0x30 + n % 10;
    if n < 10 {
      Feed1(p, d);
      assert Itoa(n) == [d];
      DigitRead(p, done, Param(0, false, sub), d);
    } else {
      DigitsRead(p, done, sub, n / 10);
      FeedAppend(p, Itoa(n / 10), [d]);
      var q := p.(params := done + [Param(n / 10, true, sub)]);
      Feed1(q, d);
      DigitRead(q, done, Param(n / 10, true, sub), d);
    }
  }

  lemma DigitRead(p: PState, done: seq<Param>, last: Param, d: byte)
    requires p.state == CsiParam && !p.overflow && 0x30 <= d <= 0x39
    requires last.value * 10 + (d - 0x30) <= MAX_VALUE
    requires p.params == done + [last] || (p.params == done == [] && last == Param(0, false, false))
    ensures FeedByte(p, d)
      == Out(p.(params := done + [Param(last.value * 10 + (d - 0x30), true, last.sub)]), [])
  {
    assert Opened(p.params) == done + [last];
    assert (done + [last])[|done| := Param(last.value * 10 + (d - 0x30), true, last.sub)]
      == done + [Param(last.value * 10 + (d - 0x30), true, last.sub)];
  }

  lemma {:induction false} MoreRead(p: PState, ps: seq<Param>)
    requires p.state == CsiParam && !p.overflow && p.params != []
    requires |p.params| + |ps| <= MAX_PARAMS
    requires forall i :: 0 <= i < |ps| ==> ps[i].has && ps[i].value <= MAX_VALUE
    ensures Feed(p, MoreText(ps)) == Out(p.(params := p.params + ps), [])
    decreases |ps|
  {
    hide FeedByte, Itoa;
    if ps == [] {
      assert p.params + ps == p.params;
    } else {
      var sep := if ps[0].sub then ':' as int else ';' as int;
      var q := p.(params := p.params + [Param(0, false, ps[0].sub)]);
      SeparatorRead(p, ps[0].sub);
      Feed1(p, sep);
      DigitsRead(q, p.params, ps[0].sub, ps[0].value);
      var r := p.(params := p.params + [ps[0]]);
      MoreRead(r, ps[1..]);
      FeedAppend(p, [sep], Itoa(ps[0].value) + MoreText(ps[1..]));
      FeedAppend(q, Itoa(ps[0].value), MoreText(ps[1..]));
      assert [sep] + Itoa(ps[0].value) + MoreText(ps[1..])
        == [sep] + (Itoa(ps[0].value) + MoreText(ps[1..]));
      assert r.params + ps[1..] == p.params + ps;
    }
  }

  lemma SeparatorRead(p: PState, sub: bool)
    requires p.state == CsiParam && !p.overflow && 0 < |p.params| < MAX_PARAMS
    ensures FeedByte(p, if sub then ':' as int else ';' as int)
      == Out(p.(params := p.params + [Param(0, false, sub)]), [])
  {
  }

  /** A fresh CSI entry, or one with only its private marker read. */
  predicate Entered(p: PState) {
    && p.params == [] && p.inter == 0 && !p.overflow
    && (p.state == CsiParam || (p.state == CsiEntry && p.priv == 0))
  }

  lemma DigitEnters(p: PState, s: seq<byte>)
    requires Entered(p) && s != [] && 0x30 <= s[0] <= 0x39
    ensures Feed(p, s) == Feed(p.(state := CsiParam), s)
  {
    assert FeedByte(p, s[0]) == FeedByte(p.(state := CsiParam), s[0]);
  }

  lemma ParamsRead(p: PState, ps: seq<Param>)
    requires Entered(p) && Writable(ps)
    ensures Feed(p, ParamText(ps))
      == Out(if ps == [] then p else p.(params := ps, state := CsiParam), [])
  {
    hide FeedByte, MoreText, Itoa;
    if ps != [] {
      var q := p.(state := CsiParam);
      var r := q.(params := [ps[0]]);
      DigitEnters(p, ParamText(ps));
      DigitsRead(q, [], false, ps[0].value);
      assert [] + [Param(ps[0].value, true, false)] == [ps[0]];
      FeedAppend(q, Itoa(ps[0].value), MoreText(ps[1..]));
      MoreRead(r, ps[1..]);
      assert [ps[0]] + ps[1..] == ps;
    }
  }

  predicate ValidCsi(priv: byte, inter: byte, final: byte) {
    && (priv == 0 || 0x3c <= priv <= 0x3f)
    && (inter == 0 || 0x20 <= inter <= 0x2f)
    && 0x40 <= final <= 0x7e
  }

  /** A parser between sequences, and one inside a sequence that an escape
      character starts afresh. */
  predicate Ready(p: PState) { p.partial == [] && p.state == Ground }

  lemma EntryRead(p: PState, priv: byte)
    requires Ready(p) && (priv == 0 || 0x3c <= priv <= 0x3f)
    ensures var e := Feed(p, [ESC, '[' as int] + Opt(priv));
      && Entered(e.p) && e.p.priv == priv && e.p.partial == [] && e.acts == []
  {
    var s := [ESC, '[' as int];
    var q := ResetCsi(p).(state := Escape);
    assert FeedByte(p, ESC) == Out(q, []);
    assert s[1..] == ['[' as int];
    Feed1(q, '[' as int);
    var e := q.(state := CsiEntry);
    assert Feed(p, s) == Out(e, []);
    FeedAppend(p, s, Opt(priv));
    if priv != 0 {
      Feed1(e, priv);
    }
  }

  lemma FinalRead(p: PState, inter: byte, final: byte)
    requires p.inter == 0 && (p.state == CsiEntry || p.state == CsiParam) && ValidCsi(0, inter, final)
    ensures var o := Feed(p, Opt(inter) + [final]);
      && o.acts == [CsiDispatch(p.priv, inter, p.params, final)]
      && o.p.state == Ground && o.p.partial == p.partial
  {
    FeedAppend(p, Opt(inter), [final]);
    if inter != 0 {
      Feed1(p, inter);
      assert FeedByte(p, inter) == Out(p.(inter := inter, state := CsiIntermediate), []);
      Feed1(p.(inter := inter, state := CsiIntermediate), final);
    } else {
      Feed1(p, final);
    }
  }

  lemma CsiTextAscii(priv: byte, ps: seq<Param>, inter: byte, final: byte)
    requires ValidCsi(priv, inter, final)
    ensures Ascii(CsiText(priv, ps, inter, final))
  {
    if ps != [] {
      MoreTextAscii(ps[1..]);
    }
    hide MoreText;
    assert Ascii(ParamText(ps));
    hide ParamText;
  }

  lemma {:induction false} MoreTextAscii(ps: seq<Param>)
    ensures Ascii(MoreText(ps))
  {
    if ps != [] {
      MoreTextAscii(ps[1..]);
    }
  }

  /** Writing a control sequence and reading it back: for every private marker,
      parameter list and intermediate byte the parser dispatches exactly what
      was written and is ready for the next sequence. */
  lemma CsiRoundTrip(p: PState, priv: byte, ps: seq<Param>, inter: byte, final: byte)
    requires Ready(p) && ValidCsi(priv, inter, final) && Writable(ps)
    ensures var o := ParseLoop(p, CsiText(priv, ps, inter, final));
      Ready(o.p) && o.acts == [CsiDispatch(priv, inter, ps, final)]
  {
    hide ParseLoop, Feed, ParamText;
    var head, tail := [ESC, '[' as int] + Opt(priv), Opt(inter) + [final];
    var text := CsiText(priv, ps, inter, final);
    assert text == head + (ParamText(ps) + tail);
    CsiTextAscii(priv, ps, inter, final);
    LoopAscii(p, text);
    EntryRead(p, priv);
    FeedAppend(p, head, ParamText(ps) + tail);
    var e := Feed(p, head).p;
    ParamsRead(e, ps);
    FeedAppend(e, ParamText(ps), tail);
    FinalRead(Feed(e, ParamText(ps)).p, inter, final);
  }

  // ---------------------------------------------------------------------------
  // Strings and text
  // ---------------------------------------------------------------------------

  /** An OSC string the parser accumulates in full when it starts with `used`
      bytes in its buffer: runes, each begun below the limit. */
  predicate OscFits(s: seq<byte>, used: nat)
    decreases |s|
  {
    s == [] ||
    (used < MAX_OSC_BYTES && (s[0] < 0x80 || Decode(s).1 > 1) && OscFits(s[Decode(s).1..], used + Decode(s).1))
  }

  predicate NoControls(s: seq<byte>) { forall i :: 0 <= i < |s| ==> !IsControl(s[i]) }

  lemma {:induction false} OscFitsEarlier(s: seq<byte>, used: nat, used': nat)
    requires OscFits(s, used) && used' <= used
    ensures OscFits(s, used')
    decreases |s|
  {
    if s != [] {
      var n := Decode(s).1;
      OscFitsEarlier(s[n..], used + n, used' + n);
    }
  }

  lemma {:induction false} OscFitsLength(s: seq<byte>, used: nat)
    requires OscFits(s, used)
    ensures s != [] ==> used + |s| < MAX_OSC_BYTES + UTF_MAX
    decreases |s|
  {
    if s != [] {
      OscFitsLength(s[Decode(s).1..], used + Decode(s).1);
    }
  }

  lemma WholeHead(s: seq<byte>, more: seq<byte>)
    requires s != [] && (s[0] < 0x80 || Decode(s).1 > 1)
    ensures Decode(s + more) == Decode(s) && (s + more)[0] == s[0]
  {
    assert FullRune(s);
    DecodeExtend(s, more);
  }

  /** One more rune, begun below the limit. */
  lemma {:induction false} OscFitsSnoc(s: seq<byte>, used: nat, r: Rune)
    requires OscFits(s, used) && used + |s| < MAX_OSC_BYTES
    ensures OscFits(s + Encode(r), used)
    decreases |s|
  {
    hide Decode, Encode, OscFits;
    var e := Encode(r);
    if s == [] {
      assert s + e == e;
      OscFitsOne(r, used);
    } else {
      OscFitsUncons(s, used);
      var n := Decode(s).1;
      OscFitsSnoc(s[n..], used + n, r);
      WholeHead(s, e);
      assert (s + e)[n..] == s[n..] + e;
      OscFitsCons(s + e, used);
    }
  }

  lemma OscFitsOne(r: Rune, used: nat)
    requires used < MAX_OSC_BYTES
    ensures OscFits(Encode(r), used)
  {
    var e := Encode(r);
    assert e == e + [];
    EncodeDecode(r, []);
    assert e[|e|..] == [];
    OscFitsCons(e, used);
  }

  lemma OscFitsUncons(s: seq<byte>, used: nat)
    requires s != [] && OscFits(s, used)
    ensures used < MAX_OSC_BYTES && (s[0] < 0x80 || Decode(s).1 > 1)
    ensures OscFits(s[Decode(s).1..], used + Decode(s).1)
  {
  }

  lemma OscFitsCons(s: seq<byte>, used: nat)
    requires s != [] && used < MAX_OSC_BYTES && (s[0] < 0x80 || Decode(s).1 > 1)
    requires OscFits(s[Decode(s).1..], used + Decode(s).1)
    ensures OscFits(s, used)
  {
  }

  /** Text accepted by an OSC string is well-formed UTF-8. */
  lemma {:induction false} OscFitsRead(p: PState, s: seq<byte>)
    requires p.partial == [] && p.state == Osc && OscFits(s, |p.osc|) && NoControls(s)
    ensures ParseLoop(p, s) == Out(p.(osc := p.osc + s), [])
    decreases |s|
  {
    hide ParseLoop, Turn, Decode, FeedByte, FeedRune, OscFits;
    if s == [] {
      LoopNil(p, Out(p, []));
      assert p.osc + s == p.osc;
    } else {
      LoopTurn(p, s);
      OscFitsUncons(s, |p.osc|);
      var n := Decode(s).1;
      var q := p.(osc := p.osc + s[..n]);
      OscTurn(p, s);
      OscFitsRead(q, s[n..]);
      assert q.osc + s[n..] == p.osc + s;
    }
  }

  lemma OscTurn(p: PState, s: seq<byte>)
    requires p.partial == [] && p.state == Osc && |p.osc| < MAX_OSC_BYTES
    requires s != [] && (s[0] < 0x80 || Decode(s).1 > 1) && !IsControl(s[0])
    ensures Turn(p, s) == (Out(p.(osc := p.osc + s[..Decode(s).1]), []), Decode(s).1)
  {
    DecodeEncode(s);
  }

  function OscText(data: seq<byte>): seq<byte> {
    [ESC, ']' as int] + data + [ESC, '\\' as int]
  }

  /** Writing an OSC string and reading it back. */
  lemma OscRoundTrip(p: PState, data: seq<byte>)
    requires Ready(p) && OscFits(data, 0) && NoControls(data)
    ensures var o := ParseLoop(p, OscText(data)); Ready(o.p) && o.acts == [OscDispatch(data)]
  {
    hide ParseLoop, OscFits;
    var q := ResetCsi(p).(state := Osc, osc := []);
    var head, tail := [ESC, ']' as int], [ESC, '\\' as int];
    assert OscText(data) == head + (data + tail);
    OscOpens(p);
    LoopSplit(p, head, data + tail);
    OscFitsRead(q, data);
    assert [] + data == data;
    var r := q.(osc := data);
    LoopSplit(q, data, tail);
    OscCloses(r);
  }

  lemma OscOpens(p: PState)
    requires Ready(p)
    ensures ParseLoop(p, [ESC, ']' as int]) == Out(ResetCsi(p).(state := Osc, osc := []), [])
  {
    var s := [ESC, ']' as int];
    LoopAscii(p, s);
    Feed1(FeedByte(p, ESC).p, s[1]);
    assert s[1..] == [s[1]];
  }

  lemma OscCloses(p: PState)
    requires p.partial == [] && p.state == Osc
    ensures ParseLoop(p, [ESC, '\\' as int]) == Out(p.(state := Ground), [OscDispatch(p.osc)])
  {
    var s := [ESC, '\\' as int];
    LoopAscii(p, s);
    Feed1(FeedByte(p, ESC).p, s[1]);
    assert s[1..] == [s[1]];
  }

  function Prints(rs: seq<Rune>): (acts: seq<Action>)
    ensures |acts| == |rs| && forall i :: 0 <= i < |rs| ==> acts[i] == Print(rs[i])
  {
    seq(|rs|, i requires 0 <= i < |rs| => Print(rs[i]))
  }

  /** Plain text is printed rune by rune. */
  lemma {:induction false} TextRead(p: PState, rs: seq<Rune>)
    requires Ready(p) && forall i :: 0 <= i < |rs| ==> !IsControl(rs[i])
    ensures ParseLoop(p, EncodeAll(rs)) == Out(p, Prints(rs))
    decreases |rs|
  {
    hide ParseLoop;
    if rs == [] {
      LoopNil(p, Out(p, []));
    } else {
      var e, rest := Encode(rs[0]), EncodeAll(rs[1..]);
      LoopTurn(p, e + rest);
      PrintTurn(p, rs[0], rest);
      assert (e + rest)[|e|..] == rest;
      TextRead(p, rs[1..]);
      assert [Print(rs[0])] + Prints(rs[1..]) == Prints(rs);
    }
  }

  lemma PrintTurn(p: PState, r: Rune, rest: seq<byte>)
    requires Ready(p) && !IsControl(r)
    ensures Turn(p, Encode(r) + rest) == (Out(p, [Print(r)]), |Encode(r)|)
  {
    EncodeDecode(r, rest);
    assert (Encode(r) + rest)[0] == Encode(r)[0];
  }

  // ---------------------------------------------------------------------------
  // What the parser's own storage is bounded by
  // ---------------------------------------------------------------------------

  predicate ParamsOk(ps: seq<Param>) {
    && |ps| <= MAX_PARAMS
    && (ps != [] ==> !ps[0].sub)
    && forall i :: 0 <= i < |ps| ==> ps[i].value <= MAX_VALUE
  }

  /** Parameters and OSC text stay within their limits, and OSC text is well-formed. */
  predicate Bounded(p: PState) {
    ParamsOk(p.params) && OscFits(p.osc, 0)
  }

  predicate ActionOk(a: Action) {
    match a
    case CsiDispatch(_, _, ps, _) => ParamsOk(ps)
    case OscDispatch(data) => OscFits(data, 0)
    case _ => true
  }

  /** Control characters never reach the screen or a string as text. */
  predicate ActionClean(a: Action) {
    match a
    case Print(r) => !IsControl(r)
    case OscDispatch(data) => NoControls(data)
    case _ => true
  }

  predicate AllOk(acts: seq<Action>) { forall i :: 0 <= i < |acts| ==> ActionOk(acts[i]) }
  predicate AllClean(acts: seq<Action>) { forall i :: 0 <= i < |acts| ==> ActionClean(acts[i]) }

  lemma BoundedOscLength(p: PState)
    requires Bounded(p)
    ensures |p.osc| <= MAX_OSC_BYTES + 3
  {
    OscFitsLength(p.osc, 0);
  }

  predicate BoundedOut(o: Out) { Bounded(o.p) && AllOk(o.acts) }

  lemma CsiParamBounded(p: PState, b: byte)
    requires Bounded(p)
    ensures BoundedOut(FeedCsiParam(p, b))
  {
    hide OscFits;
  }

  lemma EscapeBounded(p: PState, b: byte)
    requires Bounded(p)
    ensures BoundedOut(FeedEscape(p, b))
  {
    assert OscFits([], 0);
    hide OscFits;
  }

  lemma OscByteBounded(p: PState, b: byte)
    requires Bounded(p) && |p.osc| < MAX_OSC_BYTES && b < 0x80
    ensures Bounded(p.(osc := p.osc + [b]))
  {
    OscFitsSnoc(p.osc, 0, b);
    assert Encode(b) == [b];
  }

  /** Every byte leaves the parser's storage within its bounds. */
  lemma FeedBounded(p: PState, b: byte)
    requires Bounded(p) && (b < 0x80 || !Decodes(p.state))
    ensures BoundedOut(FeedByte(p, b))
  {
    hide FeedCsiParam, FeedEscape, OscFits;
    if IsControl(b) {
      InitBounded();
    } else {
      match p.state
      case Escape => EscapeBounded(p, b);
      case EscapeIntermediate => InitBounded();
      case CsiEntry => CsiParamBounded(p.(state := CsiParam), b);
      case CsiParam => CsiParamBounded(p, b);
      case OscEscape | StrEscape => EscapeBounded(ResetCsi(p).(state := Escape), b);
      case Osc => if |p.osc| < MAX_OSC_BYTES { OscByteBounded(p, b); }
      case _ =>
    }
  }

  lemma InitBounded()
    ensures Bounded(INIT)
  {
  }

  lemma RuneBounded(p: PState, r: Rune)
    requires Bounded(p)
    ensures BoundedOut(FeedRune(p, r))
  {
    hide OscFits;
    if p.state == Osc && |p.osc| < MAX_OSC_BYTES {
      OscFitsSnoc(p.osc, 0, r);
    }
  }

  lemma {:induction false} LoopBounded(p: PState, data: seq<byte>)
    requires Bounded(p)
    ensures BoundedOut(ParseLoop(p, data))
    decreases |data|
  {
    hide ParseLoop, FeedByte, FeedRune, Bounded, ActionOk, Decode;
    if data == [] {
      LoopNil(p, Out(p, []));
    } else {
      LoopTurn(p, data);
      var (o, n) := Turn(p, data);
      if n > 0 {
        if data[0] < 0x80 || !Decodes(p.state) {
          FeedBounded(p, data[0]);
        } else if Decode(data).1 > 1 {
          RuneBounded(p, Decode(data).0);
        }
        LoopBounded(o.p, data[n..]);
      } else {
        PartialIrrelevant(p, data);
      }
    }
  }

  lemma PartialIrrelevant(p: PState, held: seq<byte>)
    requires Bounded(p)
    ensures Bounded(p.(partial := held))
  {
  }

  lemma {:induction false} RunesBounded(p: PState, rest: seq<byte>)
    requires Bounded(p)
    ensures BoundedOut(FeedRunes(p, rest))
    decreases |rest|
  {
    hide FeedRune, Bounded, ActionOk, Decode;
    if rest != [] {
      var (r, n) := Decode(rest);
      RuneBounded(p, r);
      RunesBounded(FeedRune(p, r).p, rest[n..]);
    }
  }

  /** Every Write call, whatever the bytes and wherever they are cut, dispatches
      only sequences within the limits and leaves the parser within them. */
  lemma ParseBounded(p: PState, data: seq<byte>)
    requires Bounded(p)
    ensures BoundedOut(Parse(p, data))
  {
    hide ParseLoop, FeedRunes, FeedRune, Bounded, ActionOk, Decode;
    if p.partial == [] {
      LoopBounded(p, data);
    } else {
      var k := Pull(p.partial, data);
      var held := p.partial + data[..k];
      PartialIrrelevant(p, held);
      PartialIrrelevant(p, []);
      if FullRune(held) {
        var (r, n) := Decode(held);
        RuneBounded(p.(partial := []), r);
        var o := FeedRune(p.(partial := []), r);
        RunesBounded(o.p, held[n..]);
        LoopBounded(FeedRunes(o.p, held[n..]).p, data[k..]);
      }
    }
  }

  // ---------------------------------------------------------------------------
  // Controls never become text
  // ---------------------------------------------------------------------------

  predicate CleanOut(o: Out) { NoControls(o.p.osc) && AllClean(o.acts) }

  lemma FeedClean(p: PState, b: byte)
    requires NoControls(p.osc)
    ensures CleanOut(FeedByte(p, b))
  {
    hide FeedCsiParam, FeedEscape;
    if IsControl(b) {
      hide FeedEscapeIntermediate, FeedCsiEntry, FeedCsiIntermediate, FeedStringEscape;
    } else {
      CsiParamClean(p, b);
      CsiParamClean(p.(state := CsiParam), b);
      EscapeClean(p, b);
      EscapeClean(ResetCsi(p).(state := Escape), b);
    }
  }

  lemma CsiParamClean(p: PState, b: byte)
    requires NoControls(p.osc)
    ensures CleanOut(FeedCsiParam(p, b))
  {
  }

  lemma EscapeClean(p: PState, b: byte)
    requires NoControls(p.osc)
    ensures CleanOut(FeedEscape(p, b))
  {
  }

  lemma {:induction false} LoopClean(p: PState, data: seq<byte>)
    requires NoControls(p.osc)
    ensures CleanOut(ParseLoop(p, data))
    decreases |data|
  {
    hide ParseLoop, FeedByte, Decode, ActionClean;
    if data == [] {
      LoopNil(p, Out(p, []));
    } else {
      LoopTurn(p, data);
      var (o, n) := Turn(p, data);
      if n > 0 {
        FeedClean(p, data[0]);
        if Decode(data).1 > 1 {
          RuneClean(p, data);
        }
        LoopClean(o.p, data[n..]);
      }
    }
  }

  lemma RuneClean(p: PState, data: seq<byte>)
    requires NoControls(p.osc) && data != [] && Decode(data).1 > 1
    ensures CleanOut(FeedRune(p, Decode(data).0))
  {
    DecodeEncode(data);
    hide Decode;
  }

  /** In a stream without torn sequences no control character is ever printed
      or stored in a string. */
  lemma ParseClean(p: PState, data: seq<byte>)
    requires Pending(p) && NoTorn(p.partial + data) && NoControls(p.osc)
    ensures CleanOut(Parse(p, data))
  {
    hide Parse, ParseLoop;
    NoTornHead(p.partial + data);
    Resume(p, data);
    LoopClean(p.(partial := []), p.partial + data);
  }
}
