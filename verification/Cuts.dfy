/** Where a stream may be cut into writes: exactly where a rune cut in two is
    continued, as far as the next write goes, by bytes that belong to it. */
module Cuts {
  import opened Utf8
  import opened Parser
  import opened Resync
  import opened Sequences

  // ---------------------------------------------------------------------------
  // One call, stopped and gone on with
  // ---------------------------------------------------------------------------

  /** One call over `a + b` is one over `a` that goes on with the bytes it held. */
  lemma {:induction false} LoopGoesOn(p: PState, a: seq<byte>, b: seq<byte>)
    requires p.partial == []
    ensures var q := ParseLoop(p, a).p;
      ParseLoop(p, a + b) == Then(Out(p, ParseLoop(p, a).acts), ParseLoop(q.(partial := []), q.partial + b))
    decreases |a|
  {
    hide Turn, ParseLoop, Then;
    if a == [] {
      LoopNil(p, ParseLoop(p, b));
      assert a + b == b;
      EmptyThen(p, ParseLoop(p, b));
    } else {
      LoopTurn(p, a);
      var (o, n) := Turn(p, a);
      if n == 0 {
        EmptyThen(p, ParseLoop(p, a + b));
        assert p.(partial := a).(partial := []) == p;
      } else {
        TurnExtend(p, a, b);
        TurnKeepsPartial(p, a);
        LoopGoesOn(o.p, a[n..], b);
        LoopTurn(p, a + b);
        assert (a + b)[n..] == a[n..] + b;
        var q := ParseLoop(p, a).p;
        ActsThen(o, ParseLoop(o.p, a[n..]), ParseLoop(q.(partial := []), q.partial + b), p);
      }
    }
  }

  lemma EmptyThen(p: PState, o: Out)
    ensures Then(Out(p, []), o) == o
  {
  }

  lemma ActsThen(a: Out, b: Out, c: Out, p: PState)
    ensures Then(a, Then(Out(a.p, b.acts), c)) == Then(Out(p, Then(a, b).acts), c)
  {
  }

  // ---------------------------------------------------------------------------
  // The seam: the bytes held, and those the next call pulls in
  // ---------------------------------------------------------------------------

  function Seam(p: PState, b: seq<byte>): seq<byte> { p.partial + b[..Pull(p.partial, b)] }

  /** The bytes held are torn: the next call's first bytes do not continue them. */
  predicate Torn(p: PState, b: seq<byte>) { p.partial != [] && !PrefixOk(p.partial + b) }

  /** A torn seam ends at the first byte that does not belong. */
  lemma {:induction false} TornSeam(held: seq<byte>, b: seq<byte>)
    requires held != [] && Need(held[0]) > |held| && PrefixOk(held) && !PrefixOk(held + b)
    ensures var k := Pull(held, b);
      && 1 <= k <= |b| && !PrefixOk(held + b[..k]) && PrefixOk(held + b[..k - 1]) && |held| + k <= Need(held[0])
    decreases |b|
  {
    assert held + b[..0] == held && (b == [] ==> held + b == held);
    if b != [] {
      var next := held + [b[0]];
      assert next + b[1..] == held + b;
      assert b[..1] == [b[0]] && held + b[..0] == held;
      if !FullRune(next) {
        TornSeam(next, b[1..]);
        var j := Pull(next, b[1..]);
        assert held + b[..j + 1] == next + b[1..][..j];
        assert held + b[..j] == next + b[1..][..j - 1];
      } else if PrefixOk(next) {
        WholeOk(next, b[1..]);
        assert false;
      }
    }
  }

  lemma WholeOk(s: seq<byte>, more: seq<byte>)
    requires s != [] && |s| >= Need(s[0]) && PrefixOk(s)
    ensures PrefixOk(s + more)
  {
  }

  /** What it looks like: a lead byte, bytes that continue it, and one that does not. */
  lemma TornShape(h: seq<byte>)
    requires |h| >= 2 && Need(h[0]) >= |h| && !PrefixOk(h) && PrefixOk(h[..|h| - 1])
    ensures h[0] >= 0x80 && Decode(h) == (RUNE_ERROR, 1) && FullRune(h)
    ensures forall i :: 0 < i < |h| - 1 ==> Cont(h[i])
    ensures |h| == Need(h[0]) ==> |h| > 1
  {
    var g := h[..|h| - 1];
    assert forall i :: 0 <= i < |g| ==> g[i] == h[i];
  }

  /** The rune a stray byte decodes to on its own. */
  function Alone(x: byte): Rune { if x < 0x80 then x else RUNE_ERROR }

  lemma AloneIs(x: byte)
    ensures Decode([x]) == (Alone(x), 1)
  {
  }

  function Errors(n: nat): (acts: seq<Action>)
    ensures |acts| == n && forall i :: 0 <= i < n ==> acts[i] == Print(RUNE_ERROR)
  {
    seq(n, i => Print(RUNE_ERROR))
  }

  /** Two calls, in ground: every byte of the seam is printed as a rune. */
  lemma {:induction false} Shattered(q: PState, s: seq<byte>)
    requires q.state == Ground && s != [] && forall i :: 0 <= i < |s| - 1 ==> Cont(s[i])
    ensures FeedRunes(q, s) == Out(q, Errors(|s| - 1) + [Print(Alone(s[|s| - 1]))])
    decreases |s|
  {
    if |s| == 1 {
      AloneIs(s[0]);
      assert s == [s[0]] && s[1..] == [];
      hide Decode;
      assert Errors(0) == [];
    } else {
      assert Decode(s) == (RUNE_ERROR, 1);
      hide Decode;
      Shattered(q, s[1..]);
      assert [Print(RUNE_ERROR)] + (Errors(|s| - 2) + [Print(Alone(s[|s| - 1]))]) == Errors(|s| - 1) + [Print(Alone(s[|s| - 1]))];
    }
  }

  /** One call drops stray continuation bytes. */
  lemma {:induction false} StraysDropped(q: PState, s: seq<byte>, rest: seq<byte>)
    requires Decodes(q.state) && forall i :: 0 <= i < |s| ==> Cont(s[i])
    ensures ParseLoop(q, s + rest) == ParseLoop(q, rest)
    decreases |s|
  {
    hide ParseLoop;
    if s == [] {
      assert s + rest == rest;
    } else {
      StrayTurn(q, s + rest);
      LoopTurn(q, s + rest);
      assert (s + rest)[1..] == s[1..] + rest;
      StraysDropped(q, s[1..], rest);
      EmptyThen(q, ParseLoop(q, rest));
    }
  }

  lemma StrayTurn(q: PState, s: seq<byte>)
    requires Decodes(q.state) && s != [] && Cont(s[0])
    ensures Turn(q, s) == (Out(q, []), 1)
  {
  }

  /** One call, whatever it decodes: a torn sequence is dropped up to its last byte. */
  lemma TornDropped(q: PState, h: seq<byte>, rest: seq<byte>)
    requires Decodes(q.state) && |h| >= 2 && Need(h[0]) >= |h| && !PrefixOk(h) && PrefixOk(h[..|h| - 1])
    ensures ParseLoop(q, h + rest) == ParseLoop(q, [h[|h| - 1]] + rest)
  {
    hide ParseLoop, PrefixOk, Decode, FullRune;
    TornShape(h);
    HeadDropped(q, h, rest);
    LoopTurn(q, h + rest);
    EmptyThen(q, ParseLoop(q, (h + rest)[1..]));
    var conts := h[1..|h| - 1];
    assert (h + rest)[1..] == conts + ([h[|h| - 1]] + rest);
    StraysDropped(q, conts, [h[|h| - 1]] + rest);
  }

  lemma HeadDropped(q: PState, h: seq<byte>, rest: seq<byte>)
    requires Decodes(q.state) && h != [] && h[0] >= 0x80 && FullRune(h) && Decode(h) == (RUNE_ERROR, 1)
    ensures Turn(q, h + rest) == (Out(q, []), 1)
  {
    DecodeExtend(h, rest);
    assert FullRune(h + rest);
  }

  // ---------------------------------------------------------------------------
  // In ground
  // ---------------------------------------------------------------------------

  /** What two calls dispatch over a torn seam. */
  lemma TwoCalls(p: PState, b: seq<byte>)
    requires Pending(p) && p.state == Ground && Torn(p, b)
    ensures var k := Pull(p.partial, b); var h := Seam(p, b); var q := p.(partial := []);
      && 1 <= k <= |b| && |h| >= 2
      && Parse(p, b) == Then(Out(q, Errors(|h| - 1) + [Print(Alone(b[k - 1]))]), ParseLoop(q, b[k..]))
  {
    hide ParseLoop, PrefixOk, Decode, FullRune, Pull;
    TornSeam(p.partial, b);
    var k, h, q := Pull(p.partial, b), Seam(p, b), p.(partial := []);
    assert h[..|h| - 1] == p.partial + b[..k - 1];
    TornShape(h);
    assert h[|h| - 1] == b[k - 1] && h[1..] != [];
    Shattered(q, h[1..]);
    assert [Print(RUNE_ERROR)] + (Errors(|h| - 2) + [Print(Alone(b[k - 1]))]) == Errors(|h| - 1) + [Print(Alone(b[k - 1]))];
  }

  /** What one call dispatches instead: never as much, or never a control as text. */
  lemma OneCall(q: PState, x: byte, rest: seq<byte>)
    requires q.state == Ground && q.partial == []
    ensures var acts := ParseLoop(q, [x] + rest).acts;
      && (IsControl(x) ==> Print(x) !in acts)
      && (!IsControl(x) ==> |acts| <= 1 + |ParseLoop(q, rest).acts|)
  {
    hide ParseLoop;
    if IsControl(x) {
      LoopLive(q, INIT, [x] + rest);
      assert NoControls(INIT.osc);
      LoopClean(INIT, [x] + rest);
    } else {
      LoopTurn(q, [x] + rest);
      var (o, n) := Turn(q, [x] + rest);
      assert ([x] + rest)[1..] == rest;
      if x < 0x80 {
        assert (o, n) == (Out(q, [Print(x)]), 1);
      } else {
        LeadTurn(q, [x] + rest);
        if n > 1 {
          assert ([x] + rest)[n..] == rest[n - 1..] && rest == rest[..n - 1] + rest[n - 1..];
          StraysDropped(q, rest[..n - 1], rest[n - 1..]);
        }
      }
    }
  }

  lemma LeadTurn(q: PState, s: seq<byte>)
    requires q.state == Ground && s != [] && s[0] >= 0x80
    ensures var (o, n) := Turn(q, s);
      && o.p == q && (n <= 1 ==> o.acts == []) && (n > 1 ==> |o.acts| == 1)
      && n <= |s| && forall i :: 0 < i < n ==> Cont(s[i])
  {
  }

  /** In ground two calls see what one call sees if and only if the seam is not torn. */
  lemma SeamExactly(p: PState, b: seq<byte>)
    requires Pending(p) && p.state == Ground
    ensures Parse(p, b) == ParseLoop(p.(partial := []), p.partial + b) <==> !Torn(p, b)
  {
    hide ParseLoop, Parse, PrefixOk, Pull;
    if !Torn(p, b) {
      Resume(p, b);
    } else {
      var q, k, h := p.(partial := []), Pull(p.partial, b), Seam(p, b);
      TornSeam(p.partial, b);
      TwoCalls(p, b);
      assert h[..|h| - 1] == p.partial + b[..k - 1] && h + b[k..] == p.partial + b;
      TornDropped(q, h, b[k..]);
      OneCall(q, b[k - 1], b[k..]);
      var two, one := Parse(p, b).acts, ParseLoop(q, p.partial + b).acts;
      assert h[|h| - 1] == b[k - 1];
      if IsControl(b[k - 1]) {
        assert two[|h| - 1] == Print(b[k - 1]);
      } else {
        assert |two| == |h| + |ParseLoop(q, b[k..]).acts|;
      }
    }
  }

  // ---------------------------------------------------------------------------
  // One cut, and a list of them
  // ---------------------------------------------------------------------------

  /** The first call still completes nothing that was held before it. */
  predicate Carried(p: PState, a: seq<byte>) { p.partial != [] && !FullRune(Seam(p, a)) }

  /** The cut after `a`, before `b`, falls into a sequence begun in `a` that `b` does not continue. */
  predicate TornCut(p: PState, a: seq<byte>, b: seq<byte>) { !Carried(p, a) && Torn(Parse(p, a).p, b) }

  lemma {:induction false} PullOn(held: seq<byte>, a: seq<byte>, b: seq<byte>)
    requires held != [] && |held| < UTF_MAX && !FullRune(held + a[..Pull(held, a)])
    ensures Pull(held, a) == |a| && Pull(held, a + b) == |a| + Pull(held + a, b)
    decreases |a|
  {
    if a == [] {
      assert a + b == b && held + a == held;
    } else {
      var next := held + [a[0]];
      assert (a + b)[0] == a[0] && (a + b)[1..] == a[1..] + b && next + a[1..] == held + a;
      assert a[..1] == [a[0]];
      if !FullRune(next) {
        var j := Pull(next, a[1..]);
        assert held + a[..j + 1] == next + a[1..][..j];
        PullOn(next, a[1..], b);
      }
    }
  }

  lemma CarriedOn(p: PState, a: seq<byte>, b: seq<byte>)
    requires Pending(p) && Carried(p, a)
    ensures Parse(p, a + b) == Then(Parse(p, a), Parse(Parse(p, a).p, b))
  {
    hide FullRune, Pull;
    PullOn(p.partial, a, b);
    var k := Pull(p.partial + a, b);
    var q := p.(partial := p.partial + a);
    assert a[..|a|] == a && p.partial + (a + b)[..|a| + k] == p.partial + a + b[..k];
    assert Parse(p, a) == Out(q, []);
    EmptyThen(p, Parse(q, b));
    assert (a + b)[|a| + k..] == b[k..];
    assert q.(partial := []) == p.(partial := []);
  }

  lemma {:induction false} PullWithin(held: seq<byte>, a: seq<byte>, b: seq<byte>)
    requires held != [] && !FullRune(held) && FullRune(held + a[..Pull(held, a)])
    ensures Pull(held, a + b) == Pull(held, a)
    decreases |a|
  {
    assert held + a[..0] == held;
    if a != [] {
      var next := held + [a[0]];
      assert (a + b)[0] == a[0] && (a + b)[1..] == a[1..] + b;
      if |held| < UTF_MAX && !FullRune(next) {
        var j := Pull(next, a[1..]);
        assert held + a[..j + 1] == next + a[1..][..j];
        PullWithin(next, a[1..], b);
      }
    }
  }

  /** A call that completes what was held goes on as one that held nothing. */
  lemma CompletedOn(p: PState, a: seq<byte>, b: seq<byte>) returns (o: Out, k: nat)
    requires Pending(p) && !Carried(p, a)
    ensures k <= |a| && o.p.partial == [] && Parse(p, a) == Then(o, ParseLoop(o.p, a[k..])) && Parse(p, a + b) == Then(o, ParseLoop(o.p, a[k..] + b))
  {
    hide FullRune, Pull, ParseLoop, FeedRunes, Decode;
    if p.partial == [] {
      o, k := Out(p, []), 0;
      assert a[0..] == a;
      EmptyThen(p, ParseLoop(p, a));
      EmptyThen(p, ParseLoop(p, a + b));
    } else {
      PendingHeld(p);
      PullWithin(p.partial, a, b);
      k := Pull(p.partial, a);
      assert (a + b)[..k] == a[..k] && (a + b)[k..] == a[k..] + b;
      var held := p.partial + a[..k];
      var (r, size) := Decode(held);
      var o1 := FeedRune(p.(partial := []), r);
      o := Then(o1, FeedRunes(o1.p, held[size..]));
      RunesKeepPartial(o1.p, held[size..]);
    }
  }

  lemma PendingHeld(p: PState)
    requires Pending(p) && p.partial != []
    ensures !FullRune(p.partial) && |p.partial| < UTF_MAX
  {
  }

  lemma {:induction false} RunesKeepPartial(p: PState, s: seq<byte>)
    requires p.partial == []
    ensures FeedRunes(p, s).p.partial == []
    decreases |s|
  {
    hide Decode;
    if s != [] {
      RunesKeepPartial(FeedRune(p, Decode(s).0).p, s[Decode(s).1..]);
    }
  }

  /** One cut: two calls see what one call sees if and only if the first call's
      seam is whole in one call too. */
  lemma CutIsSeam(p: PState, a: seq<byte>, b: seq<byte>)
    requires Pending(p) && !Carried(p, a)
    ensures var q := Parse(p, a).p;
      && Pending(q)
      && (Parse(p, a + b) == Then(Parse(p, a), Parse(q, b)) <==> Parse(q, b) == ParseLoop(q.(partial := []), q.partial + b))
  {
    hide ParseLoop, Parse, Carried;
    var o, k := CompletedOn(p, a, b);
    LoopGoesOn(o.p, a[k..], b);
    LoopPending(o.p, a[k..]);
    var q := Parse(p, a).p;
    var l, one := ParseLoop(o.p, a[k..]), ParseLoop(q.(partial := []), q.partial + b);
    assert Parse(p, a + b) == Then(o, Then(Out(o.p, l.acts), one));
    SameStart(o, l, one, Parse(q, b));
  }

  lemma SameStart(o: Out, l: Out, one: Out, two: Out)
    ensures Then(o, Then(Out(o.p, l.acts), one)) == Then(Then(o, l), two) <==> one == two
  {
    var s := o.acts + l.acts;
    assert o.acts + (l.acts + one.acts) == s + one.acts;
    if s + one.acts == s + two.acts {
      assert (s + one.acts)[|s|..] == one.acts && (s + two.acts)[|s|..] == two.acts;
    }
  }

  /** Chunk independence of one cut, exactly: unless the rune cut in two is torn. */
  lemma CutExactly(p: PState, a: seq<byte>, b: seq<byte>)
    requires Pending(p) && (Parse(p, a).p.partial == [] || Parse(p, a).p.state == Ground)
    ensures Parse(p, a + b) == Then(Parse(p, a), Parse(Parse(p, a).p, b)) <==> !TornCut(p, a, b)
  {
    hide ParseLoop, Parse, PrefixOk, Carried;
    if Carried(p, a) {
      CarriedOn(p, a, b);
    } else {
      CutIsSeam(p, a, b);
      if Parse(p, a).p.partial == [] {
        Resume(Parse(p, a).p, b);
      } else {
        SeamExactly(Parse(p, a).p, b);
      }
    }
  }

  /** Every run of calls from some call on sees what one call would see. */
  predicate CutsIrrelevant(p: PState, chunks: seq<seq<byte>>)
    decreases |chunks|
  {
    && ParseAll(p, chunks) == Parse(p, Flatten(chunks))
    && (chunks != [] ==> CutsIrrelevant(Parse(p, chunks[0]).p, chunks[1..]))
  }

  /** No call ends inside a sequence that the later ones leave torn. */
  predicate NoTornCut(p: PState, chunks: seq<seq<byte>>)
    decreases |chunks|
  {
    chunks != [] ==> !TornCut(p, chunks[0], Flatten(chunks[1..])) && NoTornCut(Parse(p, chunks[0]).p, chunks[1..])
  }

  /** Runes are cut in ground only, not inside a string. */
  predicate CutsInGround(p: PState, chunks: seq<seq<byte>>)
    decreases |chunks|
  {
    chunks != [] ==>
      var q := Parse(p, chunks[0]).p;
      (q.partial == [] || q.state == Ground) && CutsInGround(q, chunks[1..])
  }

  /** Chunk independence of a list of calls, exactly: bytes that are torn inside
      one call do no harm, only a cut that tears a sequence does. */
  lemma {:induction false} ChunkingExactly(p: PState, chunks: seq<seq<byte>>)
    requires Pending(p) && CutsInGround(p, chunks)
    ensures CutsIrrelevant(p, chunks) <==> NoTornCut(p, chunks)
    decreases |chunks|
  {
    hide Parse, TornCut;
    if chunks == [] {
      ParseNothing(p);
    } else {
      var q := Parse(p, chunks[0]).p;
      StillPending(p, chunks[0]);
      ChunkingExactly(q, chunks[1..]);
      CutExactly(p, chunks[0], Flatten(chunks[1..]));
    }
  }

  lemma StillPending(p: PState, a: seq<byte>)
    requires Pending(p)
    ensures Pending(Parse(p, a).p)
  {
    hide ParseLoop, Parse, Carried;
    if Carried(p, a) {
      CarriedPending(p, a);
    } else {
      CutIsSeam(p, a, []);
    }
  }

  lemma CarriedPending(p: PState, a: seq<byte>)
    requires Pending(p) && Carried(p, a)
    ensures Pending(Parse(p, a).p)
  {
    hide Pull;
    PendingHeld(p);
    PullOn(p.partial, a, []);
    assert a[..|a|] == a;
    assert (p.partial + a)[0] == p.partial[0];
  }

  /** In every state a cut that tears nothing does no harm. */
  lemma {:induction false} ChunkingHolds(p: PState, chunks: seq<seq<byte>>)
    requires Pending(p) && NoTornCut(p, chunks)
    ensures CutsIrrelevant(p, chunks)
    decreases |chunks|
  {
    hide Parse, ParseLoop, PrefixOk, Carried;
    if chunks == [] {
      ParseNothing(p);
    } else {
      var q, rest := Parse(p, chunks[0]).p, Flatten(chunks[1..]);
      StillPending(p, chunks[0]);
      ChunkingHolds(q, chunks[1..]);
      if Carried(p, chunks[0]) {
        CarriedOn(p, chunks[0], rest);
      } else {
        CutIsSeam(p, chunks[0], rest);
        Resume(q, rest);
      }
    }
  }

  // ---------------------------------------------------------------------------
  // Inside strings
  // ---------------------------------------------------------------------------

  /** Two calls put the bytes of a torn seam into an OSC string as runes, while there is room. */
  lemma {:induction false} RunesStored(q: PState, s: seq<byte>)
    requires q.state == Osc || q.state == Str
    ensures var o := FeedRunes(q, s);
      && o.acts == [] && o.p.(osc := q.osc) == q && |o.p.osc| >= |q.osc|
      && (q.state == Str || |q.osc| >= MAX_OSC_BYTES ==> o.p == q)
    decreases |s|
  {
    hide Decode;
    if s != [] {
      RunesStored(FeedRune(q, Decode(s).0).p, s[Decode(s).1..]);
    }
  }

  lemma TwoStored(p: PState, b: seq<byte>)
    requires Pending(p) && (p.state == Osc || p.state == Str) && Torn(p, b)
    ensures Pull(p.partial, b) >= 1 && |b| >= 1
    ensures Pull(p.partial, b) == |b| ==> var q, o := p.(partial := []), Parse(p, b);
      && o.acts == [] && o.p.(osc := q.osc) == q
      && (p.state == Str || |q.osc| >= MAX_OSC_BYTES ==> o.p == q)
      && (p.state == Osc && |q.osc| < MAX_OSC_BYTES ==> |o.p.osc| >= |q.osc| + 3)
  {
    hide ParseLoop, PrefixOk, Decode, FullRune, Pull;
    TornSeam(p.partial, b);
    var k, h, q := Pull(p.partial, b), Seam(p, b), p.(partial := []);
    assert h[..|h| - 1] == p.partial + b[..k - 1];
    TornShape(h);
    if k == |b| {
      var o := FeedRune(q, RUNE_ERROR);
      RunesStored(o.p, h[1..]);
      assert |Encode(RUNE_ERROR)| == 3;
      assert b[k..] == [];
      LoopNil(FeedRunes(o.p, h[1..]).p, o);
    }
  }

  /** One call gives the string only the last byte of it. */
  lemma LastInString(q: PState, x: byte)
    requires (q.state == Osc || q.state == Str) && q.partial == []
    ensures var o := ParseLoop(q, [x]);
      && |o.p.osc| <= |q.osc| + 1
      && (o == Out(q, []) <==> (q.state == Osc ==> x != BEL && (IsControl(x) || x >= 0x80 || |q.osc| >= MAX_OSC_BYTES)) && x != ESC && FullRune([x]))
  {
    hide ParseLoop;
    LoopTurn(q, [x]);
    AloneIs(x);
    var (o, n) := Turn(q, [x]);
    assert n == 1 ==> [x][n..] == [];
    LoopNil(o.p, o);
  }

  /** What a byte that tears a rune would do is lost anyway: the string is full, or not
      kept at all, and the byte neither ends it nor begins another rune. */
  predicate Lost(p: PState, x: byte) {
    (p.state == Osc ==> |p.osc| >= MAX_OSC_BYTES && x != BEL) && x != ESC && FullRune([x])
  }

  /** A call that ends at the seam. */
  lemma SeamAlone(p: PState, b: seq<byte>)
    requires Pending(p) && (p.state == Osc || p.state == Str) && Torn(p, b) && Pull(p.partial, b) == |b|
    ensures b != [] && var q := p.(partial := []); var x := b[|b| - 1];
      && (Parse(p, b) == ParseLoop(q, p.partial + b) <==> Lost(p, x))
      && (Lost(p, x) ==> Parse(p, b) == Out(q, []))
  {
    hide ParseLoop, Parse, PrefixOk, Pull, Decode;
    var q, h := p.(partial := []), Seam(p, b);
    TornSeam(p.partial, b);
    var x := b[|b| - 1];
    assert b[..|b|] == b && h[..|h| - 1] == p.partial + b[..|b| - 1] && h[|h| - 1] == x;
    TwoStored(p, b);
    TornDropped(q, h, []);
    assert h + [] == p.partial + b && [x] + [] == [x];
    LastInString(q, x);
  }

  /** A byte that is lost leaves what follows it as it was. */
  lemma LostInString(q: PState, x: byte, rest: seq<byte>)
    requires (q.state == Osc || q.state == Str) && q.partial == [] && Lost(q, x)
    ensures ParseLoop(q, [x] + rest) == ParseLoop(q, rest)
  {
    hide ParseLoop;
    AloneIs(x);
    LoopTurn(q, [x] + rest);
    assert ([x] + rest)[1..] == rest;
    LoopNil(q, ParseLoop(q, rest));
    assert Turn(q, [x] + rest) == (Out(q, []), 1);
  }

  /** A longer call goes on from the seam. */
  lemma SeamThen(p: PState, b: seq<byte>, rest: seq<byte>)
    requires Pending(p) && Torn(p, b) && Pull(p.partial, b) == |b|
    ensures Parse(p, b + rest) == Then(Parse(p, b), ParseLoop(Parse(p, b).p, rest))
  {
    hide ParseLoop, PrefixOk, Decode, FullRune, Pull, FeedRune, FeedRunes;
    TornSeam(p.partial, b);
    var k, h := |b|, Seam(p, b);
    assert h == p.partial + b && h[..|h| - 1] == p.partial + b[..k - 1];
    TornShape(h);
    HeldShort(p);
    PullWithin(p.partial, b, rest);
    assert (b + rest)[..k] == b[..k] == b && (b + rest)[k..] == rest && b[k..] == [];
    var o := FeedRune(p.(partial := []), Decode(h).0);
    var o' := Then(o, FeedRunes(o.p, h[Decode(h).1..]));
    LoopNil(o'.p, o');
    assert Then(o', Out(o'.p, [])) == o';
  }

  lemma HeldShort(p: PState)
    requires Pending(p) && p.partial != []
    ensures !FullRune(p.partial)
  {
  }

  /** Inside a string a torn cut does no harm, whatever the next call goes on with,
      exactly when what is torn is lost anyway. */
  lemma SeamInString(p: PState, b: seq<byte>)
    requires Pending(p) && (p.state == Osc || p.state == Str) && Torn(p, b) && Pull(p.partial, b) == |b|
    ensures b != [] && (Lost(p, b[|b| - 1]) <==>
      forall rest :: Parse(p, b + rest) == ParseLoop(p.(partial := []), p.partial + (b + rest)))
  {
    hide ParseLoop, Parse, PrefixOk, Pull, Decode, Lost;
    var q, h := p.(partial := []), Seam(p, b);
    SeamAlone(p, b);
    TornSeam(p.partial, b);
    var x := b[|b| - 1];
    assert b[..|b|] == b && h[..|h| - 1] == p.partial + b[..|b| - 1] && h[|h| - 1] == x;
    if Lost(p, x) {
      assert Lost(q, x) by {
        LostAlike(p, q, x);
      }
      forall rest ensures Parse(p, b + rest) == ParseLoop(q, p.partial + (b + rest)) {
        SeamThen(p, b, rest);
        LoopNil(q, ParseLoop(q, rest));
        TornDropped(q, h, rest);
        LostInString(q, x, rest);
        assert h + rest == p.partial + (b + rest);
      }
    } else {
      assert b + [] == b;
      assert Parse(p, b + []) != ParseLoop(q, p.partial + (b + []));
    }
  }

  lemma LostAlike(p: PState, q: PState, x: byte)
    requires q.state == p.state && q.osc == p.osc
    ensures Lost(p, x) <==> Lost(q, x)
  {
  }

  // ---------------------------------------------------------------------------
  // Being in step
  // ---------------------------------------------------------------------------

  const LETTER: seq<byte> := ['m' as int]

  /** A parser dispatches what a fresh one dispatches, over all later output, if and
      only if it is between sequences. */
  lemma InStepExactly(p: PState)
    requires Pending(p)
    ensures p.partial == [] && p.state == Ground <==> forall more: seq<byte> :: Parse(p, more).acts == Parse(INIT, more).acts
  {
    hide Parse, ParseLoop;
    if p.partial == [] && p.state == Ground {
      forall more: seq<byte> ensures Parse(p, more).acts == Parse(INIT, more).acts {
        LoopLive(p, INIT, more);
        ParseFresh(p, more);
        ParseFresh(INIT, more);
      }
    } else {
      LetterFresh(INIT);
      if p.partial == [] {
        LetterFresh(p);
      } else {
        LetterHeld(p);
      }
      assert Parse(p, LETTER).acts != Parse(INIT, LETTER).acts;
    }
  }

  /** Only in ground is a letter printed. */
  lemma LetterFresh(p: PState)
    requires p.partial == []
    ensures Parse(p, LETTER).acts == [Print('m' as int)] <==> p.state == Ground
  {
    var o := FeedByte(p, 'm' as int);
    assert o.acts == [Print('m' as int)] <==> p.state == Ground;
    hide ParseLoop, FeedByte;
    ParseFresh(p, LETTER);
    LoopTurn(p, LETTER);
    assert Turn(p, LETTER) == (o, 1);
    assert LETTER[1..] == [];
    LoopNil(o.p, o);
  }

  lemma LetterHeld(p: PState)
    requires Pending(p) && p.partial != []
    ensures Parse(p, LETTER).acts != [Print('m' as int)]
  {
    hide ParseLoop, Parse, Pull;
    TearsHeld(p, LETTER);
    if p.state == Ground {
      TwoCalls(p, LETTER);
    } else {
      TornSeam(p.partial, LETTER);
      TwoStored(p, LETTER);
    }
  }

  /** An ASCII byte continues no rune. */
  lemma TearsHeld(p: PState, b: seq<byte>)
    requires Pending(p) && p.partial != [] && b != [] && b[0] < 0x80
    ensures Torn(p, b)
  {
    assert (p.partial + b)[|p.partial|] == b[0];
    assert forall i :: 0 <= i < |p.partial| ==> (p.partial + b)[i] == p.partial[i];
  }
}
