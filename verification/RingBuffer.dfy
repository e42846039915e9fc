/** The byte history of a session: a circular buffer, and where a replay of it
    may start. */
module RingBuffer {
  import opened Utf8
  import opened Parser
  import opened Resync
  import opened Cuts

  datatype Ring = Ring(buf: seq<byte>, pos: nat, full: bool)

  predicate RingOk(r: Ring) { if |r.buf| == 0 then r.pos == 0 else r.pos < |r.buf| }

  /** The buffer with `data` stored from `at` on. */
  function Overlay(buf: seq<byte>, at: nat, data: seq<byte>): (s: seq<byte>)
    requires at + |data| <= |buf|
    ensures |s| == |buf|
  {
    buf[..at] + data + buf[at + |data|..]
  }

  function WriteRing(r: Ring, p: seq<byte>): (r': Ring)
    requires RingOk(r)
    ensures RingOk(r') && |r'.buf| == |r.buf|
  {
    var n, size := |p|, |r.buf|;
    if n >= size then Ring(p[n - size..], 0, true)
    else
      var space := size - r.pos;
      if n <= space then Ring(Overlay(r.buf, r.pos, p), (r.pos + n) % size, r.full)
      else Ring(Overlay(Overlay(r.buf, r.pos, p[..space]), 0, p[space..]), (r.pos + n) % size, true)
  }

  /** What ReadAll returns, oldest first. */
  function Contents(r: Ring): seq<byte>
    requires RingOk(r)
  {
    if r.full then r.buf[r.pos..] + r.buf[..r.pos] else r.buf[..r.pos]
  }

  function LoadRing(r: Ring, data: seq<byte>): (r': Ring)
    requires RingOk(r)
    ensures RingOk(r') && |r'.buf| == |r.buf|
  {
    var size := |r.buf|;
    if |data| >= size then Ring(data[|data| - size..], 0, true)
    else Ring(Overlay(r.buf, 0, data), |data|, false)
  }

  function WriteRings(r: Ring, ps: seq<seq<byte>>): (r': Ring)
    requires RingOk(r)
    ensures RingOk(r') && |r'.buf| == |r.buf|
    decreases |ps|
  {
    if ps == [] then r else WriteRing(WriteRings(r, ps[..|ps| - 1]), ps[|ps| - 1])
  }

  function EmptyRing(size: nat): (r: Ring)
    ensures RingOk(r) && |r.buf| == size
  {
    Ring(seq(size, i => 0), 0, false)
  }

  // ---------------------------------------------------------------------------
  // The last N bytes
  // ---------------------------------------------------------------------------

  function Stream(ps: seq<seq<byte>>): seq<byte> {
    if ps == [] then [] else Stream(ps[..|ps| - 1]) + ps[|ps| - 1]
  }

  function Last(s: seq<byte>, n: nat): seq<byte> { if |s| <= n then s else s[|s| - n..] }

  /** Some write filled the buffer by itself or ran over its end. A write that
      ends exactly at the end does not count. */
  predicate Wrapped(ps: seq<seq<byte>>, size: nat)
    requires size > 0
  {
    ps != []
    && (Wrapped(ps[..|ps| - 1], size)
        || |ps[|ps| - 1]| >= size
        || |Stream(ps[..|ps| - 1])| % size + |ps[|ps| - 1]| > size)
  }

  /** The buffer from its write position round to it again. */
  function Rotated(r: Ring): seq<byte>
    requires RingOk(r)
  {
    r.buf[r.pos..] + r.buf[..r.pos]
  }

  /** The buffer holds the end of the stream, whatever the flag says. */
  predicate Holds(r: Ring, s: seq<byte>) {
    && RingOk(r)
    && (if |s| < |r.buf| then r.pos == |s| && !r.full && r.buf[..r.pos] == s else Rotated(r) == Last(s, |r.buf|))
    && (!r.full && |r.buf| > 0 ==> r.pos == |s| % |r.buf|)
  }

  lemma Modulo(pos: nat, n: nat, size: nat)
    requires pos < size && n < size
    ensures (pos + n) % size == if pos + n < size then pos + n else pos + n - size
  {
  }

  lemma ModuloUnique(x: nat, k: nat, r: nat, size: nat)
    requires size > 0 && x == k * size + r && r < size
    ensures x % size == r
  {
    var d := x / size - k;
    assert d * size == r - x % size;
    Multiples(d, size);
  }

  lemma Multiples(d: int, size: nat)
    ensures d >= 1 ==> d * size >= size
    ensures d <= -1 ==> d * size + size <= 0
  {
    if d >= 1 {
      assert (d - 1) * size >= 0;
    } else if d <= -1 {
      assert (-1 - d) * size >= 0;
    }
  }

  lemma ModuloShift(a: nat, n: nat, size: nat)
    requires size > 0
    ensures (a + n) % size == (a % size + n) % size
  {
    var q, m := a / size, a % size + n;
    assert (q + m / size) * size == q * size + (m / size) * size;
    ModuloUnique(a + n, q + m / size, m % size, size);
  }

  lemma LastAppend(s: seq<byte>, p: seq<byte>, n: nat)
    requires |s| >= n && |p| <= n
    ensures Last(s + p, n) == Last(s, n)[|p|..] + p
  {
  }

  /** The buffer after a short write that does not run over the end. */
  lemma ShortWrite(r: Ring, p: seq<byte>)
    requires RingOk(r) && 0 < |r.buf| && |p| < |r.buf| && |p| <= |r.buf| - r.pos
    ensures var r' := WriteRing(r, p); var end := r.pos + |p|;
      && r'.pos == (if end < |r.buf| then end else 0) && r'.pos == (r.pos + |p|) % |r.buf|
      && r'.buf == r.buf[..r.pos] + p + r.buf[end..] && r'.full == r.full
  {
    Modulo(r.pos, |p|, |r.buf|);
  }

  lemma ShortRotated(r: Ring, s: seq<byte>, p: seq<byte>)
    requires RingOk(r) && 0 < |r.buf| <= |s| && |p| < |r.buf| && |p| <= |r.buf| - r.pos
    requires Rotated(r) == Last(s, |r.buf|)
    ensures Rotated(WriteRing(r, p)) == Last(s + p, |r.buf|)
  {
    hide WriteRing, Last;
    var n, size := |p|, |r.buf|;
    var r' := WriteRing(r, p);
    ShortWrite(r, p);
    LastAppend(s, p, size);
    assert Rotated(r)[n..] == r.buf[r.pos + n..] + r.buf[..r.pos];
    if r.pos + n < size {
      assert r'.buf[r'.pos..] == r.buf[r.pos + n..];
      assert r'.buf[..r'.pos] == r.buf[..r.pos] + p;
    }
  }

  /** A short write that does not run over the end. */
  lemma ShortHolds(r: Ring, s: seq<byte>, p: seq<byte>)
    requires Holds(r, s) && 0 < |r.buf| && |p| < |r.buf| && |p| <= |r.buf| - r.pos
    ensures Holds(WriteRing(r, p), s + p)
  {
    hide WriteRing, Last;
    var r' := WriteRing(r, p);
    ShortWrite(r, p);
    ModuloShift(|s|, |p|, |r.buf|);
    if |s| >= |r.buf| {
      ShortRotated(r, s, p);
    } else if |s| + |p| < |r.buf| {
      assert r'.buf[..r'.pos] == s + p;
    } else {
      assert Rotated(r') == s + p;
      LastWhole(s + p);
    }
  }

  lemma LastWhole(s: seq<byte>)
    ensures Last(s, |s|) == s
  {
  }

  /** A short write that runs over the end. */
  lemma WrapHolds(r: Ring, s: seq<byte>, p: seq<byte>)
    requires Holds(r, s) && 0 < |r.buf| && |p| < |r.buf| && |p| > |r.buf| - r.pos
    ensures Holds(WriteRing(r, p), s + p)
  {
    var n, size := |p|, |r.buf|;
    var space := size - r.pos;
    var r' := WriteRing(r, p);
    Modulo(r.pos, n, size);
    assert Rotated(r') == r.buf[n - space..r.pos] + p;
    if |s| >= size {
      LastAppend(s, p, size);
      assert Rotated(r)[n..] == r.buf[n - space..r.pos];
    } else {
      assert Last(s + p, size) == s[n - space..] + p;
    }
  }

  lemma WriteHolds(r: Ring, s: seq<byte>, p: seq<byte>)
    requires Holds(r, s)
    ensures Holds(WriteRing(r, p), s + p)
  {
    hide Holds;
    if |p| >= |r.buf| {
      BigHolds(r, s, p);
    } else {
      HoldsOk(r, s);
      if |p| <= |r.buf| - r.pos {
        ShortHolds(r, s, p);
      } else {
        WrapHolds(r, s, p);
      }
    }
  }

  lemma HoldsOk(r: Ring, s: seq<byte>)
    requires Holds(r, s)
    ensures RingOk(r)
  {
  }

  lemma BigHolds(r: Ring, s: seq<byte>, p: seq<byte>)
    requires Holds(r, s) && |p| >= |r.buf|
    ensures Holds(WriteRing(r, p), s + p)
  {
    var r' := WriteRing(r, p);
    assert Rotated(r') == p[|p| - |r.buf|..] == Last(s + p, |r.buf|);
  }

  /** After any writes the buffer holds the end of the stream, and the flag says
      whether a write wrapped. */
  lemma {:induction false} WritesHold(size: nat, ps: seq<seq<byte>>)
    ensures var r := WriteRings(EmptyRing(size), ps);
      Holds(r, Stream(ps)) && (size > 0 ==> r.full == Wrapped(ps, size))
    decreases |ps|
  {
    hide Holds, WriteRing;
    if ps == [] {
      EmptyHolds(size);
    } else {
      var front, p := ps[..|ps| - 1], ps[|ps| - 1];
      WritesHold(size, front);
      var r := WriteRings(EmptyRing(size), front);
      WriteHolds(r, Stream(front), p);
      if size > 0 {
        FullWhen(r, Stream(front), p);
      }
    }
  }

  lemma EmptyHolds(size: nat)
    ensures Holds(EmptyRing(size), [])
  {
  }

  lemma FullWhen(r: Ring, s: seq<byte>, p: seq<byte>)
    requires Holds(r, s) && |r.buf| > 0
    ensures WriteRing(r, p).full == (r.full || |p| >= |r.buf| || |s| % |r.buf| + |p| > |r.buf|)
  {
  }

  /** The ring is the last N bytes, exactly: after any writes ReadAll returns the
      last min(total, N) bytes if and only if fewer than N were written, or some
      write filled the buffer or ran over its end. When every write stopped short
      of the end or ended exactly at it, the buffer's bytes are all there but
      ReadAll returns fewer. */
  lemma RingIsLast(size: nat, ps: seq<seq<byte>>)
    ensures var r := WriteRings(EmptyRing(size), ps);
      Contents(r) == Last(Stream(ps), size) <==> size == 0 || |Stream(ps)| < size || Wrapped(ps, size)
  {
    hide WriteRings, Stream, Wrapped;
    WritesHold(size, ps);
    var s := Stream(ps);
    var r := WriteRings(EmptyRing(size), ps);
    if !r.full && |s| >= size && size > 0 {
      assert |Contents(r)| == r.pos < size == |Last(s, size)|;
    }
  }

  /** Two writes that together fill a buffer of four bytes leave nothing to read. */
  lemma LandingLosesAll()
    ensures var r := WriteRings(EmptyRing(4), [[1, 2], [3, 4]]);
      Contents(r) == [] && Last(Stream([[1, 2], [3, 4]]), 4) == [1, 2, 3, 4]
  {
    hide WriteRing;
    var one: seq<seq<byte>> := [[1, 2]];
    var two: seq<seq<byte>> := [[1, 2], [3, 4]];
    LandingSteps();
    assert one[..0] == [] && two[..1] == one;
    assert WriteRings(EmptyRing(4), one) == WriteRing(WriteRings(EmptyRing(4), []), [1, 2]);
    assert Stream(one) == Stream([]) + [1, 2];
  }

  lemma LandingSteps()
    ensures WriteRing(EmptyRing(4), [1, 2]) == Ring([1, 2, 0, 0], 2, false)
    ensures WriteRing(Ring([1, 2, 0, 0], 2, false), [3, 4]) == Ring([1, 2, 3, 4], 0, false)
  {
  }

  /** Saved contents loaded at the same capacity restore contents and flag. */
  lemma LoadRestores(r: Ring, fresh0: Ring)
    requires RingOk(r) && RingOk(fresh0) && |fresh0.buf| == |r.buf|
    ensures var l := LoadRing(fresh0, Contents(r));
      Contents(l) == Contents(r) && l.full == (r.full || |r.buf| == 0)
  {
  }

  // ---------------------------------------------------------------------------
  // Where a replay may start
  // ---------------------------------------------------------------------------

  /** The first position from i on that holds b, or the length. */
  function IndexFrom(data: seq<byte>, i: nat, b: byte): (k: nat)
    requires i <= |data|
    ensures i <= k <= |data| && (k < |data| ==> data[k] == b)
    ensures forall j :: i <= j < k ==> data[j] != b
    decreases |data| - i
  {
    if i == |data| || data[i] == b then i else IndexFrom(data, i + 1, b)
  }

  /** The continuation bytes at the head, cut from their rune. */
  function Strays(data: seq<byte>): (i: nat)
    ensures i <= |data| && (forall j :: 0 <= j < i ==> Cont(data[j])) && (i < |data| ==> !Cont(data[i]))
  {
    if data == [] || !Cont(data[0]) then 0 else 1 + Strays(data[1..])
  }

  /** Where a wrapped dump is cut: at the first escape character, else behind the
      first newline, else behind stray continuation bytes. */
  function CleanAt(data: seq<byte>): (k: nat)
    ensures k <= |data|
  {
    var i := Strays(data);
    var esc := IndexFrom(data, i, ESC);
    var nl := IndexFrom(data, i, 0x0a);
    if esc < |data| then esc else if nl < |data| then nl + 1 else i
  }

  function CleanStart(data: seq<byte>, wrapped: bool): seq<byte> {
    if !wrapped then data else data[CleanAt(data)..]
  }

  method CleanReplayStart(data: seq<byte>, wrapped: bool) returns (kept: seq<byte>)
    ensures kept == CleanStart(data, wrapped)
  {
    if !wrapped || |data| == 0 {
      assert data[..] == data;
      return data;
    }
    var i := 0;
    while i < |data| && data[i] / 0x40 == 2
      invariant 0 <= i <= |data| && Strays(data) == i + Strays(data[i..])
    {
      assert data[i..][1..] == data[i + 1..];
      i := i + 1;
    }
    assert Strays(data) == i by {
      StraysDone(data[i..]);
    }
    var esc := IndexByte(data, i, ESC);
    if esc < |data| {
      return data[esc..];
    }
    var nl := IndexByte(data, i, 0x0a);
    if nl < |data| {
      return data[nl + 1..];
    }
    return data[i..];
  }

  lemma StraysDone(data: seq<byte>)
    requires data == [] || !Cont(data[0])
    ensures Strays(data) == 0
  {
  }

  method IndexByte(data: seq<byte>, i: nat, b: byte) returns (k: nat)
    requires i <= |data|
    ensures k == IndexFrom(data, i, b)
  {
    k := i;
    while k < |data| && data[k] != b
      invariant i <= k <= |data| && IndexFrom(data, i, b) == IndexFrom(data, k, b)
    {
      k := k + 1;
    }
  }

  /** Replaying a wrapped ring tracks the whole history: when the cut is at an
      escape character that a byte that settles follows, a fresh parser
      fed the kept part ends in agreement with the parser that saw everything,
      and dispatches the same actions but for at most one at the cut. */
  lemma ReplayFollows(lost: seq<byte>, data: seq<byte>)
      returns (whole: seq<Action>, alone: seq<Action>, common: seq<Action>)
    requires NoTorn(lost + data)
    requires var k := CleanAt(data); k + 1 < |data| && data[k] == ESC && Settles(data[k + 1])
    ensures var kept := CleanStart(data, true);
      && ParseLoop(INIT, lost + data).acts == whole + common
      && ParseLoop(INIT, kept).acts == alone + common && |alone| <= 1
      && LiveEq(ParseLoop(INIT, lost + data).p, ParseLoop(INIT, kept).p)
  {
    hide ParseLoop, NoTorn, CleanAt, LiveEq;
    var k := CleanAt(data);
    assert lost + data == (lost + data[..k]) + data[k..];
    whole, alone, common := ReplayTracks(INIT, lost + data[..k], data[k..]);
  }

  /** Wherever the cut is, behind a newline or at the head: a fresh parser fed the
      kept part does what the parser that saw everything does, whatever the kept
      part is, if and only if that one is between sequences at the cut. */
  lemma FallbackFollows(lost: seq<byte>, data: seq<byte>)
    ensures var cut := ParseLoop(INIT, lost + data[..CleanAt(data)]).p;
      cut.partial == [] && cut.state == Ground <==> forall kept: seq<byte> :: Parse(cut, kept).acts == Parse(INIT, kept).acts
  {
    hide ParseLoop, CleanAt, Parse;
    LoopPending(INIT, lost + data[..CleanAt(data)]);
    InStepExactly(ParseLoop(INIT, lost + data[..CleanAt(data)]).p);
  }

  // ---------------------------------------------------------------------------
  // The buffer in place
  // ---------------------------------------------------------------------------

  lemma OverlayNext(buf: seq<byte>, at: nat, data: seq<byte>, k: nat)
    requires at + |data| <= |buf| && k < |data|
    ensures Overlay(buf, at, data[..k + 1]) == Overlay(buf, at, data[..k])[at + k := data[k]]
  {
  }

  /** Go's copy: as much of `data` as fits from `at` on. */
  method CopyInto(buf: array<byte>, at: nat, data: seq<byte>)
    requires at + |data| <= buf.Length
    modifies buf
    ensures buf[..] == Overlay(old(buf[..]), at, data)
  {
    ghost var was := buf[..];
    assert Overlay(was, at, data[..0]) == was;
    for k := 0 to |data|
      invariant buf[..] == Overlay(was, at, data[..k])
    {
      hide Overlay;
      OverlayNext(was, at, data, k);
      buf[at + k] := data[k];
    }
    assert data[..|data|] == data;
  }

  class Buffer {
    const buf: array<byte>
    var pos: nat
    var full: bool

    function View(): Ring
      reads this, buf
    {
      Ring(buf[..], pos, full)
    }

    predicate Valid()
      reads this, buf
    {
      RingOk(View())
    }

    constructor (size: nat)
      ensures fresh(buf) && View() == EmptyRing(size) && Valid()
    {
      buf := new byte[size](i => 0);
      pos, full := 0, false;
    }

    method Write(p: seq<byte>) returns (n: nat)
      requires Valid()
      modifies this, buf
      ensures View() == WriteRing(old(View()), p) && n == |p| && Valid()
    {
      n := |p|;
      var size := buf.Length;
      if n >= size {
        CopyInto(buf, 0, p[n - size..]);
        assert Overlay(old(buf[..]), 0, p[n - size..]) == p[n - size..];
        pos, full := 0, true;
        return;
      }
      var space := size - pos;
      if n <= space {
        CopyInto(buf, pos, p);
      } else {
        CopyInto(buf, pos, p[..space]);
        CopyInto(buf, 0, p[space..]);
        full := true;
      }
      pos := (pos + n) % size;
    }

    method ReadAll() returns (data: seq<byte>, wrapped: bool)
      requires Valid()
      ensures data == Contents(View()) && wrapped == full
    {
      if !full {
        return buf[..pos], false;
      }
      return buf[pos..] + buf[..pos], true;
    }

    method ReadReplay() returns (data: seq<byte>)
      requires Valid()
      ensures data == CleanStart(Contents(View()), full)
    {
      var all, wrapped := ReadAll();
      data := CleanReplayStart(all, wrapped);
    }

    method LoadFrom(data: seq<byte>)
      requires Valid()
      modifies this, buf
      ensures View() == LoadRing(old(View()), data) && Valid()
    {
      var size := buf.Length;
      if |data| >= size {
        CopyInto(buf, 0, data[|data| - size..]);
        assert Overlay(old(buf[..]), 0, data[|data| - size..]) == data[|data| - size..];
        pos, full := 0, true;
      } else {
        CopyInto(buf, 0, data);
        pos, full := |data|, false;
      }
    }
  }
}
