/** The outbound queue of one attached client: terminal output is coalesced into
    bounded frames, control messages stay whole, and a pump drains it. */
module ClientQueue {
  import opened Utf8

  const MAX_BACKLOG := 0x80_0000
  const MAX_FRAME := 0x4_0000
  const READ_SIZE := 0x4000

  /** A queued message: terminal output, or a control message. */
  datatype Frame = Frame(text: bool, data: seq<byte>)

  datatype Queue = Queue(out: seq<Frame>, outBytes: nat, notify: bool, overflow: bool)

  const EMPTY := Queue([], 0, false, false)

  predicate Merges(out: seq<Frame>, data: seq<byte>) {
    out != [] && !out[|out| - 1].text && |out[|out| - 1].data| + |data| <= MAX_FRAME
  }

  function Appended(out: seq<Frame>, data: seq<byte>): seq<Frame> {
    if Merges(out, data) then out[..|out| - 1] + [Frame(false, out[|out| - 1].data + data)]
    else out + [Frame(false, data)]
  }

  function PushBinary(q: Queue, data: seq<byte>): Queue {
    if q.overflow then q
    else Queue(Appended(q.out, data), q.outBytes + |data|, true, q.outBytes + |data| > MAX_BACKLOG)
  }

  function PushText(q: Queue, msg: seq<byte>): Queue {
    if q.overflow then q
    else Queue(q.out + [Frame(true, msg)], q.outBytes + |msg|, true, false)
  }

  function Taken(q: Queue): Queue { q.(out := [], outBytes := 0) }

  // ---------------------------------------------------------------------------
  // What a queue says, byte by byte
  // ---------------------------------------------------------------------------

  /** What the receiver can tell apart: single bytes of output, whole messages. */
  datatype Item = Byte(b: byte) | Message(data: seq<byte>)

  function Items(data: seq<byte>): (s: seq<Item>)
    ensures |s| == |data|
  {
    seq(|data|, i requires 0 <= i < |data| => Byte(data[i]))
  }

  function FrameSays(f: Frame): seq<Item> { if f.text then [Message(f.data)] else Items(f.data) }

  function Says(out: seq<Frame>): seq<Item> {
    if out == [] then [] else Says(out[..|out| - 1]) + FrameSays(out[|out| - 1])
  }

  function Total(out: seq<Frame>): nat {
    if out == [] then 0 else Total(out[..|out| - 1]) + |out[|out| - 1].data|
  }

  lemma SaysSnoc(out: seq<Frame>, f: Frame)
    ensures Says(out + [f]) == Says(out) + FrameSays(f)
    ensures Total(out + [f]) == Total(out) + |f.data|
  {
    assert (out + [f])[..|out|] == out;
  }

  lemma {:induction false} SaysConcat(a: seq<Frame>, b: seq<Frame>)
    ensures Says(a + b) == Says(a) + Says(b)
    decreases |b|
  {
    hide Says, FrameSays;
    if b == [] {
      assert a + b == a;
      SaysNothing();
    } else {
      var b', f := b[..|b| - 1], b[|b| - 1];
      SaysConcat(a, b');
      assert a + b == (a + b') + [f];
      SaysSnoc(a + b', f);
      SaysSnoc(b', f);
      assert b == b' + [f];
    }
  }

  lemma SaysNothing()
    ensures Says([]) == [] && Total([]) == 0
  {
  }

  lemma ItemsConcat(a: seq<byte>, b: seq<byte>)
    ensures Items(a + b) == Items(a) + Items(b)
  {
  }

  /** Output joins the queue at its end, whether or not it was merged, and no
      message moves: coalescing never crosses a control message. */
  lemma AppendedSays(out: seq<Frame>, data: seq<byte>)
    ensures Says(Appended(out, data)) == Says(out) + Items(data)
    ensures Total(Appended(out, data)) == Total(out) + |data|
  {
    hide Says, Total, Items;
    if Merges(out, data) {
      var front, last := out[..|out| - 1], out[|out| - 1];
      assert out == front + [last];
      SaysSnoc(front, last);
      SaysSnoc(front, Frame(false, last.data + data));
      ItemsConcat(last.data, data);
    } else {
      SaysSnoc(out, Frame(false, data));
    }
  }

  /** A queue between calls: the byte count is exact, frames of output are bounded. */
  predicate QueueOk(q: Queue) {
    && q.outBytes == Total(q.out)
    && (forall i :: 0 <= i < |q.out| ==> !q.out[i].text ==> |q.out[i].data| <= MAX_FRAME)
  }

  lemma AppendedBounded(out: seq<Frame>, data: seq<byte>)
    requires |data| <= MAX_FRAME
    requires forall i :: 0 <= i < |out| ==> !out[i].text ==> |out[i].data| <= MAX_FRAME
    ensures var out' := Appended(out, data);
      forall i :: 0 <= i < |out'| ==> !out'[i].text ==> |out'[i].data| <= MAX_FRAME
  {
  }

  /** Queueing output: nothing is reordered, merged across a message, lost or
      doubled unless the client had already overflowed; the count stays exact. */
  lemma PushBinaryKeeps(q: Queue, data: seq<byte>)
    requires QueueOk(q) && |data| <= MAX_FRAME
    ensures var q' := PushBinary(q, data);
      && QueueOk(q') && (q.overflow ==> q' == q)
      && (!q.overflow ==> Says(q'.out) == Says(q.out) + Items(data) && q'.notify && q'.out != [])
      && (!q.overflow ==> (q'.overflow <==> Total(q.out) + |data| > MAX_BACKLOG))
  {
    hide Says, Total, Items;
    AppendedSays(q.out, data);
    AppendedBounded(q.out, data);
  }

  lemma PushTextKeeps(q: Queue, msg: seq<byte>)
    requires QueueOk(q)
    ensures var q' := PushText(q, msg);
      && QueueOk(q') && (q.overflow ==> q' == q)
      && (!q.overflow ==> Says(q'.out) == Says(q.out) + [Message(msg)] && q'.notify && !q'.overflow)
  {
    hide Says, Total, Items;
    SaysSnoc(q.out, Frame(true, msg));
  }

  // ---------------------------------------------------------------------------
  // The queue in place
  // ---------------------------------------------------------------------------

  class Client {
    var out: seq<Frame>
    var outBytes: nat
    var notify: bool
    var overflow: bool

    function View(): Queue
      reads this
    {
      Queue(out, outBytes, notify, overflow)
    }

    constructor ()
      ensures View() == EMPTY
    {
      out, outBytes, notify, overflow := [], 0, false, false;
    }

    /** The wakeup channel holds one token. */
    method Signal()
      modifies this`notify
      ensures View() == old(View()).(notify := true)
    {
      if !notify {
        notify := true;
      }
    }

    method QueueBinary(data: seq<byte>)
      requires QueueOk(View()) && |data| <= MAX_FRAME
      modifies this
      ensures View() == PushBinary(old(View()), data) && QueueOk(View())
      ensures !old(overflow) ==> Says(out) == Says(old(out)) + Items(data)
    {
      hide QueueOk, Says, Total, Items;
      PushBinaryKeeps(View(), data);
      if overflow {
        return;
      }
      var n := |out|;
      if n > 0 && !out[n - 1].text && |out[n - 1].data| + |data| <= MAX_FRAME {
        out := out[n - 1 := Frame(false, out[n - 1].data + data)];
        assert out == Appended(old(out), data);
      } else {
        out := out + [Frame(false, data)];
      }
      outBytes := outBytes + |data|;
      if outBytes > MAX_BACKLOG {
        overflow := true;
      }
      Signal();
    }

    method QueueText(msg: seq<byte>)
      requires QueueOk(View())
      modifies this
      ensures View() == PushText(old(View()), msg) && QueueOk(View())
      ensures !old(overflow) ==> Says(out) == Says(old(out)) + [Message(msg)]
    {
      hide QueueOk, Says, Total;
      PushTextKeeps(View(), msg);
      if overflow {
        return;
      }
      out := out + [Frame(true, msg)];
      outBytes := outBytes + |msg|;
      Signal();
    }

    method TakePending() returns (frames: seq<Frame>, tooSlow: bool)
      requires QueueOk(View())
      modifies this
      ensures View() == Taken(old(View())) && QueueOk(View())
      ensures frames == old(out) && tooSlow == old(overflow)
    {
      frames, out := out, [];
      outBytes := 0;
      tooSlow := overflow;
    }
  }
}
