/** From the program's output to the client's screen: what an attached client
    shows is what the server's terminal shows. */
module Mirror {
  import opened Utf8
  import opened Parser
  import opened Resync
  import opened Sequences
  import opened Dispatch
  import opened Snapshots
  import opened ClientQueue
  import opened Fanout
  import opened Simulation
  import opened Rejoin

  /** The client: a snapshot message starts its terminal afresh, output is
      written as it arrives, anything else is not for the terminal. */
  function WatchFrame(blank: Emulator, e: Emulator, f: Frame): Emulator {
    if !f.text then Write(e, f.data)
    else if f.data != [] && f.data[0] == 0x73 then Write(blank, f.data[1..])
    else e
  }

  function Watch(blank: Emulator, frames: seq<Frame>): Emulator {
    if frames == [] then blank
    else WatchFrame(blank, Watch(blank, frames[..|frames| - 1]), frames[|frames| - 1])
  }

  /** The output frames alone. */
  function Outputs(frames: seq<Frame>): seq<seq<byte>> {
    if frames == [] then []
    else
      var front := Outputs(frames[..|frames| - 1]);
      if frames[|frames| - 1].text then front else front + [frames[|frames| - 1].data]
  }

  lemma HearsSnoc(frames: seq<Frame>, f: Frame)
    ensures Hears(frames + [f]) == Hears(frames) + (if f.text then Kept(Message(f.data)) else Items(f.data))
  {
    hide Payload;
    SaysSnoc(frames, f);
    if f.text {
      PayloadSnoc(Says(frames), Message(f.data));
    } else {
      PayloadConcat(Says(frames), Items(f.data));
      PayloadItems(f.data);
    }
  }

  /** Output after the snapshot message. */
  lemma {:induction false} WatchOutput(blank: Emulator, frames: seq<Frame>, snapshot: seq<byte>, bytes: seq<byte>)
      returns (chunks: seq<seq<byte>>)
    requires Hears(frames) == [Message(ReplayMessage(snapshot))] + Items(bytes)
    ensures Watch(blank, frames) == WriteAll(Write(blank, snapshot), chunks) && Flatten(chunks) == bytes
    decreases |frames|
  {
    hide Hears, Write, Items;
    if frames == [] {
      HearsNothing();
      assert false;
    } else {
      var front, f := frames[..|frames| - 1], frames[|frames| - 1];
      assert frames == front + [f];
      HearsSnoc(front, f);
      var due := [Message(ReplayMessage(snapshot))] + Items(bytes);
      if !f.text {
        var n := |bytes| - |f.data|;
        OutputLast(Hears(front), f.data, snapshot, bytes);
        chunks := WatchOutput(blank, front, snapshot, bytes[..n]);
        WriteAllSnoc(Write(blank, snapshot), chunks, f.data);
        FlattenSnoc(chunks, f.data);
        chunks := chunks + [f.data];
      } else if f.data == PONG {
        assert Kept(Message(f.data)) == [];
        chunks := WatchOutput(blank, front, snapshot, bytes);
      } else {
        MessageLast(Hears(front), f.data, snapshot, bytes);
        chunks := [];
      }
    }
  }

  lemma OutputLast(front: seq<Item>, data: seq<byte>, snapshot: seq<byte>, bytes: seq<byte>)
    requires front + Items(data) == [Message(ReplayMessage(snapshot))] + Items(bytes)
    ensures |data| <= |bytes| && bytes == bytes[..|bytes| - |data|] + data
    ensures front == [Message(ReplayMessage(snapshot))] + Items(bytes[..|bytes| - |data|])
  {
    var due := [Message(ReplayMessage(snapshot))] + Items(bytes);
    var all := front + Items(data);
    assert |front| + |data| == 1 + |bytes|;
    assert all[0].Message?;
    assert front != [];
    var n := |bytes| - |data|;
    forall i | 0 <= i < |data| ensures data[i] == bytes[n + i] {
      assert all[|front| + i] == Byte(data[i]) && due[1 + n + i] == Byte(bytes[n + i]);
    }
    assert front == all[..|front|];
    assert Items(bytes)[..n] == Items(bytes[..n]);
  }

  lemma OneMessage(snapshot: seq<byte>, bytes: seq<byte>)
    ensures var due := [Message(ReplayMessage(snapshot))] + Items(bytes);
      forall i :: 1 <= i < |due| ==> due[i].Byte?
  {
  }

  lemma MessageLast(front: seq<Item>, data: seq<byte>, snapshot: seq<byte>, bytes: seq<byte>)
    requires data != PONG
    requires front + Kept(Message(data)) == [Message(ReplayMessage(snapshot))] + Items(bytes)
    ensures bytes == [] && data == [0x73] + snapshot && data[1..] == snapshot
  {
    var due := [Message(ReplayMessage(snapshot))] + Items(bytes);
    var all := front + Kept(Message(data));
    assert all[|all| - 1] == Message(data);
    OneMessage(snapshot, bytes);
    assert |due| == 1;
    assert due[0] == Message(data);
  }

  /** Everything heard is delivered: the client is attached, in time, and its
      writer has nothing left. */
  predicate Settled(s: Session, id: Id) {
    && id in s.conns && id in s.members && !s.lock.Recording?
    && var c := s.conns[id];
    && c.joined && c.replay && !c.q.overflow && c.pump.Idle? && c.q.out == []
  }

  /** The emulator that read all the output is the emulator now. */
  lemma {:induction false} WriteAllCut(e: Emulator, a: seq<seq<byte>>, b: seq<seq<byte>>)
    ensures WriteAll(e, a + b) == WriteAll(WriteAll(e, a), b)
    decreases |a|
  {
    hide Write;
    if a == [] {
      assert a + b == b;
    } else {
      assert (a + b)[1..] == a[1..] + b;
      WriteAllCut(Write(e, a[0]), a[1..], b);
    }
  }

  lemma SettledHears(s: Session, c: Conn)
    requires c.joined && c.replay && !c.q.overflow && c.pump.Idle? && c.q.out == [] && c.from <= c.heard == |s.log|
    requires Exact(c, Due(s, c))
    ensures Hears(c.sent)
      == [Message(ReplayMessage(Snapshot(WriteAll(s.start, s.log[..c.from]).t)))] + Items(Flatten(s.log[c.from..]))
  {
    hide Hears, Snapshot, WriteAll, Flatten, Items;
    assert All(c) == c.sent;
    assert s.log[c.from..c.heard] == s.log[c.from..];
  }

  /** The snapshot connection `id` joined with said everything, and the output
      since is well-formed and repeats no rune printed before it. */
  predicate SaysAll(e: Emulator, s: Session, id: Id)
    requires id in s.conns
  {
    var k := s.conns[id].from;
    k <= |s.log| &&
    var base := WriteAll(e, s.log[..k]);
    var out := Flatten(s.log[k..]);
    Joinable(base) && NoTorn(out) && RepeatsOwn(false, base.t, Parse(base.p, out).acts)
  }

  /** End to end. Once everything it heard is delivered, the terminal of a client
      that joined when the snapshot said everything is similar to the server's,
      and so is its parser: same lines, history, cursor, pen, modes and title,
      and the same reaction to whatever comes next. */
  lemma ClientMirrors(e: Emulator, evs: seq<Event>, id: Id) returns (known: bool)
    requires Settled(Run(Start(e), evs), id)
    requires SaysAll(e, Run(Start(e), evs), id)
    ensures var s := Run(Start(e), evs); var c := s.conns[id];
      var base := WriteAll(e, s.log[..c.from]).t;
      var client := Watch(NewEmulator(base.w, base.h, base.maxScrollback), c.sent);
      Sim(known, client.t, s.now.t) && LiveEq(client.p, s.now.p)
  {
    hide Run, WriteAll, Write, Exact, Due, Awake, QueueOk, Joinable, RepeatsOwn, Sim, LiveEq, Watch, Parse, Snapshot, NoTorn, Hears, Flatten, Items;
    AttachExact(e, evs, id);
    var s := Run(Start(e), evs);
    var c := s.conns[id];
    var base := WriteAll(e, s.log[..c.from]);
    var rest := s.log[c.from..];
    var out := Flatten(rest);
    var blank := NewEmulator(base.t.w, base.t.h, base.t.maxScrollback);
    SettledHears(s, c);
    var chunks := WatchOutput(blank, c.sent, Snapshot(base.t), out);
    JoinedReady(base);
    OneWrite(Joined(base.t), chunks);
    assert s.log == s.log[..c.from] + rest;
    WriteAllCut(e, s.log[..c.from], rest);
    OneWrite(base, rest);
    known := JoinedFollows(base, out);
  }

  lemma JoinedReady(e: Emulator)
    requires Joinable(e)
    ensures Ready(Joined(e.t).p) && Ready(e.p) && Joined(e.t) == Write(NewEmulator(e.t.w, e.t.h, e.t.maxScrollback), Snapshot(e.t))
  {
    hide Write, Snapshot, Sim;
    JoinedSim(e);
  }

  lemma OneWrite(e: Emulator, chunks: seq<seq<byte>>)
    requires Ready(e.p) && NoTorn(Flatten(chunks))
    ensures WriteAll(e, chunks) == Write(e, Flatten(chunks))
  {
    hide Write, WriteAll, Flatten, NoTorn;
    assert [] + Flatten(chunks) == Flatten(chunks);
    WriteChunks(e, chunks);
  }
}
