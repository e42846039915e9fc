/** Output recorded and fanned out to clients that come and go: the session as a
    machine whose steps interleave freely, one lock held where the code holds it. */
module Fanout {
  import opened Utf8
  import opened Parser
  import opened Dispatch
  import opened Snapshots
  import opened ClientQueue

  type Id = nat

  /** The writer of one connection: waiting, holding a wakeup, writing what it
      took (the last batch before closing, if the client was too slow), or gone. */
  datatype Pump = Idle | Woken | Writing(frames: seq<Frame>, last: bool) | Gone

  /** One connection. `from` and `heard` count the chunks of output recorded when
      it joined and those handed to its queue or skipped since. */
  datatype Conn = Conn(q: Queue, pump: Pump, sent: seq<Frame>, joined: bool, replay: bool, from: nat, heard: nat)

  datatype Lock = Free | Joining(id: Id) | Recording(todo: seq<Id>)

  /** The session: the emulator it started from, every chunk of output so far,
      the emulator now, who is attached, all connections, and the output lock. */
  datatype Session = Session(start: Emulator, log: seq<seq<byte>>, now: Emulator, members: seq<Id>, conns: map<Id, Conn>, lock: Lock)

  datatype Event =
    | Open(id: Id)
    | Read(data: seq<byte>)
    | Hand
    | Unlock
    | Attach(id: Id, replay: bool)
    | Join
    | Detach(id: Id)
    | Pong(id: Id)
    | Wake(id: Id)
    | Take(id: Id)
    | Send(id: Id)
    | Done(id: Id)
    | Fail(id: Id)

  const NEW_CONN := Conn(EMPTY, Idle, [], false, false, 0, 0)

  /** Control messages: a snapshot, or the answer to a ping. The first byte
      stands for the message's type field. */
  function ReplayMessage(data: seq<byte>): seq<byte> { [0x73] + data }

  const PONG: seq<byte> := [0x70]

  function Start(e: Emulator): Session { Session(e, [], e, [], map[], Free) }

  /** DetachClient removes the first entry only. */
  function Without(ids: seq<Id>, id: Id): seq<Id> {
    if ids == [] then [] else if ids[0] == id then ids[1..] else [ids[0]] + Without(ids[1..], id)
  }

  /** Output handed to one connection's queue. */
  function Hear(c: Conn, data: seq<byte>): Conn { c.(q := PushBinary(c.q, data), heard := c.heard + 1) }

  function JoinAt(c: Conn, replay: bool, snapshot: seq<byte>, k: nat): Conn {
    c.(q := if replay then PushText(c.q, ReplayMessage(snapshot)) else c.q,
       joined := true, replay := replay, from := k, heard := k)
  }

  function PumpStep(c: Conn, ev: Event): Conn {
    match ev
    case Wake(_) => if c.pump.Idle? && c.q.notify then c.(pump := Woken, q := c.q.(notify := false)) else c
    case Take(_) => if c.pump.Woken? then c.(pump := Writing(c.q.out, c.q.overflow), q := Taken(c.q)) else c
    case Send(_) =>
      if c.pump.Writing? && c.pump.frames != [] then
        c.(sent := c.sent + [c.pump.frames[0]], pump := Writing(c.pump.frames[1..], c.pump.last))
      else c
    case Done(_) => if c.pump.Writing? && c.pump.frames == [] then c.(pump := if c.pump.last then Gone else Idle) else c
    case Fail(_) => c.(pump := Gone)
    case Pong(_) => c.(q := PushText(c.q, PONG))
    case _ => c
  }

  function ReadStep(s: Session, data: seq<byte>): Session {
    if s.lock.Free? && 0 < |data| <= READ_SIZE then
      s.(log := s.log + [data], now := Write(s.now, data), lock := Recording(s.members))
    else s
  }

  function HandStep(s: Session): Session {
    if s.lock.Recording? && s.lock.todo != [] && s.lock.todo[0] in s.conns && s.log != [] then
      var id := s.lock.todo[0];
      s.(conns := s.conns[id := Hear(s.conns[id], s.log[|s.log| - 1])], lock := Recording(s.lock.todo[1..]))
    else s
  }

  function AttachStep(s: Session, id: Id, replay: bool): Session {
    if s.lock.Free? && id in s.conns && !s.conns[id].joined then
      s.(conns := s.conns[id := JoinAt(s.conns[id], replay, Snapshot(s.now.t), |s.log|)], lock := Joining(id))
    else s
  }

  /** One step. A step that cannot be taken changes nothing. */
  function Step(s: Session, ev: Event): Session {
    match ev
    case Open(id) => if id in s.conns then s else s.(conns := s.conns[id := NEW_CONN])
    case Read(data) => ReadStep(s, data)
    case Hand => HandStep(s)
    case Unlock => if s.lock.Recording? && s.lock.todo == [] then s.(lock := Free) else s
    case Attach(id, replay) => AttachStep(s, id, replay)
    case Join => if s.lock.Joining? then s.(members := s.members + [s.lock.id], lock := Free) else s
    case Detach(id) => s.(members := Without(s.members, id))
    case _ => if ev.id in s.conns then s.(conns := s.conns[ev.id := PumpStep(s.conns[ev.id], ev)]) else s
  }

  function Run(s: Session, evs: seq<Event>): Session
    decreases |evs|
  {
    if evs == [] then s else Run(Step(s, evs[0]), evs[1..])
  }

  // ---------------------------------------------------------------------------
  // What every connection hears
  // ---------------------------------------------------------------------------

  /** Without the answers to pings. */
  function Payload(items: seq<Item>): seq<Item> {
    if items == [] then [] else Payload(items[..|items| - 1]) + Kept(items[|items| - 1])
  }

  function Kept(i: Item): seq<Item> { if i == Message(PONG) then [] else [i] }

  lemma PayloadSnoc(a: seq<Item>, i: Item)
    ensures Payload(a + [i]) == Payload(a) + Kept(i)
  {
    assert (a + [i])[..|a|] == a;
  }

  lemma {:induction false} PayloadConcat(a: seq<Item>, b: seq<Item>)
    ensures Payload(a + b) == Payload(a) + Payload(b)
    decreases |b|
  {
    hide Payload;
    if b == [] {
      assert a + b == a;
      PayloadNothing();
    } else {
      var b', i := b[..|b| - 1], b[|b| - 1];
      PayloadConcat(a, b');
      assert a + b == (a + b') + [i] && b == b' + [i];
      PayloadSnoc(a + b', i);
      PayloadSnoc(b', i);
    }
  }

  lemma PayloadNothing()
    ensures Payload([]) == []
  {
  }

  lemma {:induction false} PayloadItems(data: seq<byte>)
    ensures Payload(Items(data)) == Items(data)
    decreases |data|
  {
    if data != [] {
      var front := data[..|data| - 1];
      PayloadItems(front);
      assert Items(data)[..|data| - 1] == Items(front);
    }
  }

  /** Everything a connection was sent, is being sent, or has waiting. */
  function All(c: Conn): seq<Frame> {
    c.sent + (if c.pump.Writing? then c.pump.frames else []) + c.q.out
  }

  function Hears(frames: seq<Frame>): seq<Item> { Payload(Says(frames)) }

  lemma HearsConcat(a: seq<Frame>, b: seq<Frame>)
    ensures Hears(a + b) == Hears(a) + Hears(b)
  {
    SaysConcat(a, b);
    PayloadConcat(Says(a), Says(b));
  }

  lemma HearsNothing()
    ensures Hears([]) == []
  {
  }

  /** What joining after k chunks and hearing up to n entitles a client to. */
  function Due(s: Session, c: Conn): seq<Item>
    requires c.from <= c.heard <= |s.log|
  {
    (if c.replay then [Message(ReplayMessage(Snapshot(WriteAll(s.start, s.log[..c.from]).t)))] else [])
    + Items(Flatten(s.log[c.from..c.heard]))
  }

  /** Exactly what is due; a prefix of it once the queue has overflowed, or of
      what was sent when the writer is gone. */
  predicate Exact(c: Conn, due: seq<Item>) {
    if c.pump.Gone? then Hears(c.sent) <= due
    else if c.q.overflow then Hears(All(c)) <= due
    else Hears(All(c)) == due
  }

  /** No wakeup is lost: what waits, output or overflow, has a token in the
      channel or a writer about to look. */
  predicate Awake(c: Conn) {
    c.pump.Gone? || c.pump.Woken? || c.q.notify
    || (c.q.out == [] && (c.q.overflow ==> c.pump.Writing? && c.pump.last))
  }

  predicate ConnOk(s: Session, c: Conn) {
    && QueueOk(c.q) && Awake(c)
    && (!c.joined ==> c.from == c.heard == 0 && !c.replay && !c.q.overflow && Exact(c, []))
    && (c.joined ==> c.from <= c.heard <= |s.log| && Exact(c, Due(s, c)))
  }

  // ---------------------------------------------------------------------------
  // Steps of one connection
  // ---------------------------------------------------------------------------

  /** The frames ahead of the queue. */
  function Ahead(c: Conn): seq<Frame> { c.sent + (if c.pump.Writing? then c.pump.frames else []) }

  lemma ExactQueued(c: Conn, c': Conn, due: seq<Item>, more: seq<Item>)
    requires Exact(c, due) && c'.sent == c.sent && c'.pump == c.pump
    requires if c.q.overflow then c'.q == c.q else Hears(c'.q.out) == Hears(c.q.out) + more
    ensures Exact(c', due + more)
  {
    hide Hears;
    HearsConcat(Ahead(c), c.q.out);
    HearsConcat(Ahead(c), c'.q.out);
    assert All(c) == Ahead(c) + c.q.out && All(c') == Ahead(c) + c'.q.out;
  }

  /** Output handed over extends what the client hears by exactly that output. */
  lemma ExactHear(c: Conn, data: seq<byte>, due: seq<Item>)
    requires Exact(c, due) && QueueOk(c.q) && |data| <= READ_SIZE && Awake(c)
    ensures Exact(Hear(c, data), due + Items(data)) && QueueOk(Hear(c, data).q) && Awake(Hear(c, data))
  {
    hide Says, Exact, Payload, Total;
    PushBinaryKeeps(c.q, data);
    PayloadConcat(Says(c.q.out), Items(data));
    PayloadItems(data);
    ExactQueued(c, Hear(c, data), due, Items(data));
  }

  lemma ExactText(c: Conn, msg: seq<byte>, due: seq<Item>)
    requires Exact(c, due) && QueueOk(c.q) && Awake(c)
    ensures var c' := c.(q := PushText(c.q, msg));
      Exact(c', due + Kept(Message(msg))) && QueueOk(c'.q) && Awake(c') && (!c.q.overflow ==> !c'.q.overflow)
  {
    hide Says, Exact, Payload, Total, Kept;
    PushTextKeeps(c.q, msg);
    PayloadSnoc(Says(c.q.out), Message(msg));
    ExactQueued(c, c.(q := PushText(c.q, msg)), due, Kept(Message(msg)));
  }

  lemma ExactJoin(c: Conn, replay: bool, snapshot: seq<byte>, k: nat)
    requires Exact(c, []) && QueueOk(c.q) && Awake(c)
    ensures var c' := JoinAt(c, replay, snapshot, k);
      Exact(c', if replay then [Message(ReplayMessage(snapshot))] else []) && QueueOk(c'.q) && Awake(c')
  {
    hide Hears, QueueOk;
    if replay {
      ExactText(c, ReplayMessage(snapshot), []);
      assert ReplayMessage(snapshot)[0] != PONG[0];
    }
  }

  lemma TotalNothing()
    ensures Total([]) == 0
  {
  }

  lemma ExactFail(c: Conn, due: seq<Item>)
    requires Exact(c, due)
    ensures Exact(c.(pump := Gone), due)
  {
    hide Hears;
    HearsConcat(c.sent, if c.pump.Writing? then c.pump.frames else []);
    HearsConcat(Ahead(c), c.q.out);
    assert All(c) == Ahead(c) + c.q.out;
  }

  lemma AllMoved(c: Conn, ev: Event)
    requires !ev.Pong? && !ev.Fail?
    ensures PumpStep(c, ev).pump.Gone? || All(PumpStep(c, ev)) == All(c)
    ensures ev.Done? && c.pump.Writing? && c.pump.frames == [] ==> All(c) == c.sent + c.q.out
  {
  }

  /** The writer moves frames along without changing what is heard. */
  lemma ExactPump(c: Conn, ev: Event, due: seq<Item>)
    requires Exact(c, due) && QueueOk(c.q) && Awake(c)
    ensures var c' := PumpStep(c, ev);
      && Exact(c', due) && QueueOk(c'.q) && Awake(c')
      && c'.joined == c.joined && c'.replay == c.replay && c'.from == c.from && c'.heard == c.heard
      && (c'.q.overflow ==> c.q.overflow)
  {
    hide Hears, Total, All;
    TotalNothing();
    if ev.Pong? {
      ExactText(c, PONG, due);
      assert due + [] == due;
    } else if ev.Fail? {
      ExactFail(c, due);
    } else {
      AllMoved(c, ev);
      HearsConcat(c.sent, c.q.out);
    }
  }

  // ---------------------------------------------------------------------------
  // The session
  // ---------------------------------------------------------------------------

  predicate Distinct(ids: seq<Id>) { forall i, j :: 0 <= i < j < |ids| ==> ids[i] != ids[j] }

  /** How far a connection has been handed the log. */
  predicate UpToDate(s: Session, id: Id) {
    && id in s.conns && s.conns[id].joined
    && s.conns[id].heard == (if s.lock.Recording? && id in s.lock.todo then |s.log| - 1 else |s.log|)
  }

  predicate ConnsOk(s: Session) { forall id :: id in s.conns ==> ConnOk(s, s.conns[id]) }

  predicate MembersOk(s: Session) {
    && Distinct(s.members)
    && (forall id :: id in s.members ==> UpToDate(s, id))
    && (s.lock.Joining? ==> UpToDate(s, s.lock.id) && s.lock.id !in s.members)
    && (s.lock.Recording? ==> Distinct(s.lock.todo) && s.log != [] && forall id :: id in s.lock.todo ==> UpToDate(s, id))
  }

  predicate LogOk(s: Session) {
    && s.now == WriteAll(s.start, s.log)
    && forall i :: 0 <= i < |s.log| ==> 0 < |s.log[i]| <= READ_SIZE
  }

  predicate Inv(s: Session) { LogOk(s) && ConnsOk(s) && MembersOk(s) }

  lemma {:induction false} WriteAllSnoc(e: Emulator, chunks: seq<seq<byte>>, data: seq<byte>)
    ensures WriteAll(e, chunks + [data]) == Write(WriteAll(e, chunks), data)
    decreases |chunks|
  {
    hide Write;
    if chunks == [] {
      assert [data][1..] == [];
    } else {
      assert (chunks + [data])[1..] == chunks[1..] + [data];
      WriteAllSnoc(Write(e, chunks[0]), chunks[1..], data);
    }
  }

  lemma {:induction false} FlattenSnoc(chunks: seq<seq<byte>>, data: seq<byte>)
    ensures Flatten(chunks + [data]) == Flatten(chunks) + data
    decreases |chunks|
  {
    if chunks == [] {
      assert chunks + [data] == [data] && [data][1..] == [];
    } else {
      assert (chunks + [data])[1..] == chunks[1..] + [data];
      FlattenSnoc(chunks[1..], data);
    }
  }

  /** What was due is due when the log has grown. */
  lemma DueKept(s: Session, s': Session, c: Conn)
    requires c.from <= c.heard <= |s.log| && s.log <= s'.log && s'.start == s.start
    ensures Due(s', c) == Due(s, c)
  {
    hide WriteAll, Snapshot, Flatten, Items;
    assert s'.log[..c.from] == s.log[..c.from];
    assert s'.log[c.from..c.heard] == s.log[c.from..c.heard];
  }

  lemma DueGrows(s: Session, c: Conn, data: seq<byte>)
    requires c.from <= c.heard < |s.log|
    ensures Due(s, c.(heard := c.heard + 1)) == Due(s, c) + Items(s.log[c.heard])
  {
    hide WriteAll, Snapshot, Flatten, Items;
    var part := s.log[c.from..c.heard];
    assert s.log[c.from..c.heard + 1] == part + [s.log[c.heard]];
    FlattenSnoc(part, s.log[c.heard]);
    ItemsConcat(Flatten(part), s.log[c.heard]);
  }

  /** Due depends on the connection only through what it asked for and heard. */
  lemma DueSame(s: Session, c: Conn, c': Conn)
    requires c.from <= c.heard <= |s.log| && c'.replay == c.replay && c'.from == c.from && c'.heard == c.heard
    ensures Due(s, c') == Due(s, c)
  {
  }

  lemma ConnKept(s: Session, s': Session, c: Conn)
    requires ConnOk(s, c) && s.log <= s'.log && s'.start == s.start
    ensures ConnOk(s', c)
  {
    hide Due, QueueOk, Awake, Exact;
    if c.joined {
      DueKept(s, s', c);
    }
  }

  /** All connections are as they should be if the changed one is. */
  lemma ConnsKept(s: Session, s': Session, id: Id)
    requires ConnsOk(s) && s.log <= s'.log && s'.start == s.start
    requires id in s'.conns && ConnOk(s', s'.conns[id])
    requires forall i :: i in s'.conns && i != id ==> i in s.conns && s'.conns[i] == s.conns[i]
    ensures ConnsOk(s')
  {
    hide ConnOk;
    forall i | i in s'.conns ensures ConnOk(s', s'.conns[i]) {
      if i != id {
        ConnKept(s, s', s.conns[i]);
      }
    }
  }

  lemma ConnsSame(s: Session, s': Session)
    requires ConnsOk(s) && s.log <= s'.log && s'.start == s.start && s'.conns == s.conns
    ensures ConnsOk(s')
  {
    hide ConnOk;
    forall i | i in s'.conns ensures ConnOk(s', s'.conns[i]) {
      ConnKept(s, s', s.conns[i]);
    }
  }

  lemma ReadKeeps(s: Session, data: seq<byte>)
    requires Inv(s)
    ensures Inv(ReadStep(s, data))
  {
    hide ConnsOk, WriteAll, Write;
    var s' := ReadStep(s, data);
    WriteAllSnoc(s.start, s.log, data);
    ConnsSame(s, s');
  }

  lemma HandKeeps(s: Session)
    requires Inv(s)
    ensures Inv(HandStep(s))
  {
    hide ConnsOk, WriteAll, Exact, Due, Awake, QueueOk, PushBinary;
    var s' := HandStep(s);
    if s.lock.Recording? && s.lock.todo != [] {
      var id := s.lock.todo[0];
      assert UpToDate(s, id);
      var c := s.conns[id];
      var data := s.log[|s.log| - 1];
      ConnAt(s, id);
      ExactHear(c, data, Due(s, c));
      DueGrows(s, c, data);
      DueSame(s, c.(heard := c.heard + 1), Hear(c, data));
      DueKept(s, s', Hear(c, data));
      ConnsKept(s, s', id);
      HandMembers(s, id);
    }
  }

  lemma ConnAt(s: Session, id: Id)
    requires ConnsOk(s) && id in s.conns
    ensures ConnOk(s, s.conns[id])
  {
    hide ConnOk;
  }

  lemma HandMembers(s: Session, id: Id)
    requires MembersOk(s) && s.lock.Recording? && s.lock.todo != [] && id == s.lock.todo[0]
    ensures MembersOk(HandStep(s))
  {
    hide PushBinary;
    var s' := HandStep(s);
    var todo := s.lock.todo;
    assert UpToDate(s, id);
    forall i | i in todo[1..] ensures UpToDate(s', i) {
      assert UpToDate(s, i);
    }
    forall i | i in s.members ensures UpToDate(s', i) {
      assert UpToDate(s, i);
      assert i in todo <==> i == id || i in todo[1..];
    }
  }

  lemma AttachKeeps(s: Session, id: Id, replay: bool)
    requires Inv(s)
    ensures Inv(AttachStep(s, id, replay))
  {
    hide ConnsOk, WriteAll, Snapshot, Exact, Awake, QueueOk, PushText;
    var s' := AttachStep(s, id, replay);
    if s'.lock != s.lock {
      var c := s.conns[id];
      var k := |s.log|;
      ConnAt(s, id);
      var shot := Snapshot(s.now.t);
      ExactJoin(c, replay, shot, k);
      var c' := JoinAt(c, replay, shot, k);
      DueNow(s', c');
      ConnsKept(s, s', id);
      forall i | i in s.members ensures UpToDate(s', i) {
        assert UpToDate(s, i);
      }
    }
  }

  lemma DueNow(s: Session, c: Conn)
    requires LogOk(s) && c.from == c.heard == |s.log|
    ensures Due(s, c) == if c.replay then [Message(ReplayMessage(Snapshot(s.now.t)))] else []
  {
    hide WriteAll, Snapshot, Items;
    assert s.log[..c.from] == s.log;
    assert s.log[c.from..c.heard] == [];
    assert Items([]) == [];
  }

  lemma {:induction false} WithoutIs(ids: seq<Id>, id: Id)
    requires Distinct(ids)
    ensures Distinct(Without(ids, id))
    ensures forall i :: i in Without(ids, id) <==> i in ids && i != id
    decreases |ids|
  {
    if ids != [] {
      var rest := ids[1..];
      WithoutIs(rest, id);
      assert ids == [ids[0]] + rest;
      assert forall j :: 0 <= j < |rest| ==> rest[j] == ids[j + 1];
      assert ids[0] !in rest;
    }
  }

  lemma PumpKeeps(s: Session, ev: Event)
    requires Inv(s) && (ev.Pong? || ev.Wake? || ev.Take? || ev.Send? || ev.Done? || ev.Fail?)
    ensures Inv(Step(s, ev))
  {
    hide ConnsOk, WriteAll, Write, Snapshot, Exact, Awake, QueueOk, PumpStep, Due;
    var s' := Step(s, ev);
    if ev.id in s.conns {
      var c := s.conns[ev.id];
      ConnAt(s, ev.id);
      ExactPump(c, ev, if c.joined then Due(s, c) else []);
      if c.joined {
        DueKept(s, s', PumpStep(c, ev));
        DueSame(s, c, PumpStep(c, ev));
      }
      ConnsKept(s, s', ev.id);
      PumpMembers(s, s', ev.id);
    }
  }

  lemma PumpMembers(s: Session, s': Session, id: Id)
    requires MembersOk(s) && id in s.conns && s'.members == s.members && s'.lock == s.lock && s'.log == s.log
    requires s'.conns.Keys == s.conns.Keys && forall i :: i in s.conns && i != id ==> s'.conns[i] == s.conns[i]
    requires s'.conns[id].joined == s.conns[id].joined && s'.conns[id].heard == s.conns[id].heard
    ensures MembersOk(s')
  {
    forall i | UpToDate(s, i) ensures UpToDate(s', i) {
    }
  }

  lemma OpenKeeps(s: Session, id: Id)
    requires Inv(s)
    ensures Inv(Step(s, Open(id)))
  {
    hide ConnsOk, WriteAll, Write, Snapshot, Due;
    if id !in s.conns {
      var s' := Step(s, Open(id));
      HearsNothing();
      TotalNothing();
      ConnsKept(s, s', id);
      forall i | UpToDate(s, i) ensures UpToDate(s', i) {
      }
    }
  }

  lemma LockKeeps(s: Session, ev: Event)
    requires Inv(s) && (ev.Unlock? || ev.Join? || ev.Detach?)
    ensures Inv(Step(s, ev))
  {
    hide ConnsOk, WriteAll, Write, Snapshot;
    var s' := Step(s, ev);
    ConnsSame(s, s');
    forall i | UpToDate(s, i) ensures UpToDate(s', i) {
    }
    if ev.Detach? {
      WithoutIs(s.members, ev.id);
    }
  }

  lemma StartKept(s: Session, ev: Event)
    ensures Step(s, ev).start == s.start
  {
    hide Write, Snapshot, PumpStep, Without, Hear, JoinAt;
  }

  lemma StepKeeps(s: Session, ev: Event)
    requires Inv(s)
    ensures Inv(Step(s, ev)) && Step(s, ev).start == s.start
  {
    hide Inv, Write, Snapshot, PumpStep, ReadStep, HandStep, AttachStep, Without;
    StartKept(s, ev);
    match ev
    case Open(id) => OpenKeeps(s, id);
    case Read(data) => ReadKeeps(s, data);
    case Hand => HandKeeps(s);
    case Attach(id, replay) => AttachKeeps(s, id, replay);
    case Unlock | Join | Detach(_) => LockKeeps(s, ev);
    case _ => PumpKeeps(s, ev);
  }

  lemma {:induction false} RunKeeps(s: Session, evs: seq<Event>)
    requires Inv(s)
    ensures Inv(Run(s, evs)) && Run(s, evs).start == s.start
    decreases |evs|
  {
    hide Inv, Step;
    if evs != [] {
      StepKeeps(s, evs[0]);
      RunKeeps(Step(s, evs[0]), evs[1..]);
    }
  }

  lemma StartInv(e: Emulator)
    ensures Inv(Start(e))
  {
    hide Write, Snapshot;
  }

  /** Attaching is exact. Whatever reads, attaches, detaches, pings, failures and
      writes interleave, a client that joined after k chunks has been sent, or
      has waiting, the snapshot taken at k and exactly the output from k on, in
      order, none missing and none twice, or a prefix once it overflowed; while
      it is attached and no output is being handed round, that is all output. */
  lemma AttachExact(e: Emulator, evs: seq<Event>, id: Id)
    requires id in Run(Start(e), evs).conns && Run(Start(e), evs).conns[id].joined
    ensures var s := Run(Start(e), evs); var c := s.conns[id];
      && s.start == e && s.now == WriteAll(e, s.log) && c.from <= c.heard <= |s.log|
      && Exact(c, Due(s, c)) && Awake(c) && QueueOk(c.q)
      && (id in s.members && !s.lock.Recording? ==> c.heard == |s.log|)
  {
    hide Run, WriteAll, Due, Exact, Awake, QueueOk;
    StartInv(e);
    RunKeeps(Start(e), evs);
    ConnAt(Run(Start(e), evs), id);
    MemberAt(Run(Start(e), evs), id);
  }

  lemma MemberAt(s: Session, id: Id)
    requires MembersOk(s)
    ensures id in s.members && !s.lock.Recording? ==> id in s.conns && s.conns[id].heard == |s.log|
  {
    if id in s.members {
      assert UpToDate(s, id);
    }
  }
}
