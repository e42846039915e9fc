/** Agents that hold tunnels to a rendezvous under one token, and how one takes
    the token over from another. */
module Takeover {
  /** An agent process (its instance id) and one of its tunnel loops. */
  type Instance = nat
  datatype Loop = Loop(instance: Instance, slot: nat)

  /** Where a loop is: between dials, serving a tunnel, served a SUPERSEDED close
      it has not read yet, or finished. */
  datatype Phase = Waiting | Live | Superseded | Stopped

  /** The rendezvous' pool for the token, the loops, the processes whose context
      is cancelled; how many close signals were lost and how many tunnels displaced. */
  datatype Net = Net(pool: set<Loop>, phase: map<Loop, Phase>, halted: set<Instance>, lost: nat, displacements: nat)

  datatype Event =
    | Dial(l: Loop, takeover: bool)
    | Race(l: Loop)
    | Drop(l: Loop)
    | Read(l: Loop)
    | Cancel(l: Loop)
    | Reject(l: Loop)
    | Lose(l: Loop)

  /** All loops, each between dials. */
  function Start(loops: set<Loop>): Net {
    Net({}, map l | l in loops :: Waiting, {}, 0, 0)
  }

  predicate In(s: Net, l: Loop, p: Phase) { l in s.phase && s.phase[l] == p }

  /** The pool once dead tunnels are dropped, which comes before any decision. */
  function Reaped(s: Net): set<Loop> { set l | l in s.pool && In(s, l, Live) }

  /** Live tunnels of other instances. */
  function Incumbents(s: Net, i: Instance): set<Loop> { set l | l in Reaped(s) && l.instance != i }

  function Moved(s: Net, ls: set<Loop>, p: Phase): map<Loop, Phase> {
    map l | l in s.phase :: if l in ls then p else s.phase[l]
  }

  /** A registration takes the pool: its own instance's tunnels stay, every other
      live tunnel is displaced and sent SUPERSEDED. */
  function Register(s: Net, l: Loop): Net {
    var losers := Incumbents(s, l.instance);
    s.(pool := Reaped(s) - losers + {l},
       phase := Moved(s, losers, Superseded)[l := Live],
       displacements := s.displacements + |losers|)
  }

  /** A terminal answer: the loop ends and takes its process with it. */
  function Halt(s: Net, l: Loop): Net { s.(phase := Moved(s, {l}, Stopped), halted := s.halted + {l.instance}) }

  predicate CanDial(s: Net, l: Loop) { In(s, l, Waiting) && l.instance !in s.halted }

  /** One step. A step that cannot be taken changes nothing. */
  function Step(s: Net, ev: Event): Net {
    match ev
    case Dial(l, takeover) =>
      if !CanDial(s, l) then s
      else if Incumbents(s, l.instance) != {} && !takeover then Halt(s.(pool := Reaped(s)), l)
      else Register(s, l)
    case Race(l) => if CanDial(s, l) then Register(s, l) else s
    case Drop(l) => if In(s, l, Live) then s.(phase := Moved(s, {l}, Waiting)) else s
    case Read(l) => if In(s, l, Superseded) then Halt(s, l) else s
    case Cancel(l) => if l.instance in s.halted && l in s.phase then s.(phase := Moved(s, {l}, Stopped)) else s
    case Reject(l) => if CanDial(s, l) then Halt(s, l) else s
    case Lose(l) => if In(s, l, Superseded) then s.(phase := Moved(s, {l}, Waiting), lost := s.lost + 1) else s
  }

  function Run(s: Net, evs: seq<Event>): Net
    decreases |evs|
  {
    if evs == [] then s else Run(Step(s, evs[0]), evs[1..])
  }

  // ---------------------------------------------------------------------------
  // One instance at a time
  // ---------------------------------------------------------------------------

  predicate OneInstance(s: Net) {
    forall a, b :: a in Reaped(s) && b in Reaped(s) ==> a.instance == b.instance
  }

  /** Every live tunnel is in the pool. */
  ghost predicate Pooled(s: Net) { forall l :: In(s, l, Live) ==> l in s.pool }

  /** The loops that were displaced or have finished. */
  function Fallen(s: Net): set<Loop> { set l | l in s.phase && (s.phase[l] == Superseded || s.phase[l] == Stopped) }

  /** Every displaced tunnel's loop is down for good, unless its signal was lost. */
  ghost predicate Counted(s: Net) { s.displacements <= |Fallen(s)| + s.lost }

  ghost predicate Inv(s: Net) { OneInstance(s) && Pooled(s) && Counted(s) }

  lemma RegisterOne(s: Net, l: Loop)
    requires CanDial(s, l)
    ensures OneInstance(Register(s, l))
  {
    var s' := Register(s, l);
    var losers := Incumbents(s, l.instance);
    forall a | a in Reaped(s') ensures a.instance == l.instance {
      if a != l {
        assert a in Reaped(s) && a !in losers;
      }
    }
  }

  lemma RegisterPooled(s: Net, l: Loop)
    requires Pooled(s) && CanDial(s, l)
    ensures Pooled(Register(s, l))
  {
    var s' := Register(s, l);
    forall a | In(s', a, Live) ensures a in s'.pool {
      if a != l {
        assert In(s, a, Live) && a in Reaped(s);
      }
    }
  }

  lemma RegisterCounted(s: Net, l: Loop)
    requires Counted(s) && CanDial(s, l)
    ensures Counted(Register(s, l))
  {
    var losers := Incumbents(s, l.instance);
    assert losers !! Fallen(s);
    assert Fallen(Register(s, l)) == Fallen(s) + losers;
  }

  /** A loop that moves on to another phase than Live, with the pool reaped or as
      it was. */
  lemma MoveKeeps(s: Net, s': Net, l: Loop, p: Phase)
    requires Inv(s) && p != Live && p != Superseded && (s'.pool == s.pool || s'.pool == Reaped(s))
    requires s'.phase == Moved(s, {l}, p) && (p == Waiting ==> !In(s, l, Superseded) && !In(s, l, Stopped))
    requires s'.lost == s.lost && s'.displacements == s.displacements
    ensures Inv(s')
  {
    assert forall m :: In(s', m, Live) ==> In(s, m, Live) && m in Reaped(s);
    assert forall m :: m in Reaped(s') ==> m in Reaped(s);
    assert Fallen(s) <= Fallen(s');
    SubsetSize(Fallen(s), Fallen(s'));
  }

  lemma LoseKeeps(s: Net, l: Loop)
    requires Inv(s) && In(s, l, Superseded)
    ensures Inv(Step(s, Lose(l)))
  {
    var s' := Step(s, Lose(l));
    assert forall m :: In(s', m, Live) ==> In(s, m, Live);
    assert forall m :: m in Reaped(s') ==> m in Reaped(s);
    assert Fallen(s') == Fallen(s) - {l};
  }

  lemma StepKeeps(s: Net, ev: Event)
    requires Inv(s)
    ensures Inv(Step(s, ev)) && Step(s, ev).phase.Keys == s.phase.Keys
    ensures Step(s, ev).lost <= s.lost + if ev.Lose? then 1 else 0
  {
    hide Inv, Register, Incumbents, Reaped;
    if CanDial(s, ev.l) && (ev.Race? || (ev.Dial? && (Incumbents(s, ev.l.instance) == {} || ev.takeover))) {
      RegisterAll(s, ev.l);
    } else if ev.Lose? && In(s, ev.l, Superseded) {
      LoseKeeps(s, ev.l);
    } else if Step(s, ev) != s {
      MoveKeeps(s, Step(s, ev), ev.l, if ev.Drop? then Waiting else Stopped);
    }
  }

  lemma RegisterAll(s: Net, l: Loop)
    requires Inv(s) && CanDial(s, l)
    ensures Inv(Register(s, l)) && Register(s, l).phase.Keys == s.phase.Keys && Register(s, l).lost == s.lost
  {
    hide OneInstance, Pooled, Counted, Incumbents, Reaped;
    RegisterOne(s, l);
    RegisterPooled(s, l);
    RegisterCounted(s, l);
  }

  /** How many close signals a run loses, at most. */
  function Losses(evs: seq<Event>): nat {
    if evs == [] then 0 else (if evs[0].Lose? then 1 else 0) + Losses(evs[1..])
  }

  lemma {:induction false} RunKeeps(s: Net, evs: seq<Event>)
    requires Inv(s)
    ensures Inv(Run(s, evs)) && Run(s, evs).phase.Keys == s.phase.Keys && Run(s, evs).lost <= s.lost + Losses(evs)
    decreases |evs|
  {
    hide Inv, Step;
    if evs != [] {
      StepKeeps(s, evs[0]);
      RunKeeps(Step(s, evs[0]), evs[1..]);
    }
  }

  /** Takeover cannot livelock but for lost signals. Whatever dials, races, drops
      and cancellations interleave, the live pool is one instance's, and no more
      tunnels are displaced than there are tunnel loops and lost close frames. */
  lemma DisplacementsBounded(loops: set<Loop>, evs: seq<Event>)
    ensures var s := Run(Start(loops), evs);
      OneInstance(s) && s.displacements <= |loops| + Losses(evs)
  {
    hide Run, Losses;
    assert Inv(Start(loops));
    RunKeeps(Start(loops), evs);
    var s := Run(Start(loops), evs);
    assert s.phase.Keys == loops by {
      assert Start(loops).phase.Keys == loops;
    }
    assert Fallen(s) <= loops;
    SubsetSize(Fallen(s), loops);
  }

  lemma {:induction false} SubsetSize(a: set<Loop>, b: set<Loop>)
    requires a <= b
    ensures |a| <= |b|
    decreases |a|
  {
    if a != {} {
      var x :| x in a;
      SubsetSize(a - {x}, b - {x});
    }
  }

  /** A newcomer refused with a conflict changes nothing for anybody else, and its
      process never dials again. */
  lemma ConflictIsHarmless(s: Net, l: Loop)
    requires CanDial(s, l) && Incumbents(s, l.instance) != {}
    ensures var s' := Step(s, Dial(l, false));
      && Reaped(s') == Reaped(s) && s'.displacements == s.displacements
      && (forall m :: m in s.phase && m != l ==> m in s'.phase && s'.phase[m] == s.phase[m])
      && (forall m: Loop :: m.instance == l.instance ==> !CanDial(s', m))
  {
    var s' := Step(s, Dial(l, false));
    assert forall m :: In(s', m, Live) <==> In(s, m, Live);
  }

  /** A process that has halted stays so: none of its loops ever serves again. */
  lemma {:induction false} HaltedForever(s: Net, evs: seq<Event>, l: Loop)
    requires l.instance in s.halted && !In(s, l, Live)
    ensures l.instance in Run(s, evs).halted && !In(Run(s, evs), l, Live)
    decreases |evs|
  {
    if evs != [] {
      HaltedForever(Step(s, evs[0]), evs[1..], l);
    }
  }

  // ---------------------------------------------------------------------------
  // The close signal is needed
  // ---------------------------------------------------------------------------

  const A := Loop(0, 0)
  const B := Loop(1, 0)

  /** A and B take the token from each other, every signal lost. */
  function Duel(n: nat): seq<Event> {
    if n == 0 then [Dial(A, true)]
    else Duel(n - 1) + (if n % 2 == 1 then [Dial(B, true), Lose(A)] else [Dial(A, true), Lose(B)])
  }

  function Holder(n: nat): Loop { if n % 2 == 0 then A else B }

  lemma {:induction false} RunAppend(s: Net, a: seq<Event>, b: seq<Event>)
    ensures Run(s, a + b) == Run(Run(s, a), b)
    decreases |a|
  {
    hide Step;
    if a == [] {
      assert a + b == b;
    } else {
      assert (a + b)[1..] == a[1..] + b;
      RunAppend(Step(s, a[0]), a[1..], b);
    }
  }

  /** Where the duel stands after a round: one holds the token, the other is about
      to dial again. */
  predicate Standing(s: Net, holder: Loop, other: Loop) {
    && s.pool == {holder} && s.phase == map[holder := Live, other := Waiting] && s.halted == {}
  }

  lemma Round(s: Net, holder: Loop, other: Loop)
    requires Standing(s, holder, other) && holder.instance != other.instance
    ensures var s' := Run(s, [Dial(other, true), Lose(holder)]);
      Standing(s', other, holder) && s'.displacements == s.displacements + 1
  {
    var s1 := Step(s, Dial(other, true));
    assert Incumbents(s, other.instance) == {holder};
    assert s1.phase == map[holder := Superseded, other := Live];
    var s2 := Step(s1, Lose(holder));
    assert s2.phase == map[holder := Waiting, other := Live];
    var evs := [Dial(other, true), Lose(holder)];
    assert evs[1..] == [Lose(holder)] && evs[1..][1..] == [];
    assert Run(s1, [Lose(holder)]) == Run(s2, []);
  }

  lemma FirstRound()
    ensures Standing(Run(Start({A, B}), [Dial(A, true)]), A, B) && Run(Start({A, B}), [Dial(A, true)]).displacements == 0
    ensures Losses([Dial(A, true)]) == 0
  {
    var s := Start({A, B});
    assert Incumbents(s, 0) == {};
    var s1 := Step(s, Dial(A, true));
    assert s1.phase == map[A := Live, B := Waiting];
    var evs := [Dial(A, true)];
    assert evs[1..] == [];
    assert Run(s, evs) == Run(s1, []);
  }

  lemma {:induction false} LossesAppend(evs: seq<Event>, dial: Event, l: Loop)
    requires !dial.Lose?
    ensures Losses(evs + [dial, Lose(l)]) == Losses(evs) + 1
    decreases |evs|
  {
    var more := [dial, Lose(l)];
    if evs == [] {
      assert evs + more == more && more[1..] == [Lose(l)] && more[1..][1..] == [];
      assert Losses([Lose(l)]) == 1;
    } else {
      assert (evs + more)[1..] == evs[1..] + more;
      LossesAppend(evs[1..], dial, l);
    }
  }

  /** The bound is met: without the signal two agents displace each other without
      end, once for every close frame that is lost. */
  lemma {:induction false} LostSignalsLivelock(n: nat)
    ensures var s := Run(Start({A, B}), Duel(n));
      Standing(s, Holder(n), Holder(n + 1)) && s.displacements == n && Losses(Duel(n)) == n
    decreases n
  {
    hide Run, Standing;
    if n == 0 {
      FirstRound();
    } else {
      LostSignalsLivelock(n - 1);
      var s := Run(Start({A, B}), Duel(n - 1));
      RunAppend(Start({A, B}), Duel(n - 1), [Dial(Holder(n), true), Lose(Holder(n - 1))]);
      Round(s, Holder(n - 1), Holder(n));
      LossesAppend(Duel(n - 1), Dial(Holder(n), true), Holder(n - 1));
    }
  }

  // ---------------------------------------------------------------------------
  // One loop
  // ---------------------------------------------------------------------------

  /** How a dial ended: terminally, or with a tunnel that lived for so long. */
  datatype Outcome = AuthFailed | Conflict | TakenOver | Lost(age: nat) | Cancelled

  const INITIAL_BACKOFF := 1000
  const MAX_BACKOFF := 30000
  const STABLE_AGE := 30000

  function NextBackoff(d: nat): nat { if d * 2 > MAX_BACKOFF then MAX_BACKOFF else d * 2 }

  /** Dials until one ends otherwise than by a lost connection. */
  function Dials(outcomes: seq<Outcome>): (n: nat)
    ensures n <= |outcomes|
    ensures forall i :: 0 <= i < n - 1 ==> outcomes[i].Lost?
    ensures n < |outcomes| ==> n > 0 && !outcomes[n - 1].Lost?
  {
    if outcomes == [] then 0 else if outcomes[0].Lost? then 1 + Dials(outcomes[1..]) else 1
  }

  predicate AllLost(losses: seq<Outcome>) { forall i :: 0 <= i < |losses| ==> losses[i].Lost? }

  /** The delay before the next dial, jitter aside: from the initial one, doubled
      by every loss since the last stable tunnel, and capped. */
  function Delay(losses: seq<Outcome>): (d: nat)
    requires AllLost(losses)
    ensures INITIAL_BACKOFF <= d <= MAX_BACKOFF
  {
    if |losses| <= 1 || losses[|losses| - 1].age >= STABLE_AGE then INITIAL_BACKOFF
    else NextBackoff(Delay(losses[..|losses| - 1]))
  }

  function Delays(losses: seq<Outcome>): (ds: seq<nat>)
    requires AllLost(losses)
    ensures |ds| == |losses|
  {
    if losses == [] then [] else Delays(losses[..|losses| - 1]) + [Delay(losses)]
  }

  lemma DelaysNext(losses: seq<Outcome>, age: nat)
    requires AllLost(losses)
    ensures AllLost(losses + [Lost(age)])
    ensures Delays(losses + [Lost(age)]) == Delays(losses) + [Delay(losses + [Lost(age)])]
    ensures Delay(losses + [Lost(age)])
      == if losses == [] || age >= STABLE_AGE then INITIAL_BACKOFF else NextBackoff(Delay(losses))
  {
    var more := losses + [Lost(age)];
    assert more[..|more| - 1] == losses;
  }

  lemma DialsNext(outcomes: seq<Outcome>, k: nat)
    requires k < |outcomes|
    ensures Dials(outcomes[k..]) == if outcomes[k].Lost? then 1 + Dials(outcomes[k + 1..]) else 1
  {
    assert outcomes[k..][1..] == outcomes[k + 1..];
  }

  /** One loop's life, `outcomes` being how its dials end, were it to keep dialing:
      it dials up to the first end that is not a lost connection, fails the process
      if that end is terminal, and waits between dials as `Delays` says. */
  method RunTunnel(outcomes: seq<Outcome>) returns (dials: nat, delays: seq<nat>, failed: bool)
    ensures dials == Dials(outcomes)
    ensures var lost := if dials > 0 && !outcomes[dials - 1].Lost? then dials - 1 else dials;
      AllLost(outcomes[..lost]) && delays == Delays(outcomes[..lost])
    ensures failed <==> dials > 0 && (outcomes[dials - 1].AuthFailed? || outcomes[dials - 1].Conflict? || outcomes[dials - 1].TakenOver?)
  {
    hide Delays, Delay, Dials;
    var backoff := INITIAL_BACKOFF;
    dials, delays, failed := 0, [], false;
    ghost var losses: seq<Outcome> := [];
    NoDelays(outcomes);
    while dials < |outcomes|
      invariant dials <= |outcomes| && losses == outcomes[..dials] && AllLost(losses)
      invariant !failed && delays == Delays(losses)
      invariant Dials(outcomes) == dials + Dials(outcomes[dials..])
      invariant backoff == if dials == 0 then INITIAL_BACKOFF else NextBackoff(Delay(losses))
    {
      var outcome := outcomes[dials];
      DialsNext(outcomes, dials);
      dials := dials + 1;
      match outcome
      case Cancelled => return;
      case AuthFailed | Conflict | TakenOver =>
        failed := true;
        return;
      case Lost(age) =>
        if age >= STABLE_AGE {
          backoff := INITIAL_BACKOFF;
        }
        DelaysNext(losses, age);
        losses := losses + [outcome];
        delays := delays + [backoff];
        backoff := NextBackoff(backoff);
    }
    DialsNone(outcomes[dials..]);
  }

  lemma NoDelays(outcomes: seq<Outcome>)
    ensures Delays([]) == [] && outcomes[..0] == [] && outcomes[0..] == outcomes
  {
  }

  lemma DialsNone(outcomes: seq<Outcome>)
    requires outcomes == []
    ensures Dials(outcomes) == 0
  {
  }
}
