/** The tab handshake lock by lock: resuming, checking, disconnecting and registering
    are separate calls, with the user's answer in between, and connections interleave. */
module Handshakes {
  import opened Ownership

  datatype Answer = TakeOver | NewSessions(ok: bool) | Dismiss

  /** Where a connection is. One that was cleared to register also carries the
      tokens registered on its tab since. */
  datatype Phase = Opened | Asked | Cleared(passed: set<Token>) | Joined | Closed

  datatype Conn = Conn(tab: Id, phase: Phase)

  datatype Net = Net(clients: map<Id, seq<Client>>, conns: map<nat, Conn>, drawn: set<Token>, lost: set<Token>)

  datatype Event =
    | Open(h: nat, tab: Id, resume: Token)
    | Check(h: nat)
    | Reply(h: nat, answer: Answer)
    | Register(h: nat, token: Token)
    | Leave(h: nat)
    | Delete(tab: Id)

  const QUIET := Net(map[], map[], {}, {})

  predicate At(s: Net, h: nat, p: Phase) { h in s.conns && s.conns[h].phase == p }

  predicate MayRegister(s: Net, h: nat) { h in s.conns && s.conns[h].phase.Cleared? }

  function Go(s: Net, h: nat, p: Phase): Net
    requires h in s.conns
  {
    s.(conns := s.conns[h := s.conns[h].(phase := p)])
  }

  /** Every connection of the tab that is cleared to register learns of a token. */
  function Told(conns: map<nat, Conn>, tab: Id, token: Token): map<nat, Conn> {
    map h | h in conns :: if conns[h].tab == tab && conns[h].phase.Cleared?
      then conns[h].(phase := Cleared(conns[h].phase.passed + {token})) else conns[h]
  }

  function Evicted(s: Net, tab: Id): Net {
    s.(clients := Disconnected(s.clients, tab), lost := s.lost + Tokens(Of(s.clients, tab)))
  }

  /** One call under the manager's lock. A call out of turn changes nothing. */
  function Step(s: Net, ev: Event): Net {
    match ev
    case Open(h, tab, resume) =>
      if h in s.conns then s
      else if Resumes(s.clients, tab, resume) then
        s.(clients := Resumed(s.clients, tab, resume, h), conns := s.conns[h := Conn(tab, Joined)])
      else s.(conns := s.conns[h := Conn(tab, Opened)])
    case Check(h) =>
      if !At(s, h, Opened) then s
      else Go(s, h, if Of(s.clients, s.conns[h].tab) == [] then Cleared({}) else Asked)
    case Reply(h, answer) =>
      if !At(s, h, Asked) then s
      else if answer == Dismiss || answer == NewSessions(false) then Go(s, h, Closed)
      else Go(Evicted(s, s.conns[h].tab), h, Cleared({}))
    case Register(h, token) =>
      if !MayRegister(s, h) then s
      else
        var tab := s.conns[h].tab;
        Net(Registered(s.clients, tab, Client(h, token)), Told(s.conns, tab, token)[h := Conn(tab, Joined)], s.drawn + {token}, s.lost)
    case Leave(h) =>
      if !At(s, h, Joined) then s
      else Go(s.(clients := Unregistered(s.clients, s.conns[h].tab, h)), h, Closed)
    case Delete(tab) => Evicted(s, tab)
  }

  function Run(s: Net, evs: seq<Event>): Net
    decreases |evs|
  {
    if evs == [] then s else Run(Step(s, evs[0]), evs[1..])
  }

  /** Tokens are drawn anew. */
  predicate AllDrawn(s: Net, evs: seq<Event>)
    decreases |evs|
  {
    evs != [] ==>
      && (evs[0].Register? ==> evs[0].token !in s.drawn && evs[0].token != "")
      && AllDrawn(Step(s, evs[0]), evs[1..])
  }

  // ---------------------------------------------------------------------------
  // At most one owner, exactly
  // ---------------------------------------------------------------------------

  ghost predicate OneOwner(s: Net) { forall tab :: |Of(s.clients, tab)| <= 1 }

  /** Throughout the run no tab has two clients. */
  ghost predicate AlwaysOne(s: Net, evs: seq<Event>)
    decreases |evs|
  {
    OneOwner(s) && (evs != [] ==> AlwaysOne(Step(s, evs[0]), evs[1..]))
  }

  /** Whoever registers: nobody registered on that tab since it was cleared, or they
      are gone again. */
  ghost predicate Unpassed(s: Net, ev: Event) {
    ev.Register? && MayRegister(s, ev.h) ==>
      forall token :: token in s.conns[ev.h].phase.passed ==> !CanAttach(s.clients, s.conns[ev.h].tab, token)
  }

  ghost predicate AllUnpassed(s: Net, evs: seq<Event>)
    decreases |evs|
  {
    evs != [] ==> Unpassed(s, evs[0]) && AllUnpassed(Step(s, evs[0]), evs[1..])
  }

  /** The clients of a tab on which a connection is cleared registered since then. */
  ghost predicate Since(s: Net) {
    forall h, i :: MayRegister(s, h) && 0 <= i < |Of(s.clients, s.conns[h].tab)|
      ==> Of(s.clients, s.conns[h].tab)[i].token in s.conns[h].phase.passed
  }

  lemma OfIs(m: map<Id, seq<Client>>, tab: Id, c: Client, h: nat, other: Id)
    ensures Of(Registered(m, tab, c), other) == if other == tab then Of(m, tab) + [c] else Of(m, other)
    ensures Of(Disconnected(m, tab), other) == if other == tab then [] else Of(m, other)
    ensures Of(Unregistered(m, tab, h), other) == if other == tab then Without(Of(m, tab), h) else Of(m, other)
  {
    OfPut(m, tab, Without(Of(m, tab), h), other);
  }

  /** A resume changes one handle and no token. */
  lemma ResumedIs(m: map<Id, seq<Client>>, tab: Id, token: Token, h: nat, other: Id)
    ensures var cs, cs' := Of(m, other), Of(Resumed(m, tab, token, h), other);
      |cs'| == |cs| && forall i :: 0 <= i < |cs| ==> cs'[i].token == cs[i].token
  {
  }

  lemma {:induction false} WithoutFew(cs: seq<Client>, h: nat)
    ensures |Without(cs, h)| <= |cs|
    ensures forall i :: 0 <= i < |Without(cs, h)| ==> Without(cs, h)[i] in cs
    decreases |cs|
  {
    if cs != [] {
      WithoutFew(cs[1..], h);
    }
  }

  lemma SinceKept(s: Net, ev: Event)
    requires Since(s)
    ensures Since(Step(s, ev))
  {
    hide Without, Resumed, Resumes, Of, Registered, Unregistered, Disconnected, Tokens;
    var s' := Step(s, ev);
    forall h, i | MayRegister(s', h) && 0 <= i < |Of(s'.clients, s'.conns[h].tab)|
      ensures Of(s'.clients, s'.conns[h].tab)[i].token in s'.conns[h].phase.passed
    {
      var tab := s'.conns[h].tab;
      match ev
      case Open(_, t, resume) => ResumedIs(s.clients, t, resume, ev.h, tab);
      case Check(_) =>
      case Reply(r, _) => if r in s.conns { OfIs(s.clients, s.conns[r].tab, Client(0, ""), 0, tab); }
      case Register(r, token) => if r in s.conns { OfIs(s.clients, s.conns[r].tab, Client(r, token), 0, tab); }
      case Leave(r) =>
        if r in s.conns {
          OfIs(s.clients, s.conns[r].tab, Client(0, ""), r, tab);
          WithoutFew(Of(s.clients, s.conns[r].tab), r);
        }
      case Delete(t) => OfIs(s.clients, t, Client(0, ""), 0, tab);
    }
  }

  /** A step keeps single owners exactly when whoever registers was not passed. */
  lemma StepExactly(s: Net, ev: Event)
    requires OneOwner(s) && Since(s)
    ensures OneOwner(Step(s, ev)) <==> Unpassed(s, ev)
  {
    hide Without, Resumed, Resumes, Of, Registered, Unregistered, Disconnected, Tokens, Since, CanAttach;
    var s' := Step(s, ev);
    if ev.Register? && MayRegister(s, ev.h) {
      RegisterExactly(s, ev);
    } else {
      forall tab ensures |Of(s'.clients, tab)| <= 1 {
        assert |Of(s.clients, tab)| <= 1;
        match ev
        case Open(_, t, resume) => ResumedIs(s.clients, t, resume, ev.h, tab);
        case Check(_) =>
        case Reply(r, _) => if r in s.conns { OfIs(s.clients, s.conns[r].tab, Client(0, ""), 0, tab); }
        case Register(_, _) =>
        case Leave(r) =>
          if r in s.conns {
            OfIs(s.clients, s.conns[r].tab, Client(0, ""), r, tab);
            WithoutFew(Of(s.clients, s.conns[r].tab), r);
          }
        case Delete(t) => OfIs(s.clients, t, Client(0, ""), 0, tab);
      }
    }
  }

  lemma RegisterExactly(s: Net, ev: Event)
    requires OneOwner(s) && Since(s) && ev.Register? && MayRegister(s, ev.h)
    ensures OneOwner(Step(s, ev)) <==> Unpassed(s, ev)
  {
    hide Of, Registered;
    var tab, s', c := s.conns[ev.h].tab, Step(s, ev), Client(ev.h, ev.token);
    var cs := Of(s.clients, tab);
    OfIs(s.clients, tab, c, 0, tab);
    if cs == [] {
      forall other ensures |Of(s'.clients, other)| <= 1 {
        assert |Of(s.clients, other)| <= 1;
        OfIs(s.clients, tab, c, 0, other);
      }
    } else {
      assert |Of(s'.clients, tab)| == |cs| + 1;
      assert cs[0].token in s.conns[ev.h].phase.passed && CanAttach(s.clients, tab, cs[0].token);
    }
  }

  /** When one owner is all there ever is. Over all runs of interleaved handshakes,
      no tab ever has two clients if and only if nobody registers on a tab after
      another connection did so behind its check or disconnect and is still there. */
  lemma {:induction false} OneOwnerExactly(s: Net, evs: seq<Event>)
    requires OneOwner(s) && Since(s)
    ensures AlwaysOne(s, evs) <==> AllUnpassed(s, evs)
    decreases |evs|
  {
    hide OneOwner, Since, Step, Unpassed;
    if evs != [] {
      StepExactly(s, evs[0]);
      SinceKept(s, evs[0]);
      if OneOwner(Step(s, evs[0])) {
        OneOwnerExactly(Step(s, evs[0]), evs[1..]);
      }
    }
  }

  /** Such a run: two connections that both find the tab free, and both register. */
  lemma BothFindItFree(tab: Id)
    ensures var evs := [Open(1, tab, ""), Open(2, tab, ""), Check(1), Check(2), Register(1, "a"), Register(2, "b")];
      && AllDrawn(QUIET, evs) && Of(Run(QUIET, evs).clients, tab) == [Client(1, "a"), Client(2, "b")]
  {
    var s1 := Net(map[], map[1 := Conn(tab, Opened)], {}, {});
    var s2 := Net(map[], map[1 := Conn(tab, Opened), 2 := Conn(tab, Opened)], {}, {});
    var s3 := Net(map[], map[1 := Conn(tab, Cleared({})), 2 := Conn(tab, Opened)], {}, {});
    var s4 := Net(map[], map[1 := Conn(tab, Cleared({})), 2 := Conn(tab, Cleared({}))], {}, {});
    FirstSteps(tab, s1, s2, s3, s4);
    var s5 := Step(s4, Register(1, "a"));
    RegisterSteps(tab, s4);
    var s6 := Step(s5, Register(2, "b"));
    hide Step;
    var e6 := [Register(2, "b")];
    var e5 := [Register(1, "a")] + e6;
    var e4 := [Check(2)] + e5;
    var e3 := [Check(1)] + e4;
    var e2 := [Open(2, tab, "")] + e3;
    Unrolled(s5, Register(2, "b"), []);
    Unrolled(s4, Register(1, "a"), e6);
    Unrolled(s3, Check(2), e5);
    Unrolled(s2, Check(1), e4);
    Unrolled(s1, Open(2, tab, ""), e3);
    Unrolled(QUIET, Open(1, tab, ""), e2);
    assert [Register(2, "b")] + [] == e6;
    assert [Open(1, tab, "")] + e2 == [Open(1, tab, ""), Open(2, tab, ""), Check(1), Check(2), Register(1, "a"), Register(2, "b")];
  }

  lemma FirstSteps(tab: Id, s1: Net, s2: Net, s3: Net, s4: Net)
    requires s1 == Net(map[], map[1 := Conn(tab, Opened)], {}, {})
    requires s2 == Net(map[], map[1 := Conn(tab, Opened), 2 := Conn(tab, Opened)], {}, {})
    requires s3 == Net(map[], map[1 := Conn(tab, Cleared({})), 2 := Conn(tab, Opened)], {}, {})
    requires s4 == Net(map[], map[1 := Conn(tab, Cleared({})), 2 := Conn(tab, Cleared({}))], {}, {})
    ensures Step(QUIET, Open(1, tab, "")) == s1 && Step(s1, Open(2, tab, "")) == s2
    ensures Step(s2, Check(1)) == s3 && Step(s3, Check(2)) == s4
  {
    assert Step(s2, Check(1)).conns == s3.conns;
    assert Step(s3, Check(2)).conns == s4.conns;
  }

  lemma RegisterSteps(tab: Id, s4: Net)
    requires s4 == Net(map[], map[1 := Conn(tab, Cleared({})), 2 := Conn(tab, Cleared({}))], {}, {})
    ensures var s5 := Step(s4, Register(1, "a"));
      s5.drawn == {"a"} && Of(Step(s5, Register(2, "b")).clients, tab) == [Client(1, "a"), Client(2, "b")]
  {
    var s5 := Step(s4, Register(1, "a"));
    OfIs(map[], tab, Client(1, "a"), 0, tab);
    assert Of(s5.clients, tab) == [Client(1, "a")];
    assert MayRegister(s5, 2) && s5.conns[2].tab == tab;
    OfIs(s5.clients, tab, Client(2, "b"), 0, tab);
  }

  lemma Unrolled(s: Net, e: Event, rest: seq<Event>)
    ensures Run(s, [e] + rest) == Run(Step(s, e), rest)
    ensures AllDrawn(s, [e] + rest) <==> (e.Register? ==> e.token !in s.drawn && e.token != "") && AllDrawn(Step(s, e), rest)
  {
    hide Step;
    assert ([e] + rest)[1..] == rest;
  }

  // ---------------------------------------------------------------------------
  // What is lost stays lost, whatever races
  // ---------------------------------------------------------------------------

  ghost predicate Holds(m: map<Id, seq<Client>>, tab: Id, i: int) { 0 <= i < |Of(m, tab)| }

  /** Every client's token was drawn and not lost, and no two clients share one. */
  ghost predicate Own(m: map<Id, seq<Client>>, drawn: set<Token>, lost: set<Token>) {
    && lost <= drawn
    && (forall tab, i :: Holds(m, tab, i) ==> Of(m, tab)[i].token in drawn && Of(m, tab)[i].token !in lost)
    && (forall a, i, b, j :: Holds(m, a, i) && Holds(m, b, j) && Of(m, a)[i].token == Of(m, b)[j].token ==> a == b && i == j)
  }

  /** Clients that all were there before, each where only it comes from. */
  lemma OwnMoved(m: map<Id, seq<Client>>, m': map<Id, seq<Client>>, drawn: set<Token>, lost: set<Token>, tab: Id, k: nat)
    requires Own(m, drawn, lost) && forall other :: other != tab ==> Of(m', other) == Of(m, other)
    requires forall i :: Holds(m', tab, i) ==>
      Holds(m, tab, if i < k then i else i + 1) && Of(m', tab)[i].token == Of(m, tab)[if i < k then i else i + 1].token
    ensures Own(m', drawn, lost)
  {
    hide Of;
    forall a, i | Holds(m', a, i) ensures Of(m', a)[i].token in drawn && Of(m', a)[i].token !in lost {
      var i' := if a == tab && i >= k then i + 1 else i;
      assert Holds(m, a, i');
    }
    forall a, i, b, j | Holds(m', a, i) && Holds(m', b, j) && Of(m', a)[i].token == Of(m', b)[j].token ensures a == b && i == j {
      var i', j' := if a == tab && i >= k then i + 1 else i, if b == tab && j >= k then j + 1 else j;
      assert Holds(m, a, i') && Holds(m, b, j') && Of(m, a)[i'].token == Of(m, b)[j'].token;
    }
  }

  lemma OwnResume(m: map<Id, seq<Client>>, drawn: set<Token>, lost: set<Token>, tab: Id, token: Token, h: nat)
    requires Own(m, drawn, lost)
    ensures Own(Resumed(m, tab, token, h), drawn, lost)
  {
    hide Of, Resumed;
    var m' := Resumed(m, tab, token, h);
    ResumedIs(m, tab, token, h, tab);
    ResumedElsewhere(m, tab, token, h);
    OwnMoved(m, m', drawn, lost, tab, |Of(m, tab)|);
  }

  lemma ResumedElsewhere(m: map<Id, seq<Client>>, tab: Id, token: Token, h: nat)
    ensures forall other :: other != tab ==> Of(Resumed(m, tab, token, h), other) == Of(m, other)
  {
  }

  lemma OwnLeave(m: map<Id, seq<Client>>, drawn: set<Token>, lost: set<Token>, tab: Id, h: nat)
    requires Own(m, drawn, lost)
    ensures Own(Unregistered(m, tab, h), drawn, lost)
  {
    hide Of, Unregistered, Without;
    forall other ensures other != tab ==> Of(Unregistered(m, tab, h), other) == Of(m, other) {
      OfIs(m, tab, Client(0, ""), h, other);
    }
    OfIs(m, tab, Client(0, ""), h, tab);
    var k := WithoutAt(Of(m, tab), h);
    OwnMoved(m, Unregistered(m, tab, h), drawn, lost, tab, k);
  }

  lemma OwnEvict(m: map<Id, seq<Client>>, drawn: set<Token>, lost: set<Token>, tab: Id)
    requires Own(m, drawn, lost)
    ensures Own(Disconnected(m, tab), drawn, lost + Tokens(Of(m, tab)))
  {
    hide Of, Disconnected;
    var m', cs := Disconnected(m, tab), Of(m, tab);
    forall other ensures Of(m', other) == if other == tab then [] else Of(m, other) {
      OfIs(m, tab, Client(0, ""), 0, other);
    }
    OwnMoved(m, m', drawn, lost, tab, 0);
    forall a, i | Holds(m', a, i) ensures Of(m', a)[i].token !in Tokens(cs) {
      assert Holds(m, a, i);
      forall j | 0 <= j < |cs| ensures cs[j].token != Of(m', a)[i].token {
        assert Holds(m, tab, j);
      }
    }
    forall token | token in Tokens(cs) ensures token in drawn {
      var j :| 0 <= j < |cs| && cs[j].token == token;
      assert Holds(m, tab, j);
    }
  }

  lemma OwnRegister(m: map<Id, seq<Client>>, drawn: set<Token>, lost: set<Token>, tab: Id, c: Client)
    requires Own(m, drawn, lost) && c.token !in drawn
    ensures Own(Registered(m, tab, c), drawn + {c.token}, lost)
  {
    hide Of, Registered;
    var m' := Registered(m, tab, c);
    forall other ensures Of(m', other) == if other == tab then Of(m, tab) + [c] else Of(m, other) {
      OfIs(m, tab, c, 0, other);
    }
    forall a, i | Holds(m', a, i)
      ensures if a == tab && i == |Of(m, tab)| then Of(m', a)[i] == c else Holds(m, a, i) && Of(m', a)[i] == Of(m, a)[i]
    {
    }
  }

  /** Where the clients left after one leaves were. */
  lemma {:induction false} WithoutAt(cs: seq<Client>, h: nat) returns (k: nat)
    ensures k <= |cs| && |Without(cs, h)| == if k == |cs| then k else |cs| - 1
    ensures forall i :: 0 <= i < |Without(cs, h)| ==> Without(cs, h)[i] == cs[if i < k then i else i + 1]
    decreases |cs|
  {
    if cs == [] || cs[0].handle == h {
      k := 0;
    } else {
      var j := WithoutAt(cs[1..], h);
      k := j + 1;
    }
  }

  ghost predicate Sound(s: Net) { Own(s.clients, s.drawn, s.lost) }

  lemma SoundKept(s: Net, ev: Event)
    requires Sound(s) && (ev.Register? ==> ev.token !in s.drawn)
    ensures Sound(Step(s, ev)) && s.lost <= Step(s, ev).lost
  {
    hide Own, Told, Tokens, Resumed, Resumes, Registered, Unregistered, Disconnected, Of;
    match ev
    case Open(h, tab, resume) => OwnResume(s.clients, s.drawn, s.lost, tab, resume, h);
    case Check(_) =>
    case Reply(h, _) =>
      if h in s.conns {
        OwnEvict(s.clients, s.drawn, s.lost, s.conns[h].tab);
      }
    case Register(h, token) =>
      if h in s.conns {
        OwnRegister(s.clients, s.drawn, s.lost, s.conns[h].tab, Client(h, token));
      }
    case Leave(h) =>
      if h in s.conns {
        OwnLeave(s.clients, s.drawn, s.lost, s.conns[h].tab, h);
      }
    case Delete(tab) => OwnEvict(s.clients, s.drawn, s.lost, tab);
  }

  lemma {:induction false} RunSound(s: Net, evs: seq<Event>)
    requires Sound(s) && AllDrawn(s, evs)
    ensures Sound(Run(s, evs)) && s.lost <= Run(s, evs).lost
    decreases |evs|
  {
    hide Sound, Step;
    if evs != [] {
      SoundKept(s, evs[0]);
      RunSound(Step(s, evs[0]), evs[1..]);
    }
  }

  lemma QuietIsSound()
    ensures Sound(QUIET)
  {
  }

  /** However handshakes interleave, two owners or one: a token lost to a takeover or
      a deletion never lets anyone attach again, on any tab. */
  lemma LostNeverAttaches(before: seq<Event>, after: seq<Event>, token: Token, tab: Id)
    requires AllDrawn(QUIET, before) && AllDrawn(Run(QUIET, before), after) && token in Run(QUIET, before).lost
    ensures !CanAttach(Run(Run(QUIET, before), after).clients, tab, token)
  {
    hide Run, Sound;
    QuietIsSound();
    RunSound(QUIET, before);
    RunSound(Run(QUIET, before), after);
    SoundShuts(Run(Run(QUIET, before), after), tab, token);
  }

  lemma SoundShuts(s: Net, tab: Id, token: Token)
    requires Sound(s) && token in s.lost
    ensures !CanAttach(s.clients, tab, token)
  {
    forall i | 0 <= i < |Of(s.clients, tab)| ensures Of(s.clients, tab)[i].token != token {
      assert Holds(s.clients, tab, i);
    }
  }
}
