/** Who owns a tab: connections that register, resume, take over and leave. */
module Ownership {
  import Layouts

  type Id = string
  type Token = string

  /** A registered connection; the handle tells two with the same token apart. */
  datatype Client = Client(handle: nat, token: Token)

  /** The clients of every tab, and what was drawn and lost so far. */
  datatype State = State(clients: map<Id, seq<Client>>, handles: set<nat>, drawn: set<Token>, lost: set<Token>)

  const START := State(map[], {}, {}, {})

  function Of(m: map<Id, seq<Client>>, tab: Id): seq<Client> { if tab in m then m[tab] else [] }

  /** The position of the first client that holds a token, or the length. */
  function Holder(cs: seq<Client>, token: Token): (i: nat)
    ensures i <= |cs| && (i < |cs| ==> cs[i].token == token)
    ensures forall j :: 0 <= j < i ==> cs[j].token != token
  {
    if cs == [] || cs[0].token == token then 0 else 1 + Holder(cs[1..], token)
  }

  /** The list without the first entry of a handle. */
  function Without(cs: seq<Client>, handle: nat): seq<Client> {
    if cs == [] then [] else if cs[0].handle == handle then cs[1..] else [cs[0]] + Without(cs[1..], handle)
  }

  function Put(m: map<Id, seq<Client>>, tab: Id, cs: seq<Client>): map<Id, seq<Client>> {
    if cs == [] then m - {tab} else m[tab := cs]
  }

  // ---------------------------------------------------------------------------
  // The manager's operations
  // ---------------------------------------------------------------------------

  /** ResumeTabClient: the client holding the token is replaced, its token kept. */
  function Resumed(m: map<Id, seq<Client>>, tab: Id, token: Token, handle: nat): map<Id, seq<Client>> {
    var cs := Of(m, tab);
    var i := Holder(cs, token);
    if token == "" || i == |cs| then m else m[tab := cs[i := Client(handle, token)]]
  }

  predicate Resumes(m: map<Id, seq<Client>>, tab: Id, token: Token) {
    token != "" && Holder(Of(m, tab), token) < |Of(m, tab)|
  }

  function Registered(m: map<Id, seq<Client>>, tab: Id, c: Client): map<Id, seq<Client>> { m[tab := Of(m, tab) + [c]] }

  function Unregistered(m: map<Id, seq<Client>>, tab: Id, handle: nat): map<Id, seq<Client>> {
    Put(m, tab, Without(Of(m, tab), handle))
  }

  function Disconnected(m: map<Id, seq<Client>>, tab: Id): map<Id, seq<Client>> { m - {tab} }

  predicate CanAttach(m: map<Id, seq<Client>>, tab: Id, token: Token) { exists i :: 0 <= i < |Of(m, tab)| && Of(m, tab)[i].token == token }

  // ---------------------------------------------------------------------------
  // Connections
  // ---------------------------------------------------------------------------

  /** A connection that resumes or finds the tab free; one that was told of the
      conflict and takes over; a handler that ends; a tab that is deleted. */
  datatype Event =
    | Connect(tab: Id, handle: nat, resume: Token, draw: Token)
    | TakeOver(tab: Id, handle: nat, draw: Token)
    | Leave(tab: Id, handle: nat)
    | Delete(tab: Id)

  function Tokens(cs: seq<Client>): set<Token> { set i | 0 <= i < |cs| :: cs[i].token }

  function Join(s: State, tab: Id, c: Client): State {
    s.(clients := Registered(s.clients, tab, c), handles := s.handles + {c.handle}, drawn := s.drawn + {c.token})
  }

  function Evict(s: State, tab: Id): State {
    s.(clients := Disconnected(s.clients, tab), lost := s.lost + Tokens(Of(s.clients, tab)))
  }

  function Step(s: State, ev: Event): State {
    match ev
    case Connect(tab, handle, resume, token) =>
      if Resumes(s.clients, tab, resume) then
        s.(clients := Resumed(s.clients, tab, resume, handle), handles := s.handles + {handle})
      else if Of(s.clients, tab) == [] then Join(s, tab, Client(handle, token))
      else s
    case TakeOver(tab, handle, token) => Join(Evict(s, tab), tab, Client(handle, token))
    case Leave(tab, handle) => s.(clients := Unregistered(s.clients, tab, handle))
    case Delete(tab) => Evict(s, tab)
  }

  function Run(s: State, evs: seq<Event>): State
    decreases |evs|
  {
    if evs == [] then s else Run(Step(s, evs[0]), evs[1..])
  }

  /** Handles and tokens are drawn anew. */
  predicate Drawn(s: State, ev: Event) {
    match ev
    case Connect(_, handle, _, token) => handle !in s.handles && token !in s.drawn && token != ""
    case TakeOver(_, handle, token) => handle !in s.handles && token !in s.drawn && token != ""
    case _ => true
  }

  predicate AllDrawn(s: State, evs: seq<Event>)
    decreases |evs|
  {
    evs != [] ==> Drawn(s, evs[0]) && AllDrawn(Step(s, evs[0]), evs[1..])
  }

  // ---------------------------------------------------------------------------
  // At most one owner, and no way back
  // ---------------------------------------------------------------------------

  predicate TabOk(s: State, tab: Id) {
    var cs := Of(s.clients, tab);
    |cs| <= 1 && (cs != [] ==> cs[0].handle in s.handles && cs[0].token in s.drawn && cs[0].token !in s.lost)
  }

  /** One client per tab at most; no tab's client holds a token another tab's does,
      nor one that was lost. */
  ghost predicate Inv(s: State) {
    && (forall tab :: TabOk(s, tab))
    && (forall tab, other :: tab != other && Of(s.clients, tab) != [] && Of(s.clients, other) != [] ==>
          Of(s.clients, tab)[0].token != Of(s.clients, other)[0].token)
    && s.lost <= s.drawn
  }

  lemma OfPut(m: map<Id, seq<Client>>, tab: Id, cs: seq<Client>, other: Id)
    ensures Of(Put(m, tab, cs), other) == if other == tab then cs else Of(m, other)
    ensures Of(m[tab := cs], other) == if other == tab then cs else Of(m, other)
    ensures Of(m - {tab}, other) == if other == tab then [] else Of(m, other)
  {
  }

  lemma EvictKeeps(s: State, tab: Id)
    requires Inv(s)
    ensures Inv(Evict(s, tab)) && Of(Evict(s, tab).clients, tab) == []
  {
    var s' := Evict(s, tab);
    assert TabOk(s, tab);
    forall other ensures TabOk(s', other) {
      assert TabOk(s, other);
      OfPut(s.clients, tab, [], other);
    }
    forall a, b | a != b && Of(s'.clients, a) != [] && Of(s'.clients, b) != []
      ensures Of(s'.clients, a)[0].token != Of(s'.clients, b)[0].token
    {
      OfPut(s.clients, tab, [], a);
      OfPut(s.clients, tab, [], b);
    }
    OfPut(s.clients, tab, [], tab);
  }

  lemma JoinKeeps(s: State, tab: Id, c: Client)
    requires Inv(s) && Of(s.clients, tab) == [] && c.handle !in s.handles && c.token !in s.drawn
    ensures Inv(Join(s, tab, c))
  {
    var s' := Join(s, tab, c);
    forall other ensures TabOk(s', other) {
      assert TabOk(s, other);
      OfPut(s.clients, tab, [c], other);
    }
    forall a, b | a != b && Of(s'.clients, a) != [] && Of(s'.clients, b) != []
      ensures Of(s'.clients, a)[0].token != Of(s'.clients, b)[0].token
    {
      assert TabOk(s, a) && TabOk(s, b);
      OfPut(s.clients, tab, [c], a);
      OfPut(s.clients, tab, [c], b);
    }
  }

  lemma ResumeKeeps(s: State, tab: Id, token: Token, handle: nat)
    requires Inv(s) && Resumes(s.clients, tab, token)
    ensures Inv(s.(clients := Resumed(s.clients, tab, token, handle), handles := s.handles + {handle}))
    ensures Of(Resumed(s.clients, tab, token, handle), tab) == [Client(handle, token)]
    ensures |Of(s.clients, tab)| == 1 && Of(s.clients, tab)[0].token == token
  {
    assert TabOk(s, tab);
    var s' := s.(clients := Resumed(s.clients, tab, token, handle), handles := s.handles + {handle});
    var cs := [Client(handle, token)];
    assert Of(s.clients, tab)[0 := Client(handle, token)] == cs;
    forall other ensures TabOk(s', other) {
      assert TabOk(s, other);
      OfPut(s.clients, tab, cs, other);
    }
    forall a, b | a != b && Of(s'.clients, a) != [] && Of(s'.clients, b) != []
      ensures Of(s'.clients, a)[0].token != Of(s'.clients, b)[0].token
    {
      OfPut(s.clients, tab, cs, a);
      OfPut(s.clients, tab, cs, b);
    }
  }

  lemma WithoutOne(cs: seq<Client>, handle: nat)
    requires |cs| <= 1
    ensures Without(cs, handle) == if cs != [] && cs[0].handle == handle then [] else cs
  {
    if cs != [] {
      assert cs[1..] == [] && [cs[0]] + [] == cs;
    }
  }

  lemma LeaveKeeps(s: State, tab: Id, handle: nat)
    requires Inv(s)
    ensures Inv(Step(s, Leave(tab, handle)))
    ensures var cs, cs' := Of(s.clients, tab), Of(Step(s, Leave(tab, handle)).clients, tab);
      cs' == if cs != [] && cs[0].handle == handle then [] else cs
  {
    assert TabOk(s, tab);
    var s' := Step(s, Leave(tab, handle));
    var cs := Without(Of(s.clients, tab), handle);
    WithoutOne(Of(s.clients, tab), handle);
    OfPut(s.clients, tab, cs, tab);
    forall other ensures TabOk(s', other) {
      assert TabOk(s, other);
      OfPut(s.clients, tab, cs, other);
    }
    forall a, b | a != b && Of(s'.clients, a) != [] && Of(s'.clients, b) != []
      ensures Of(s'.clients, a)[0].token != Of(s'.clients, b)[0].token
    {
      OfPut(s.clients, tab, cs, a);
      OfPut(s.clients, tab, cs, b);
    }
  }

  lemma StepKeeps(s: State, ev: Event)
    requires Inv(s) && Drawn(s, ev)
    ensures Inv(Step(s, ev)) && s.lost <= Step(s, ev).lost
  {
    hide Inv, TabOk, Resumes, Resumed, Disconnected, Unregistered, Registered, Tokens;
    match ev
    case Connect(tab, handle, resume, token) =>
      if Resumes(s.clients, tab, resume) {
        ResumeKeeps(s, tab, resume, handle);
      } else if Of(s.clients, tab) == [] {
        JoinKeeps(s, tab, Client(handle, token));
      }
    case TakeOver(tab, handle, token) =>
      EvictKeeps(s, tab);
      JoinKeeps(Evict(s, tab), tab, Client(handle, token));
    case Leave(tab, handle) => LeaveKeeps(s, tab, handle);
    case Delete(tab) => EvictKeeps(s, tab);
  }

  lemma {:induction false} RunKeeps(s: State, evs: seq<Event>)
    requires Inv(s) && AllDrawn(s, evs)
    ensures Inv(Run(s, evs)) && s.lost <= Run(s, evs).lost
    decreases |evs|
  {
    hide Inv, Step, Drawn;
    if evs != [] {
      StepKeeps(s, evs[0]);
      RunKeeps(Step(s, evs[0]), evs[1..]);
    }
  }

  lemma StartInv()
    ensures Inv(START)
  {
  }

  /** With check and registration in one step, ownership is safe over all runs: a tab never has two clients, and a token lost
      to a takeover or a deletion never lets anyone attach again, on any tab. */
  lemma OwnershipSafe(before: seq<Event>, tab: Id, ev: Event, after: seq<Event>, token: Token, any: Id)
    requires AllDrawn(START, before) && ev.tab == tab && (ev.TakeOver? || ev.Delete?)
    requires Drawn(Run(START, before), ev) && AllDrawn(Step(Run(START, before), ev), after)
    requires CanAttach(Run(START, before).clients, tab, token)
    ensures var s := Run(Step(Run(START, before), ev), after);
      |Of(s.clients, any)| <= 1 && !CanAttach(s.clients, any, token)
  {
    hide Inv, Step, Drawn, Run;
    StartInv();
    RunKeeps(START, before);
    var s0 := Run(START, before);
    Evicted(s0, ev, token);
    StepKeeps(s0, ev);
    RunKeeps(Step(s0, ev), after);
    LostShut(Run(Step(s0, ev), after), any, token);
  }

  lemma Evicted(s: State, ev: Event, token: Token)
    requires (ev.TakeOver? || ev.Delete?) && CanAttach(s.clients, ev.tab, token)
    ensures token in Step(s, ev).lost
  {
  }

  lemma LostShut(s: State, tab: Id, token: Token)
    requires Inv(s) && token in s.lost
    ensures |Of(s.clients, tab)| <= 1 && !CanAttach(s.clients, tab, token)
  {
    assert TabOk(s, tab);
  }

  /** The connection a resume replaced may leave late: the new owner stays, with
      the same token. */
  lemma LateLeaveHarmless(s: State, tab: Id, token: Token, handle: nat)
    requires Inv(s) && Resumes(s.clients, tab, token) && handle !in s.handles
    ensures var old0 := Of(s.clients, tab)[0].handle;
      var s' := s.(clients := Resumed(s.clients, tab, token, handle), handles := s.handles + {handle});
      Of(Step(s', Leave(tab, old0)).clients, tab) == [Client(handle, token)]
  {
    assert TabOk(s, tab);
    ResumeKeeps(s, tab, token, handle);
    var s' := s.(clients := Resumed(s.clients, tab, token, handle), handles := s.handles + {handle});
    LeaveKeeps(s', tab, Of(s.clients, tab)[0].handle);
  }

  // ---------------------------------------------------------------------------
  // The manager in place
  // ---------------------------------------------------------------------------

  /** Leaving out at or after position i. */
  lemma WithoutFrom(cs: seq<Client>, i: nat, handle: nat)
    requires i <= |cs|
    ensures Without([], handle) == [] && cs[0..] == cs && cs[..|cs|] == cs && cs[|cs|..] == []
    ensures i < |cs| && cs[i].handle == handle ==> Without(cs[i..], handle) == cs[i + 1..]
    ensures i < |cs| && cs[i].handle != handle ==> cs[..i] + Without(cs[i..], handle) == cs[..i + 1] + Without(cs[i + 1..], handle)
  {
    if i < |cs| {
      assert cs[i..][1..] == cs[i + 1..];
      assert cs[..i + 1] == cs[..i] + [cs[i]];
    }
  }

  method RemoveFirst(cs: seq<Client>, handle: nat) returns (left: seq<Client>)
    ensures left == Without(cs, handle)
  {
    hide Without;
    WithoutFrom(cs, 0, handle);
    for i := 0 to |cs|
      invariant Without(cs, handle) == cs[..i] + Without(cs[i..], handle)
    {
      WithoutFrom(cs, i, handle);
      if cs[i].handle == handle {
        return cs[..i] + cs[i + 1..];
      }
    }
    left := cs;
  }

  class TabClients {
    var clients: map<Id, seq<Client>>

    method Resume(tab: Id, token: Token, handle: nat) returns (resumed: bool)
      modifies this
      ensures clients == Resumed(old(clients), tab, token, handle) && resumed == Resumes(old(clients), tab, token)
    {
      if token == "" {
        return false;
      }
      var cs := Of(clients, tab);
      var i := 0;
      while i < |cs| && cs[i].token != token
        invariant i <= |cs| && Holder(cs, token) == i + Holder(cs[i..], token)
      {
        assert cs[i..][1..] == cs[i + 1..];
        i := i + 1;
      }
      if i == |cs| {
        return false;
      }
      clients := clients[tab := cs[i := Client(handle, token)]];
      resumed := true;
    }

    method Register(tab: Id, c: Client)
      modifies this
      ensures clients == Registered(old(clients), tab, c)
    {
      clients := clients[tab := Of(clients, tab) + [c]];
    }

    method Unregister(tab: Id, handle: nat)
      modifies this
      ensures clients == Unregistered(old(clients), tab, handle)
    {
      var cs := RemoveFirst(Of(clients, tab), handle);
      clients := if cs == [] then clients - {tab} else clients[tab := cs];
    }

    method DisconnectOwner(tab: Id) returns (gone: seq<Client>)
      modifies this
      ensures clients == Disconnected(old(clients), tab) && gone == Of(old(clients), tab)
    {
      gone := Of(clients, tab);
      clients := clients - {tab};
    }

    /** The tabs are the manager's, which share its lock with the clients. */
    method CanAttachSession(tabs: map<Id, Layouts.Layout>, tab: Id, session: Id, token: Token) returns (ok: bool)
      ensures ok == (tab in tabs && session in Layouts.Panes(tabs[tab]) && CanAttach(clients, tab, token))
    {
      if tab !in tabs || session !in Layouts.Panes(tabs[tab]) {
        return false;
      }
      var cs := Of(clients, tab);
      for i := 0 to |cs|
        invariant forall j :: 0 <= j < i ==> cs[j].token != token
      {
        if cs[i].token == token {
          return true;
        }
      }
      ok := false;
    }

    /** handleTabWS up to the registration, the answer to a conflict given by
        `takeover`. */
    method Handle(tab: Id, resume: Token, handle: nat, draw: Token, takeover: bool) returns (owner: bool)
      modifies this
      ensures var m := old(clients);
        clients == (if Resumes(m, tab, resume) then Resumed(m, tab, resume, handle)
                    else if Of(m, tab) == [] then Registered(m, tab, Client(handle, draw))
                    else if takeover then Registered(Disconnected(m, tab), tab, Client(handle, draw))
                    else m)
      ensures !owner ==> clients == old(clients)
    {
      owner := Resume(tab, resume, handle);
      if owner {
        return;
      }
      if Of(clients, tab) != [] {
        if !takeover {
          return false;
        }
        var _ := DisconnectOwner(tab);
      }
      Register(tab, Client(handle, draw));
      owner := true;
    }
  }
}
