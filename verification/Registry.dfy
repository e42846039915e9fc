/** Tabs and sessions: what every manager call keeps, spawn failures included. */
module Registry {
  import opened Layouts

  datatype State = State(tabs: map<Id, Layout>, sessions: set<Id>)

  /** One manager call, with the ids it draws and what its spawns come to. */
  datatype Call =
    | CreateTab(tab: Id, drawn: Id, ok: bool)
    | SplitPane(tab: Id, id: Id, dir: string, drawn: Id, ok: bool)
    | ClosePane(tab: Id, id: Id, drawn: Id, ok: bool)
    | ReplaceSessions(tab: Id, ids: seq<Id>, good: nat)
    | UpdateTab(tab: Id, layout: Layout)
    | DeleteTab(tab: Id, kill: bool)
    | DeleteSession(id: Id)

  /** The sessions of a list, those without an id left out. */
  function Named(ids: seq<Id>): set<Id> { set id | id in ids && id != "" }

  function SplitCall(s: State, c: Call): State
    requires c.SplitPane?
  {
    if c.tab !in s.tabs || c.id !in Panes(s.tabs[c.tab]) || !c.ok then s
    else s.(tabs := s.tabs[c.tab := SplitAt(s.tabs[c.tab], c.id, c.drawn, c.dir).0], sessions := s.sessions + {c.drawn})
  }

  function CloseCall(s: State, c: Call): State
    requires c.ClosePane?
  {
    if c.tab !in s.tabs || c.id !in Panes(s.tabs[c.tab]) then s
    else if s.tabs[c.tab] == Pane(c.id) then
      // The last pane: a replacement keeps the tab alive.
      if c.ok then State(s.tabs[c.tab := Pane(c.drawn)], s.sessions + {c.drawn} - {c.id}) else s
    else
      var (l, found) := CloseAt(s.tabs[c.tab], c.id);
      if found then State(s.tabs[c.tab := l], s.sessions - {c.id}) else s
  }

  function ReplaceCall(s: State, c: Call): State
    requires c.ReplaceSessions?
  {
    if c.tab !in s.tabs || |c.ids| != |Panes(s.tabs[c.tab])| || c.good < |c.ids| then s
    else
      var l := s.tabs[c.tab];
      State(s.tabs[c.tab := Renamed(l, c.ids)], s.sessions + (set id | id in c.ids) - Named(Panes(l)))
  }

  function Do(s: State, c: Call): State {
    match c
    case CreateTab(tab, drawn, ok) => if ok then State(s.tabs[tab := Pane(drawn)], s.sessions + {drawn}) else s
    case SplitPane(_, _, _, _, _) => SplitCall(s, c)
    case ClosePane(_, _, _, _) => CloseCall(s, c)
    case ReplaceSessions(_, _, _) => ReplaceCall(s, c)
    case UpdateTab(tab, layout) =>
      if Taken(s, tab, layout) then s.(tabs := s.tabs[tab := layout]) else s
    case DeleteTab(tab, kill) =>
      if tab !in s.tabs then s
      else State(s.tabs - {tab}, if kill then s.sessions - Named(Panes(s.tabs[tab])) else s.sessions)
    case DeleteSession(id) => s.(sessions := s.sessions - {id})
  }

  function Run(s: State, cs: seq<Call>): State
    decreases |cs|
  {
    if cs == [] then s else Run(Do(s, cs[0]), cs[1..])
  }

  // ---------------------------------------------------------------------------
  // Distinct panes, no strays
  // ---------------------------------------------------------------------------

  predicate InTab(s: State, tab: Id, id: Id) { tab in s.tabs && id in Panes(s.tabs[tab]) }

  /** The panes of every tab are distinct, and all have ids. */
  predicate PanesOk(l: Layout) { Distinct(Panes(l)) && "" !in Panes(l) }

  ghost predicate Inv(s: State) {
    && (forall tab :: tab in s.tabs ==> PanesOk(s.tabs[tab]))
    && (forall tab, other, id :: InTab(s, tab, id) && InTab(s, other, id) ==> tab == other)
    && (forall id :: id in s.sessions ==> exists tab :: InTab(s, tab, id))
  }

  /** An id nothing uses yet, as a random draw gives. */
  ghost predicate Unused(s: State, id: Id) { id != "" && id !in s.sessions && forall tab :: !InTab(s, tab, id) }

  /** The layout a client sends for a tab is taken. */
  predicate Taken(s: State, tab: Id, layout: Layout) { tab in s.tabs && Matches(layout, Panes(s.tabs[tab])) }

  /** Draws are unused and different; layouts taken from clients have ids on all
      panes; tabs are deleted with their sessions. */
  ghost predicate Orderly(s: State, c: Call) {
    match c
    case CreateTab(tab, drawn, _) => tab !in s.tabs && Unused(s, drawn)
    case SplitPane(_, _, _, drawn, _) => Unused(s, drawn)
    case ClosePane(_, _, drawn, _) => Unused(s, drawn)
    case ReplaceSessions(_, ids, _) => Distinct(ids) && forall id :: id in ids ==> Unused(s, id)
    case UpdateTab(tab, layout) => Taken(s, tab, layout) ==> "" !in Panes(layout)
    case DeleteTab(_, kill) => kill
    case DeleteSession(_) => true
  }

  ghost predicate AllOrderly(s: State, cs: seq<Call>)
    decreases |cs|
  {
    cs != [] ==> Orderly(s, cs[0]) && AllOrderly(Do(s, cs[0]), cs[1..])
  }

  /** One tab changed to a layout of old and unused panes, the sessions kept or
      replaced along. */
  lemma TabChanged(s: State, s': State, tab: Id, l: Layout)
    requires Inv(s) && PanesOk(l) && s'.tabs == s.tabs[tab := l]
    requires forall id :: id in Panes(l) ==> InTab(s, tab, id) || Unused(s, id)
    requires forall id :: id in s'.sessions ==> id in Panes(l) || (id in s.sessions && !InTab(s, tab, id))
    ensures Inv(s')
  {
    forall t, u, id | InTab(s', t, id) && InTab(s', u, id) ensures t == u {
      assert t != tab ==> InTab(s, t, id);
      assert u != tab ==> InTab(s, u, id);
    }
    forall id | id in s'.sessions ensures exists t :: InTab(s', t, id) {
      if id in Panes(l) {
        assert InTab(s', tab, id);
      } else {
        var t :| InTab(s, t, id);
        assert InTab(s', t, id);
      }
    }
  }

  lemma InsertedIs(ids: seq<Id>, k: nat, x: Id)
    requires k < |ids| && Distinct(ids) && x !in ids
    ensures Distinct(Inserted(ids, k, x)) && forall id :: id in Inserted(ids, k, x) <==> id in ids || id == x
  {
    var a, b := ids[..k + 1], ids[k + 1..];
    assert ids == a + b;
    DistinctParts(a, b);
    DistinctJoin([x], b);
    DistinctJoin(a, [x] + b);
    assert Inserted(ids, k, x) == a + ([x] + b);
  }

  lemma RemovedIs(ids: seq<Id>, k: nat)
    requires k < |ids| && Distinct(ids)
    ensures Distinct(Removed(ids, k)) && forall id :: id in Removed(ids, k) <==> id in ids && id != ids[k]
  {
    var a, b := ids[..k], ids[k + 1..];
    assert ids == a + ([ids[k]] + b);
    DistinctParts(a, [ids[k]] + b);
    DistinctParts([ids[k]], b);
    assert ids[k] in [ids[k]] + b && ids[k] in [ids[k]];
    DistinctJoin(a, b);
  }

  lemma DistinctJoin(a: seq<Id>, b: seq<Id>)
    requires Distinct(a) && Distinct(b) && forall x :: x in a ==> x !in b
    ensures Distinct(a + b)
  {
    var s := a + b;
    forall i, j | 0 <= i < j < |s| ensures s[i] != s[j] {
      if i < |a| <= j {
        assert s[i] in a && s[j] in b;
      }
    }
  }

  lemma SplitKeeps(s: State, c: Call)
    requires Inv(s) && Orderly(s, c) && c.SplitPane?
    ensures Inv(SplitCall(s, c))
  {
    hide Distinct, Inserted, IndexOf;
    var s' := SplitCall(s, c);
    if s' != s {
      var l := s.tabs[c.tab];
      assert PanesOk(l);
      SplitInserts(l, c.id, c.drawn, c.dir);
      assert !InTab(s, c.tab, c.drawn);
      InsertedIs(Panes(l), IndexOf(Panes(l), c.id), c.drawn);
      var l' := s'.tabs[c.tab];
      assert forall id :: id in Panes(l) ==> InTab(s, c.tab, id);
      TabChanged(s, s', c.tab, l');
    }
  }

  lemma CloseKeeps(s: State, c: Call)
    requires Inv(s) && Orderly(s, c) && c.ClosePane?
    ensures Inv(CloseCall(s, c))
  {
    hide Distinct, Removed, IndexOf;
    var s' := CloseCall(s, c);
    if s' != s {
      var l := s.tabs[c.tab];
      assert PanesOk(l);
      var l' := s'.tabs[c.tab];
      assert forall id :: id in Panes(l) <==> InTab(s, c.tab, id);
      if l.Pane? {
        LonePanes(c.drawn);
        LonePanes(l.id);
      } else {
        CloseRemoves(l, c.id);
        IndexFirst(Panes(l), c.id);
        RemovedIs(Panes(l), IndexOf(Panes(l), c.id));
      }
      TabChanged(s, s', c.tab, l');
    }
  }

  lemma LonePanes(id: Id)
    ensures Distinct([id]) && Panes(Pane(id)) == [id]
  {
  }

  lemma ReplaceKeeps(s: State, c: Call)
    requires Inv(s) && Orderly(s, c) && c.ReplaceSessions?
    ensures Inv(ReplaceCall(s, c))
  {
    hide Distinct, Renamed;
    var s' := ReplaceCall(s, c);
    if s' != s {
      var l := s.tabs[c.tab];
      assert PanesOk(l);
      RenamedPanes(l, c.ids);
      TabChanged(s, s', c.tab, Renamed(l, c.ids));
    }
  }

  /** A layout a client sends keeps the invariant if and only if it is refused or
      names all its panes. */
  lemma UpdateExactly(s: State, c: Call)
    requires Inv(s) && c.UpdateTab?
    ensures Inv(Do(s, c)) <==> Orderly(s, c)
  {
    hide Distinct, Matches;
    if Taken(s, c.tab, c.layout) {
      if "" !in Panes(c.layout) {
        UpdateTaken(s, c);
      } else {
        assert c.tab in Do(s, c).tabs && !PanesOk(Do(s, c).tabs[c.tab]);
      }
    }
  }

  lemma UpdateTaken(s: State, c: Call)
    requires Inv(s) && c.UpdateTab? && Taken(s, c.tab, c.layout) && "" !in Panes(c.layout)
    ensures Inv(Do(s, c))
  {
    hide Distinct, Matches;
    var l := s.tabs[c.tab];
    assert PanesOk(l);
    MatchesMeans(c.layout, Panes(l));
    AllWithId(Panes(c.layout));
    SameIds(Panes(c.layout), Panes(l));
    assert forall id :: id in Panes(l) <==> InTab(s, c.tab, id);
    forall id | id in s.sessions ensures id in Panes(c.layout) || !InTab(s, c.tab, id) {
    }
    TabChanged(s, Do(s, c), c.tab, c.layout);
  }

  lemma SameIds(a: seq<Id>, b: seq<Id>)
    requires multiset(a) == multiset(b) && Distinct(b)
    ensures Distinct(a) && forall id :: id in a <==> id in b
  {
    assert forall id :: id in a <==> id in multiset(a);
    assert forall id :: id in b <==> id in multiset(b);
    forall i, j | 0 <= i < j < |a| ensures a[i] != a[j] {
      if a[i] == a[j] {
        CountTwice(a, i, j);
        CountDistinct(b, a[i]);
      }
    }
  }

  lemma CountTwice(a: seq<Id>, i: nat, j: nat)
    requires i < j < |a| && a[i] == a[j]
    ensures multiset(a)[a[i]] >= 2
  {
    var x, y, z := a[..i], a[i + 1..j], a[j + 1..];
    assert a == x + [a[i]] + y + [a[j]] + z;
    assert multiset(a) == multiset(x) + multiset{a[i]} + multiset(y) + multiset{a[j]} + multiset(z);
  }

  lemma DeleteKeeps(s: State, c: Call)
    requires Inv(s) && Orderly(s, c) && c.DeleteTab?
    ensures Inv(Do(s, c))
  {
    hide Distinct;
    var s' := Do(s, c);
    forall t, u, id | InTab(s', t, id) && InTab(s', u, id) ensures t == u {
      assert InTab(s, t, id) && InTab(s, u, id);
    }
    if c.tab in s.tabs {
      assert PanesOk(s.tabs[c.tab]);
      forall id | id in s'.sessions ensures exists t :: InTab(s', t, id) {
        var t :| InTab(s, t, id);
        assert t != c.tab;
        assert InTab(s', t, id);
      }
    }
  }

  lemma CreateKeeps(s: State, c: Call)
    requires Inv(s) && Orderly(s, c) && c.CreateTab?
    ensures Inv(Do(s, c))
  {
    hide Distinct;
    if c.ok {
      LonePanes(c.drawn);
      TabChanged(s, Do(s, c), c.tab, Pane(c.drawn));
    }
  }

  lemma DropKeeps(s: State, id: Id)
    requires Inv(s)
    ensures Inv(Do(s, DeleteSession(id)))
  {
    hide Distinct;
    var s' := Do(s, DeleteSession(id));
    forall i | i in s'.sessions ensures exists t :: InTab(s', t, i) {
      var t :| InTab(s, t, i);
      assert InTab(s', t, i);
    }
    forall t, u, i | InTab(s', t, i) && InTab(s', u, i) ensures t == u {
      assert InTab(s, t, i) && InTab(s, u, i);
    }
  }

  lemma DoKeeps(s: State, c: Call)
    requires Inv(s) && Orderly(s, c)
    ensures Inv(Do(s, c))
  {
    hide Inv, Orderly, SplitCall, CloseCall, ReplaceCall;
    match c
    case CreateTab(_, _, _) => CreateKeeps(s, c);
    case SplitPane(_, _, _, _, _) => SplitKeeps(s, c);
    case ClosePane(_, _, _, _) => CloseKeeps(s, c);
    case ReplaceSessions(_, _, _) => ReplaceKeeps(s, c);
    case UpdateTab(_, _) => UpdateExactly(s, c);
    case DeleteTab(_, _) => DeleteKeeps(s, c);
    case DeleteSession(id) => DropKeeps(s, id);
  }

  /** The registry invariant over all runs: pane ids are distinct within and across
      tabs, and every registered session is a pane of exactly one tab. */
  lemma {:induction false} RunKeeps(s: State, cs: seq<Call>)
    requires Inv(s) && AllOrderly(s, cs)
    ensures Inv(Run(s, cs))
    decreases |cs|
  {
    hide Inv, Orderly, Do;
    if cs != [] {
      DoKeeps(s, cs[0]);
      RunKeeps(Do(s, cs[0]), cs[1..]);
    }
  }

  /** Deleting a tab without its sessions leaves strays: exactly those it had. */
  lemma DeleteStrays(s: State, tab: Id)
    requires Inv(s) && tab in s.tabs
    ensures var s' := Do(s, DeleteTab(tab, false));
      Inv(s') <==> forall id :: InTab(s, tab, id) ==> id !in s.sessions
  {
    var s' := Do(s, DeleteTab(tab, false));
    if Inv(s') {
      forall id | InTab(s, tab, id) ensures id !in s.sessions {
        if id in s.sessions {
          var t :| InTab(s', t, id);
          assert InTab(s, t, id);
        }
      }
    }
    if forall id :: InTab(s, tab, id) ==> id !in s.sessions {
      forall id | id in s'.sessions ensures exists t :: InTab(s', t, id) {
        var t :| InTab(s, t, id);
        assert InTab(s', t, id);
      }
      forall t, u, id | InTab(s', t, id) && InTab(s', u, id) ensures t == u {
        assert InTab(s, t, id) && InTab(s, u, id);
      }
    }
  }

  /** Starting up: sessions no tab refers to are swept. */
  function Swept(s: State): State { s.(sessions := set id | id in s.sessions && exists tab :: tab in s.tabs && id in Panes(s.tabs[tab])) }

  lemma SweepRestores(s: State)
    requires forall tab :: tab in s.tabs ==> PanesOk(s.tabs[tab])
    requires forall tab, other, id :: InTab(s, tab, id) && InTab(s, other, id) ==> tab == other
    ensures Inv(Swept(s)) && (Inv(s) ==> Swept(s) == s)
  {
    var s' := Swept(s);
    forall id | id in s'.sessions ensures exists t :: InTab(s', t, id) {
      var t :| t in s.tabs && id in Panes(s.tabs[t]);
      assert InTab(s', t, id);
    }
    forall t, u, id | InTab(s', t, id) && InTab(s', u, id) ensures t == u {
      assert InTab(s, t, id) && InTab(s, u, id);
    }
    if Inv(s) {
      forall id | id in s.sessions ensures id in s'.sessions {
        var t :| InTab(s, t, id);
      }
    }
  }

  // ---------------------------------------------------------------------------
  // The registry in place
  // ---------------------------------------------------------------------------

  class Manager {
    var tabs: map<Id, Layout>
    var sessions: set<Id>

    function View(): State
      reads this
    {
      State(tabs, sessions)
    }

    constructor ()
      ensures View() == State(map[], {})
    {
      tabs, sessions := map[], {};
    }

    method CreateTabCall(tab: Id, drawn: Id, ok: bool) returns (done: bool)
      modifies this
      ensures View() == Do(old(View()), CreateTab(tab, drawn, ok)) && done == ok
    {
      if !ok {
        return false;
      }
      sessions := sessions + {drawn};
      tabs := tabs[tab := Pane(drawn)];
      done := true;
    }

    method DropSession(id: Id) returns (found: bool)
      modifies this`sessions
      ensures View() == Do(old(View()), DeleteSession(id)) && found == (id in old(sessions))
    {
      found := id in sessions;
      sessions := sessions - {id};
    }

    method Split(tab: Id, id: Id, dir: string, drawn: Id, ok: bool) returns (done: bool)
      modifies this
      ensures View() == Do(old(View()), SplitPane(tab, id, dir, drawn, ok))
      ensures done <==> tab in old(tabs) && id in Panes(old(tabs)[tab]) && ok
    {
      if tab !in tabs || id !in Panes(tabs[tab]) || !ok {
        return false;
      }
      sessions := sessions + {drawn};
      var (l, found) := SplitAt(tabs[tab], id, drawn, dir);
      SplitInserts(tabs[tab], id, drawn, dir);
      tabs := tabs[tab := l];
      done := true;
    }

    method Close(tab: Id, id: Id, drawn: Id, ok: bool) returns (done: bool)
      modifies this
      ensures View() == Do(old(View()), ClosePane(tab, id, drawn, ok))
    {
      if tab !in tabs || id !in Panes(tabs[tab]) {
        return false;
      }
      if tabs[tab] == Pane(id) {
        if !ok {
          return false;
        }
        sessions := sessions + {drawn};
        tabs := tabs[tab := Pane(drawn)];
      } else {
        var (l, found) := CloseAt(tabs[tab], id);
        if !found {
          return false;
        }
        tabs := tabs[tab := l];
      }
      var _ := DropSession(id);
      done := true;
    }

    /** Fresh sessions for all panes of a tab; if a spawn fails, those already
        made are deleted and nothing has changed. */
    method Replace(tab: Id, ids: seq<Id>, good: nat) returns (done: bool)
      requires tab in tabs ==> |ids| == |Panes(tabs[tab])|
      requires forall id :: id in ids ==> id !in sessions
      modifies this
      ensures View() == Do(old(View()), ReplaceSessions(tab, ids, good))
      ensures done <==> tab in old(tabs) && good >= |ids|
    {
      hide Taken, SplitCall, CloseCall, Renamed;
      if tab !in tabs {
        return false;
      }
      var l := tabs[tab];
      for k := 0 to |ids|
        invariant tabs == old(tabs) && k <= good
        invariant sessions == old(sessions) + Firsts(ids, k)
      {
        if k >= good {
          for j := 0 to k
            invariant tabs == old(tabs) && sessions == old(sessions) + (Firsts(ids, k) - Firsts(ids, j))
          {
            var _ := DropSession(ids[j]);
          }
          return false;
        }
        sessions := sessions + {ids[k]};
      }
      tabs := tabs[tab := Renamed(l, ids)];
      var gone := Panes(l);
      for j := 0 to |gone|
        invariant tabs == old(tabs)[tab := Renamed(l, ids)]
        invariant sessions == old(sessions) + Firsts(ids, |ids|) - Named(gone[..j])
      {
        assert gone[..j + 1] == gone[..j] + [gone[j]];
        if gone[j] != "" {
          var _ := DropSession(gone[j]);
        }
      }
      assert gone[..|gone|] == gone;
      done := true;
    }

    method Update(tab: Id, layout: Layout) returns (done: bool)
      modifies this`tabs
      ensures View() == Do(old(View()), UpdateTab(tab, layout))
    {
      if tab !in tabs || !Matches(layout, Panes(tabs[tab])) {
        return false;
      }
      tabs := tabs[tab := layout];
      done := true;
    }

    method Delete(tab: Id, kill: bool) returns (done: bool)
      modifies this
      ensures View() == Do(old(View()), DeleteTab(tab, kill)) && done == (tab in old(tabs))
    {
      if tab !in tabs {
        return false;
      }
      var gone := Panes(tabs[tab]);
      tabs := tabs - {tab};
      if kill {
        for j := 0 to |gone|
          invariant tabs == old(tabs) - {tab} && sessions == old(sessions) - Named(gone[..j])
        {
          assert gone[..j + 1] == gone[..j] + [gone[j]];
          if gone[j] != "" {
            var _ := DropSession(gone[j]);
          }
        }
        assert gone[..|gone|] == gone;
      }
      done := true;
    }
  }

  function Firsts(ids: seq<Id>, k: nat): set<Id>
    requires k <= |ids|
  {
    set j | 0 <= j < k :: ids[j]
  }
}
