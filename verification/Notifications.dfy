/** The Android client's check: which machines are new, gone, or have output that
    was not notified yet, and what is remembered from one check to the next. */
module Notifications {
  type Id = string

  datatype Option<T> = None | Some(value: T)

  datatype Machine = Machine(
    id: Id, name: string, wasOnline: bool, lastSeenOnline: Option<int>,
    lastKnownOutput: Option<int>, outputUnknown: bool, notifyEnabled: bool)

  datatype Agent = Agent(id: Id, name: string, hasUrl: bool)

  /** A tab's last output: the field is missing, it holds no time, or a time. */
  datatype Output = Missing | Never | At(ms: int)

  datatype Tabs = Got(tabs: seq<Output>) | Unavailable

  datatype Input = Input(
    remembered: seq<Machine>, live: seq<Agent>, tabs: map<Id, Tabs>,
    seen: map<Id, int>, notified: map<Id, int>, now: int)

  datatype Unseen = Unseen(id: Id, name: string, at: int)
  datatype Gone = Gone(id: Id, name: string, lastSeen: Option<int>)

  datatype Result = Result(remembered: seq<Machine>, unseen: seq<Unseen>, offline: seq<Gone>, notified: map<Id, int>)

  // ---------------------------------------------------------------------------
  // The newest output of a machine
  // ---------------------------------------------------------------------------

  predicate Later(a: Option<int>, b: Option<int>) { b.None? || (a.Some? && a.value >= b.value) }

  function Newest(tabs: seq<Output>): (latest: Option<int>)
    ensures forall i :: 0 <= i < |tabs| && tabs[i].At? ==> latest.Some? && latest.value >= tabs[i].ms
    ensures latest.Some? ==> At(latest.value) in tabs
  {
    if tabs == [] then None
    else
      var front := Newest(tabs[..|tabs| - 1]);
      var t := tabs[|tabs| - 1];
      if t.At? && (front.None? || t.ms > front.value) then Some(t.ms) else front
  }

  /** Newest output, and whether it is unknown: there are tabs, and none reports it. */
  method LatestOutput(tabs: seq<Output>) returns (latest: Option<int>, unknown: bool)
    ensures unknown <==> tabs != [] && forall i :: 0 <= i < |tabs| ==> tabs[i].Missing?
    ensures latest == Newest(tabs)
  {
    if |tabs| == 0 {
      return None, false;
    }
    var sawField := false;
    latest := None;
    for i := 0 to |tabs|
      invariant sawField <==> exists j :: 0 <= j < i && !tabs[j].Missing?
      invariant latest == Newest(tabs[..i])
    {
      assert tabs[..i + 1][..i] == tabs[..i];
      match tabs[i]
      case Missing =>
      case Never => sawField := true;
      case At(ms) =>
        sawField := true;
        if latest.None? || ms > latest.value {
          latest := Some(ms);
        }
    }
    assert tabs[..|tabs|] == tabs;
    unknown := !sawField;
  }

  predicate Unknown(tabs: seq<Output>) { tabs != [] && forall i :: 0 <= i < |tabs| ==> tabs[i].Missing? }

  // ---------------------------------------------------------------------------
  // One check
  // ---------------------------------------------------------------------------

  /** An insertion-ordered map from ids to machines. */
  function Put(ms: seq<Machine>, m: Machine): seq<Machine> {
    if ms == [] then [m] else if ms[0].id == m.id then [m] + ms[1..] else [ms[0]] + Put(ms[1..], m)
  }

  /** The entry of an id; of several the last. */
  function Find(ms: seq<Machine>, id: Id): (m: Option<Machine>)
    ensures m.Some? ==> m.value.id == id && m.value in ms
    ensures m.None? <==> forall i :: 0 <= i < |ms| ==> ms[i].id != id
  {
    if ms == [] then None
    else if ms[|ms| - 1].id == id then Some(ms[|ms| - 1])
    else Find(ms[..|ms| - 1], id)
  }

  predicate IsLive(live: seq<Agent>, id: Id) { exists i :: 0 <= i < |live| && live[i].id == id }

  function Fallback(m: map<Id, int>, id: Id): int { if id in m then m[id] else 0 }

  /** A live machine as it is remembered, before its output is looked at. */
  function Refreshed(input: Input, agent: Agent): Machine {
    var prev := Find(input.remembered, agent.id);
    var m := if prev.Some? then prev.value else Machine(agent.id, "", false, None, None, false, true);
    m.(name := agent.name, wasOnline := true, lastSeenOnline := Some(input.now))
  }

  /** Output seen in this check: None when it is unknown, not fetched, or none yet. */
  function Observed(input: Input, id: Id): Option<int> {
    if id in input.tabs && input.tabs[id].Got? && !Unknown(input.tabs[id].tabs) then Newest(input.tabs[id].tabs) else None
  }

  function Updated(input: Input, agent: Agent): Machine {
    var m := Refreshed(input, agent);
    if agent.id in input.tabs && input.tabs[agent.id].Got? then
      var latest := Observed(input, agent.id);
      var m := m.(outputUnknown := Unknown(input.tabs[agent.id].tabs));
      if latest.Some? && (m.lastKnownOutput.None? || latest.value > m.lastKnownOutput.value) then m.(lastKnownOutput := latest) else m
    else m
  }

  /** The output is new to the user and to the notifier. */
  predicate IsNews(input: Input, agent: Agent) {
    var latest := Observed(input, agent.id);
    latest.Some? && Refreshed(input, agent).notifyEnabled
    && latest.value > Fallback(input.seen, agent.id) && latest.value > Fallback(input.notified, agent.id)
  }

  function LiveStep(input: Input, r: Result, agent: Agent): Result {
    var latest := Observed(input, agent.id);
    var r' := r.(remembered := Put(r.remembered, Updated(input, agent)));
    if IsNews(input, agent) then
      r'.(unseen := r.unseen + [Unseen(agent.id, agent.name, latest.value)], notified := r.notified[agent.id := latest.value])
    else r'
  }

  function GoneStep(input: Input, r: Result, m: Machine): Result {
    if IsLive(input.live, m.id) then r
    else if m.wasOnline then
      r.(remembered := Put(r.remembered, m.(wasOnline := false)), offline := r.offline + [Gone(m.id, m.name, m.lastSeenOnline)])
    else r.(remembered := Put(r.remembered, m))
  }

  /** The first k live agents. */
  function LivePass(input: Input, k: nat): Result
    requires k <= |input.live|
  {
    if k == 0 then Result([], [], [], input.notified) else LiveStep(input, LivePass(input, k - 1), input.live[k - 1])
  }

  /** All live agents and the first k remembered machines. */
  function GonePass(input: Input, k: nat): Result
    requires k <= |input.remembered|
  {
    if k == 0 then LivePass(input, |input.live|) else GoneStep(input, GonePass(input, k - 1), input.remembered[k - 1])
  }

  function Check(input: Input): Result { GonePass(input, |input.remembered|) }

  method ContainsKey(live: seq<Agent>, id: Id) returns (b: bool)
    ensures b == IsLive(live, id)
  {
    for i := 0 to |live|
      invariant forall j :: 0 <= j < i ==> live[j].id != id
    {
      if live[i].id == id {
        return true;
      }
    }
    b := false;
  }

  /** One live agent: remembered, and notified if its output is news. */
  method PassAgent(input: Input, r: Result, agent: Agent) returns (r': Result)
    ensures r' == LiveStep(input, r, agent)
  {
    hide Put, Find, Newest, Unknown, Fallback, Refreshed;
    var m := Refreshed(input, agent);
    var unseen, notified := r.unseen, r.notified;
    if agent.id in input.tabs && input.tabs[agent.id].Got? {
      var latest, unknown := LatestOutput(input.tabs[agent.id].tabs);
      UnknownIs(input.tabs[agent.id].tabs, unknown);
      m := m.(outputUnknown := unknown);
      if !unknown && latest.Some? {
        if m.lastKnownOutput.None? || latest.value > m.lastKnownOutput.value {
          m := m.(lastKnownOutput := latest);
        }
        var watermark, already := Fallback(input.seen, agent.id), Fallback(input.notified, agent.id);
        if m.notifyEnabled && latest.value > watermark && latest.value > already {
          unseen := unseen + [Unseen(agent.id, agent.name, latest.value)];
          notified := notified[agent.id := latest.value];
        }
      }
    }
    r' := Result(Put(r.remembered, m), unseen, r.offline, notified);
  }

  /** First pass: every live agent. */
  method PassLive(input: Input) returns (r: Result)
    ensures r == LivePass(input, |input.live|)
  {
    r := Result([], [], [], input.notified);
    for k := 0 to |input.live|
      invariant r == LivePass(input, k)
    {
      hide LiveStep;
      r := PassAgent(input, r, input.live[k]);
    }
  }

  method ComputeCheck(input: Input) returns (r: Result)
    ensures r == Check(input)
  {
    r := PassLive(input);
    for k := 0 to |input.remembered|
      invariant r == GonePass(input, k)
    {
      var m := input.remembered[k];
      var live := ContainsKey(input.live, m.id);
      if live {
        continue;
      }
      if m.wasOnline {
        r := r.(remembered := Put(r.remembered, m.(wasOnline := false)), offline := r.offline + [Gone(m.id, m.name, m.lastSeenOnline)]);
      } else {
        r := r.(remembered := Put(r.remembered, m));
      }
    }
  }

  lemma UnknownIs(tabs: seq<Output>, unknown: bool)
    requires unknown <==> tabs != [] && forall i :: 0 <= i < |tabs| ==> tabs[i].Missing?
    ensures unknown == Unknown(tabs)
  {
  }

  // ---------------------------------------------------------------------------
  // What a check remembers
  // ---------------------------------------------------------------------------

  predicate Unique(ms: seq<Machine>) { forall i, j :: 0 <= i < j < |ms| ==> ms[i].id != ms[j].id }

  lemma FindUnique(ms: seq<Machine>, i: nat)
    requires Unique(ms) && i < |ms|
    ensures Find(ms, ms[i].id) == Some(ms[i])
  {
  }

  lemma FindNone(ms: seq<Machine>, id: Id)
    requires forall i :: 0 <= i < |ms| ==> ms[i].id != id
    ensures Find(ms, id) == None
  {
  }

  lemma {:induction false} PutIs(ms: seq<Machine>, m: Machine)
    requires Unique(ms)
    ensures var ms' := Put(ms, m);
      && Unique(ms')
      && (forall x :: x in ms' <==> x == m || (x in ms && x.id != m.id))
    decreases |ms|
  {
    if ms != [] {
      assert ms == [ms[0]] + ms[1..];
      if ms[0].id == m.id {
        forall x | x in ms[1..] ensures x.id != m.id {
        }
      } else {
        PutIs(ms[1..], m);
        var rest := Put(ms[1..], m);
        forall j | 0 <= j < |rest| ensures rest[j].id != ms[0].id {
          assert rest[j] in rest;
        }
      }
    }
  }

  lemma FindPut(ms: seq<Machine>, m: Machine, id: Id)
    requires Unique(ms)
    ensures Unique(Put(ms, m)) && Find(Put(ms, m), id) == if id == m.id then Some(m) else Find(ms, id)
  {
    hide Put, Find;
    PutIs(ms, m);
    var ms' := Put(ms, m);
    if id == m.id {
      assert m in ms';
      var i :| 0 <= i < |ms'| && ms'[i] == m;
      FindUnique(ms', i);
    } else {
      var f := Find(ms, id);
      if f.Some? {
        assert f.value in ms';
        var i :| 0 <= i < |ms'| && ms'[i] == f.value;
        FindUnique(ms', i);
      } else {
        forall i | 0 <= i < |ms'| ensures ms'[i].id != id {
          assert ms'[i] in ms';
        }
        FindNone(ms', id);
      }
    }
  }

  /** The last of the first k live agents with an id. */
  function LastLive(live: seq<Agent>, k: nat, id: Id): Option<Agent>
    requires k <= |live|
  {
    if k == 0 then None else if live[k - 1].id == id then Some(live[k - 1]) else LastLive(live, k - 1, id)
  }

  lemma {:induction false} LiveLookup(input: Input, k: nat, id: Id)
    requires k <= |input.live|
    ensures var ms := LivePass(input, k).remembered; var a := LastLive(input.live, k, id);
      Unique(ms) && Find(ms, id) == if a.Some? then Some(Updated(input, a.value)) else None
    decreases k
  {
    hide Put, Unique, Updated, IsNews, Observed;
    if k == 0 {
      FindNone([], id);
      assert Unique([]) by {
        NoneUnique();
      }
    } else {
      LiveLookup(input, k - 1, id);
      FindPut(LivePass(input, k - 1).remembered, Updated(input, input.live[k - 1]), id);
      UpdatedId(input, input.live[k - 1]);
    }
  }

  lemma NoneUnique()
    ensures Unique([])
  {
  }

  lemma UpdatedId(input: Input, agent: Agent)
    ensures Updated(input, agent).id == agent.id && Updated(input, agent).wasOnline
  {
  }

  lemma {:induction false} LastLiveIs(live: seq<Agent>, k: nat, id: Id)
    requires k <= |live|
    ensures LastLive(live, k, id).Some? <==> exists i :: 0 <= i < k && live[i].id == id
    ensures LastLive(live, k, id).Some? ==> LastLive(live, k, id).value.id == id
    decreases k
  {
    if k > 0 {
      LastLiveIs(live, k - 1, id);
    }
  }

  /** What is remembered of an id after the first k remembered machines. */
  function Remembered(input: Input, k: nat, id: Id): Option<Machine>
    requires k <= |input.remembered|
  {
    var a := LastLive(input.live, |input.live|, id);
    if a.Some? then Some(Updated(input, a.value))
    else match Find(input.remembered[..k], id)
      case None => None
      case Some(m) => Some(m.(wasOnline := false))
  }

  lemma {:induction false} GoneLookup(input: Input, k: nat, id: Id)
    requires k <= |input.remembered|
    ensures var ms := GonePass(input, k).remembered; Unique(ms) && Find(ms, id) == Remembered(input, k, id)
    decreases k
  {
    hide Put, Unique, Updated, Find;
    if k == 0 {
      LiveLookup(input, |input.live|, id);
      FindNone([], id);
      assert input.remembered[..0] == [];
    } else {
      var m := input.remembered[k - 1];
      GoneLookup(input, k - 1, id);
      LastLiveIs(input.live, |input.live|, m.id);
      FindPut(GonePass(input, k - 1).remembered, m.(wasOnline := false), id);
      FindPrefix(input.remembered, k, id);
      assert !m.wasOnline ==> m.(wasOnline := false) == m;
    }
  }

  lemma FindPrefix(ms: seq<Machine>, k: nat, id: Id)
    requires 0 < k <= |ms|
    ensures Find(ms[..k], id) == if ms[k - 1].id == id then Some(ms[k - 1]) else Find(ms[..k - 1], id)
  {
    assert ms[..k][..k - 1] == ms[..k - 1];
  }

  /** What a check remembers, id by id: live machines refreshed, others as they
      were but offline. So the ids are exactly the old and the live ones, each once. */
  lemma CheckRemembers(input: Input, id: Id)
    ensures var ms := Check(input).remembered;
      && Unique(ms) && Find(ms, id) == Remembered(input, |input.remembered|, id)
      && (Find(ms, id).Some? <==> IsLive(input.live, id) || Find(input.remembered, id).Some?)
  {
    hide Unique, Updated, Find;
    GoneLookup(input, |input.remembered|, id);
    LastLiveIs(input.live, |input.live|, id);
    assert input.remembered[..|input.remembered|] == input.remembered;
  }

  /** Known output never moves backwards. */
  lemma OutputNeverDecreases(input: Input, id: Id)
    requires Find(input.remembered, id).Some?
    ensures var f := Find(Check(input).remembered, id);
      f.Some? && Later(f.value.lastKnownOutput, Find(input.remembered, id).value.lastKnownOutput)
  {
    hide Unique, Find;
    CheckRemembers(input, id);
    LastLiveIs(input.live, |input.live|, id);
    assert input.remembered[..|input.remembered|] == input.remembered;
  }

  // ---------------------------------------------------------------------------
  // Runs of checks, refreshes and user actions
  // ---------------------------------------------------------------------------
  // How often one check notifies
  // ---------------------------------------------------------------------------

  /** How many of the reports are about a machine. */
  function Times(us: seq<Unseen>, id: Id): nat {
    if us == [] then 0 else Times(us[..|us| - 1], id) + if us[|us| - 1].id == id then 1 else 0
  }

  /** How many of the first k listed agents have this id and news. */
  function Listings(input: Input, k: nat, id: Id): nat
    requires k <= |input.live|
  {
    if k == 0 then 0
    else Listings(input, k - 1, id) + if input.live[k - 1].id == id && IsNews(input, input.live[k - 1]) then 1 else 0
  }

  /** An id is listed twice, each time with news. */
  predicate Twice(input: Input, id: Id) {
    exists i, j :: 0 <= i < j < |input.live| && News(input, i, id) && News(input, j, id)
  }

  predicate News(input: Input, i: nat, id: Id)
    requires i < |input.live|
  {
    input.live[i].id == id && IsNews(input, input.live[i])
  }

  predicate Once(input: Input) { forall i :: 0 <= i < |input.live| ==> !Twice(input, input.live[i].id) }

  lemma {:induction false} LiveTimes(input: Input, k: nat, id: Id)
    requires k <= |input.live|
    ensures Times(LivePass(input, k).unseen, id) == Listings(input, k, id)
    decreases k
  {
    hide Put, Updated, IsNews;
    if k > 0 {
      LiveTimes(input, k - 1, id);
      var front := LivePass(input, k - 1).unseen;
      var a := input.live[k - 1];
      if IsNews(input, a) {
        NewsIsNew(input, a);
        var u := Unseen(a.id, a.name, Observed(input, a.id).value);
        assert (front + [u])[..|front|] == front;
      }
    }
  }

  lemma {:induction false} GoneTimes(input: Input, k: nat)
    requires k <= |input.remembered|
    ensures GonePass(input, k).unseen == LivePass(input, |input.live|).unseen
    decreases k
  {
    hide Put, LivePass, IsLive;
    if k > 0 {
      GoneTimes(input, k - 1);
    }
  }

  lemma {:induction false} ListingsMean(input: Input, k: nat, id: Id)
    requires k <= |input.live|
    ensures Listings(input, k, id) > 0 <==> exists i :: 0 <= i < k && News(input, i, id)
    ensures Listings(input, k, id) > 1 <==> exists i, j :: 0 <= i < j < k && News(input, i, id) && News(input, j, id)
    decreases k
  {
    hide IsNews;
    if k > 0 {
      ListingsMean(input, k - 1, id);
      if News(input, k - 1, id) && Listings(input, k - 1, id) > 0 {
        var i :| 0 <= i < k - 1 && News(input, i, id);
        assert 0 <= i < k - 1 < k && News(input, i, id) && News(input, k - 1, id);
      }
    }
  }

  /** One check reports a machine more than once if and only if the server lists it
      more than once while it has news. */
  lemma NotifiedTwiceExactly(input: Input, id: Id)
    ensures Times(Check(input).unseen, id) > 1 <==> Twice(input, id)
  {
    hide LivePass, GonePass, Listings, IsNews;
    GoneTimes(input, |input.remembered|);
    LiveTimes(input, |input.live|, id);
    ListingsMean(input, |input.live|, id);
  }

  /** Such a check: an agent listed twice, with output never seen, is reported twice. */
  lemma ListedTwiceNotifiedTwice(id: Id, at: int, now: int)
    requires at > 0
    ensures var a := Agent(id, "", true);
      Times(Check(Input([], [a, a], map[id := Got([At(at)])], map[], map[], now)).unseen, id) == 2
  {
    var a := Agent(id, "", true);
    var input := Input([], [a, a], map[id := Got([At(at)])], map[], map[], now);
    assert Newest([At(at)]) == Some(at);
    assert IsNews(input, a);
    hide LivePass, GonePass, IsNews;
    GoneTimes(input, 0);
    LiveTimes(input, 2, id);
    assert Listings(input, 1, id) == 1;
  }

  /** News depends on the machine alone, so in a check that reports nothing twice
      the first listing of a machine with news is the only one. */
  lemma OnceFirst(input: Input, k: nat)
    requires k < |input.live| && Once(input) && IsNews(input, input.live[k])
    ensures forall j :: 0 <= j < k ==> input.live[j].id != input.live[k].id
  {
    forall j | 0 <= j < k ensures input.live[j].id != input.live[k].id {
      if input.live[j].id == input.live[k].id {
        assert News(input, j, input.live[k].id) && News(input, k, input.live[k].id);
        assert Twice(input, input.live[k].id);
      }
    }
  }

  // ---------------------------------------------------------------------------

  /** What happened to a machine, as its user could tell. */
  datatype Entry = Notified(id: Id, at: int) | WentOffline(id: Id) | SawLive(id: Id) | Forgotten(id: Id)

  datatype Store = Store(machines: seq<Machine>, seen: map<Id, int>, notified: map<Id, int>, log: seq<Entry>)

  const EMPTY_STORE := Store([], map[], map[], [])

  datatype Event =
    | Background(live: seq<Agent>, tabs: map<Id, Tabs>, now: int, alerts: bool)
    | Foreground(live: seq<Agent>, tabs: map<Id, Tabs>, now: int)
    | MarkSeen(id: Id, now: int)
    | SetNotify(id: Id, on: bool)
    | Forget(id: Id)

  /** Tabs are asked of agents with an address that are not muted. */
  predicate Asked(ms: seq<Machine>, agent: Agent) {
    var m := Find(ms, agent.id);
    agent.hasUrl && (m.Some? ==> m.value.notifyEnabled)
  }

  /** The answers to the requests for tabs that are made. */
  function AskedTabs(ms: seq<Machine>, live: seq<Agent>, tabs: map<Id, Tabs>, everyone: bool): map<Id, Tabs> {
    if live == [] then map[]
    else
      var asked, a := AskedTabs(ms, live[..|live| - 1], tabs, everyone), live[|live| - 1];
      if a.id in tabs && a.hasUrl && (everyone || Asked(ms, a)) then asked[a.id := tabs[a.id]] else asked
  }

  /** What the first k live agents add to the log. */
  function LiveLog(input: Input, k: nat, notify: bool): seq<Entry>
    requires k <= |input.live|
  {
    if k == 0 then []
    else
      var a := input.live[k - 1];
      LiveLog(input, k - 1, notify) + [SawLive(a.id)]
      + if notify && IsNews(input, a) then [Notified(a.id, Observed(input, a.id).value)] else []
  }

  function OfflineLog(gone: seq<Gone>): seq<Entry> {
    seq(|gone|, i requires 0 <= i < |gone| => WentOffline(gone[i].id))
  }

  function BackgroundInput(s: Store, ev: Event): Input
    requires ev.Background?
  {
    Input(s.machines, ev.live, AskedTabs(s.machines, ev.live, ev.tabs, false), s.seen, s.notified, ev.now)
  }

  /** A refresh passes no notified times and keeps only the machines. */
  function ForegroundInput(s: Store, ev: Event): Input
    requires ev.Foreground?
  {
    Input(s.machines, ev.live, AskedTabs(s.machines, ev.live, ev.tabs, true), s.seen, map[], ev.now)
  }

  function Muted(ms: seq<Machine>, id: Id, on: bool): (r: seq<Machine>)
    ensures |r| == |ms| && forall i :: 0 <= i < |r| ==> r[i] == if ms[i].id == id then ms[i].(notifyEnabled := on) else ms[i]
  {
    seq(|ms|, i requires 0 <= i < |ms| => if ms[i].id == id then ms[i].(notifyEnabled := on) else ms[i])
  }

  function Dropped(ms: seq<Machine>, id: Id): seq<Machine> {
    if ms == [] then [] else if ms[0].id == id then Dropped(ms[1..], id) else [ms[0]] + Dropped(ms[1..], id)
  }

  function BackgroundStep(s: Store, ev: Event): Store
    requires ev.Background?
  {
    var input := BackgroundInput(s, ev);
    var r := Check(input);
    Store(r.remembered, s.seen, r.notified,
          s.log + LiveLog(input, |ev.live|, true) + if ev.alerts then OfflineLog(r.offline) else [])
  }

  function ForegroundStep(s: Store, ev: Event): Store
    requires ev.Foreground?
  {
    var input := ForegroundInput(s, ev);
    s.(machines := Check(input).remembered, log := s.log + LiveLog(input, |ev.live|, false))
  }

  function Step(s: Store, ev: Event): Store {
    match ev
    case Background(_, _, _, _) => BackgroundStep(s, ev)
    case Foreground(_, _, _) => ForegroundStep(s, ev)
    case MarkSeen(id, now) => s.(seen := s.seen[id := now])
    case SetNotify(id, on) => s.(machines := Muted(s.machines, id, on))
    case Forget(id) =>
      Store(Dropped(s.machines, id), s.seen - {id}, s.notified - {id}, s.log + [Forgotten(id)])
  }

  function Run(s: Store, evs: seq<Event>): Store
    decreases |evs|
  {
    if evs == [] then s else Run(Step(s, evs[0]), evs[1..])
  }

  // ---------------------------------------------------------------------------
  // At most once
  // ---------------------------------------------------------------------------

  /** The output time last notified of a machine since it was last forgotten. */
  function LastNotified(log: seq<Entry>, id: Id): Option<int> {
    if log == [] then None
    else
      var e := log[|log| - 1];
      if e.id != id || e.SawLive? || e.WentOffline? then LastNotified(log[..|log| - 1], id)
      else if e.Forgotten? then None
      else Some(e.at)
  }

  /** Notified times of a machine increase, until it is forgotten. */
  predicate Increasing(log: seq<Entry>) {
    log != [] ==>
      var front, e := log[..|log| - 1], log[|log| - 1];
      && Increasing(front)
      && (e.Notified? ==> LastNotified(front, e.id).None? || LastNotified(front, e.id).value < e.at)
  }

  /** The machine went offline and was not seen live since. */
  predicate StillOffline(log: seq<Entry>, id: Id) {
    log != [] &&
    var e := log[|log| - 1];
    if e.id == id && e.WentOffline? then true
    else if e.id == id && e.SawLive? then false
    else StillOffline(log[..|log| - 1], id)
  }

  /** No machine goes offline twice without being seen live in between. */
  predicate Separated(log: seq<Entry>) {
    log != [] ==>
      var front, e := log[..|log| - 1], log[|log| - 1];
      Separated(front) && (e.WentOffline? ==> !StillOffline(front, e.id))
  }

  lemma LogSnoc(log: seq<Entry>, e: Entry, id: Id)
    ensures LastNotified(log + [e], id)
      == if e.id != id || e.SawLive? || e.WentOffline? then LastNotified(log, id) else if e.Forgotten? then None else Some(e.at)
    ensures StillOffline(log + [e], id)
      == if e.id == id && e.WentOffline? then true else if e.id == id && e.SawLive? then false else StillOffline(log, id)
    ensures Increasing(log + [e])
      == (Increasing(log) && (e.Notified? ==> LastNotified(log, e.id).None? || LastNotified(log, e.id).value < e.at))
    ensures Separated(log + [e]) == (Separated(log) && (e.WentOffline? ==> !StillOffline(log, e.id)))
  {
    assert (log + [e])[..|log|] == log;
  }

  /** Whatever was notified is on record. */
  predicate OnRecord(log: seq<Entry>, notified: map<Id, int>, id: Id) {
    var last := LastNotified(log, id);
    last.Some? ==> id in notified && last.value <= notified[id]
  }

  ghost predicate Recorded(log: seq<Entry>, notified: map<Id, int>) {
    Increasing(log) && forall id :: OnRecord(log, notified, id)
  }

  lemma LogNothing(log: seq<Entry>)
    ensures log + [] == log
  {
  }

  /** A pass over other machines says nothing of this one. */
  lemma {:induction false} LiveUntouched(input: Input, log: seq<Entry>, k: nat, notify: bool, id: Id)
    requires k <= |input.live| && forall j :: 0 <= j < k ==> input.live[j].id != id
    ensures var log' := log + LiveLog(input, k, notify); var n := LivePass(input, k).notified;
      && LastNotified(log', id) == LastNotified(log, id)
      && StillOffline(log', id) == StillOffline(log, id)
      && (id in n <==> id in input.notified) && (id in n ==> n[id] == input.notified[id])
    decreases k
  {
    hide LastNotified, StillOffline, Put, Updated, Observed, Increasing, Separated;
    if k == 0 {
      LogNothing(log);
    } else {
      LiveUntouched(input, log, k - 1, notify, id);
      var a := input.live[k - 1];
      var before := log + LiveLog(input, k - 1, notify);
      LiveLogStep(input, log, k, notify);
      LogSnoc(before, SawLive(a.id), id);
      if notify && IsNews(input, a) {
        LogSnoc(before + [SawLive(a.id)], Notified(a.id, Observed(input, a.id).value), id);
      }
    }
  }

  lemma LiveLogStep(input: Input, log: seq<Entry>, k: nat, notify: bool)
    requires 0 < k <= |input.live|
    ensures var a := input.live[k - 1]; var before := log + LiveLog(input, k - 1, notify);
      log + LiveLog(input, k, notify) == if notify && IsNews(input, a)
        then before + [SawLive(a.id)] + [Notified(a.id, Observed(input, a.id).value)]
        else before + [SawLive(a.id)]
  {
    hide IsNews, Observed;
  }

  /** Notifications of a background check are new, and put on record. */
  lemma {:induction false} LiveRecorded(input: Input, log: seq<Entry>, k: nat)
    requires k <= |input.live| && Once(input) && Recorded(log, input.notified)
    ensures Recorded(log + LiveLog(input, k, true), LivePass(input, k).notified)
    decreases k
  {
    hide LastNotified, StillOffline, Put, Updated, Increasing, Separated, Observed, OnRecord, IsNews, Once;
    if k == 0 {
      LogNothing(log);
    } else {
      LiveRecorded(input, log, k - 1);
      var a := input.live[k - 1];
      LiveLogStep(input, log, k, true);
      var before := log + LiveLog(input, k - 1, true);
      RecordSaw(before, LivePass(input, k - 1).notified, a.id);
      if IsNews(input, a) {
        OnceFirst(input, k - 1);
        NewsIsNew(input, a);
        LiveUntouched(input, log, k - 1, true, a.id);
        assert OnRecord(log, input.notified, a.id);
        RecordNews(before + [SawLive(a.id)], LivePass(input, k - 1).notified, a.id, Observed(input, a.id).value);
      }
    }
  }

  lemma NewsIsNew(input: Input, a: Agent)
    requires IsNews(input, a)
    ensures Observed(input, a.id).Some? && (a.id in input.notified ==> input.notified[a.id] < Observed(input, a.id).value)
  {
  }

  lemma RecordSaw(log: seq<Entry>, notified: map<Id, int>, id: Id)
    requires Recorded(log, notified)
    ensures Recorded(log + [SawLive(id)], notified)
  {
    hide LastNotified, StillOffline, Increasing, Separated;
    LogSnoc(log, SawLive(id), id);
    forall i ensures OnRecord(log + [SawLive(id)], notified, i) {
      assert OnRecord(log, notified, i);
      LogSnoc(log, SawLive(id), i);
    }
  }

  lemma RecordNews(log: seq<Entry>, notified: map<Id, int>, id: Id, at: int)
    requires Recorded(log, notified) && (id in notified ==> notified[id] < at)
    ensures Recorded(log + [Notified(id, at)], notified[id := at])
  {
    hide LastNotified, StillOffline, Increasing, Separated;
    LogSnoc(log, Notified(id, at), id);
    assert OnRecord(log, notified, id);
    var log', notified' := log + [Notified(id, at)], notified[id := at];
    forall i ensures OnRecord(log', notified', i) {
      assert OnRecord(log, notified, i);
      LogSnoc(log, Notified(id, at), i);
    }
  }

  /** Looking alone records nothing. */
  lemma {:induction false} LookRecorded(input: Input, log: seq<Entry>, notified: map<Id, int>, k: nat)
    requires k <= |input.live| && Recorded(log, notified)
    ensures Recorded(log + LiveLog(input, k, false), notified)
    decreases k
  {
    hide Recorded, IsNews, Observed;
    if k == 0 {
      LogNothing(log);
    } else {
      LookRecorded(input, log, notified, k - 1);
      LiveLogStep(input, log, k, false);
      RecordSaw(log + LiveLog(input, k - 1, false), notified, input.live[k - 1].id);
    }
  }

  lemma {:induction false} OfflineRecorded(log: seq<Entry>, notified: map<Id, int>, gone: seq<Gone>)
    requires Recorded(log, notified)
    ensures Recorded(log + OfflineLog(gone), notified)
    decreases |gone|
  {
    hide LastNotified, StillOffline, Increasing, Separated;
    if gone == [] {
      LogNothing(log);
    } else {
      var front, id := gone[..|gone| - 1], gone[|gone| - 1].id;
      OfflineRecorded(log, notified, front);
      assert log + OfflineLog(gone) == (log + OfflineLog(front)) + [WentOffline(id)];
      LogSnoc(log + OfflineLog(front), WentOffline(id), id);
      forall i ensures OnRecord(log + OfflineLog(gone), notified, i) {
        assert OnRecord(log + OfflineLog(front), notified, i);
        LogSnoc(log + OfflineLog(front), WentOffline(id), i);
      }
    }
  }

  // ---------------------------------------------------------------------------
  // Offline
  // ---------------------------------------------------------------------------

  /** The machine is remembered as online. */
  predicate Up(ms: seq<Machine>, id: Id) {
    var f := Find(ms, id);
    f.Some? && f.value.wasOnline
  }

  predicate Down(log: seq<Entry>, ms: seq<Machine>, id: Id) { StillOffline(log, id) ==> !Up(ms, id) }

  ghost predicate Settled(log: seq<Entry>, ms: seq<Machine>) {
    Unique(ms) && Separated(log) && forall id :: Down(log, ms, id)
  }

  /** A pass over live machines: nothing goes offline, live ones are not offline. */
  lemma {:induction false} LiveSeparated(input: Input, log: seq<Entry>, k: nat, notify: bool, id: Id)
    requires k <= |input.live| && Separated(log)
    ensures var log' := log + LiveLog(input, k, notify);
      Separated(log') && (StillOffline(log', id) <==> StillOffline(log, id) && LastLive(input.live, k, id).None?)
    decreases k
  {
    hide LastNotified, StillOffline, Increasing, Separated, Observed;
    if k == 0 {
      LogNothing(log);
    } else {
      LiveSeparated(input, log, k - 1, notify, id);
      LiveLogStep(input, log, k, notify);
      var a := input.live[k - 1];
      var before := log + LiveLog(input, k - 1, notify);
      LogSnoc(before, SawLive(a.id), id);
      if notify && IsNews(input, a) {
        LogSnoc(before + [SawLive(a.id)], Notified(a.id, Observed(input, a.id).value), id);
      }
    }
  }

  /** Machines reported gone were remembered online and are not live; each once. */
  predicate GoneOk(input: Input, gone: seq<Gone>) {
    && (forall i :: 0 <= i < |gone| ==> !IsLive(input.live, gone[i].id) && Up(input.remembered, gone[i].id))
    && (forall i, j :: 0 <= i < j < |gone| ==> gone[i].id != gone[j].id)
  }

  predicate FromFirst(input: Input, k: nat, gone: seq<Gone>)
    requires k <= |input.remembered|
  {
    forall i :: 0 <= i < |gone| ==> exists j :: 0 <= j < k && input.remembered[j].id == gone[i].id
  }

  lemma {:induction false} GoneIs(input: Input, k: nat)
    requires k <= |input.remembered| && Unique(input.remembered)
    ensures var gone := GonePass(input, k).offline; GoneOk(input, gone) && FromFirst(input, k, gone)
    decreases k
  {
    hide Put, Find, IsLive;
    if k == 0 {
      LiveNotGone(input, |input.live|);
    } else {
      GoneIs(input, k - 1);
      FindUnique(input.remembered, k - 1);
    }
  }

  lemma {:induction false} LiveNotGone(input: Input, k: nat)
    requires k <= |input.live|
    ensures LivePass(input, k).offline == []
    decreases k
  {
    hide Put, IsNews, Updated, Observed;
    if k > 0 {
      LiveNotGone(input, k - 1);
    }
  }

  lemma {:induction false} OfflineSeparated(log: seq<Entry>, gone: seq<Gone>, id: Id)
    requires Separated(log) && forall i :: 0 <= i < |gone| ==> !StillOffline(log, gone[i].id)
    requires forall i, j :: 0 <= i < j < |gone| ==> gone[i].id != gone[j].id
    ensures var log' := log + OfflineLog(gone);
      Separated(log') && (StillOffline(log', id) <==> StillOffline(log, id) || exists i :: 0 <= i < |gone| && gone[i].id == id)
    decreases |gone|
  {
    hide LastNotified, StillOffline, Increasing, Separated;
    if gone == [] {
      LogNothing(log);
    } else {
      var front, last := gone[..|gone| - 1], gone[|gone| - 1];
      OfflineSeparated(log, front, id);
      OfflineSeparated(log, front, last.id);
      assert log + OfflineLog(gone) == (log + OfflineLog(front)) + [WentOffline(last.id)];
      LogSnoc(log + OfflineLog(front), WentOffline(last.id), id);
    }
  }

  lemma CheckSettled(input: Input, log: seq<Entry>, notify: bool, alerts: bool)
    requires Settled(log, input.remembered)
    ensures var r := Check(input);
      Settled(log + LiveLog(input, |input.live|, notify) + (if alerts then OfflineLog(r.offline) else []), r.remembered)
  {
    hide LastNotified, StillOffline, Increasing, Separated, Unique, Find, LiveLog, LivePass, GonePass, IsLive, OfflineLog, Down;
    var r := Check(input);
    var log1 := log + LiveLog(input, |input.live|, notify);
    var gone := if alerts then r.offline else [];
    var log2 := log1 + OfflineLog(gone);
    CheckRemembers(input, "");
    GoneIs(input, |input.remembered|);
    LiveSeparated(input, log, |input.live|, notify, "");
    forall i | 0 <= i < |gone| ensures !StillOffline(log1, gone[i].id) {
      LiveSeparated(input, log, |input.live|, notify, gone[i].id);
      DownAt(log, input.remembered, gone[i].id);
    }
    OfflineSeparated(log1, gone, "");
    forall id ensures Down(log2, r.remembered, id) {
      LiveSeparated(input, log, |input.live|, notify, id);
      OfflineSeparated(log1, gone, id);
      DownAt(log, input.remembered, id);
      CheckRemembers(input, id);
      LiveIf(input, id);
      StayDown(input, log, log2, id, gone);
    }
    NoOfflineLog(log1);
  }

  lemma LiveIf(input: Input, id: Id)
    ensures LastLive(input.live, |input.live|, id).Some? ==> IsLive(input.live, id)
    ensures input.remembered[..|input.remembered|] == input.remembered
  {
    LastLiveIs(input.live, |input.live|, id);
  }

  lemma NoOfflineLog(log: seq<Entry>)
    ensures log + OfflineLog([]) == log + []
  {
  }

  lemma DownAt(log: seq<Entry>, ms: seq<Machine>, id: Id)
    requires Settled(log, ms)
    ensures StillOffline(log, id) ==> !Up(ms, id)
  {
    hide StillOffline, Up;
    assert Down(log, ms, id);
  }

  lemma StayDown(input: Input, log: seq<Entry>, log': seq<Entry>, id: Id, gone: seq<Gone>)
    requires GoneOk(input, gone)
    requires StillOffline(log', id) ==>
      (StillOffline(log, id) && LastLive(input.live, |input.live|, id).None?) || exists i :: 0 <= i < |gone| && gone[i].id == id
    requires Find(Check(input).remembered, id) == Remembered(input, |input.remembered|, id)
    requires LastLive(input.live, |input.live|, id).Some? ==> IsLive(input.live, id)
    ensures Down(log', Check(input).remembered, id)
  {
    hide StillOffline, Find, Check, Unique;
  }

  // ---------------------------------------------------------------------------
  // Every run
  // ---------------------------------------------------------------------------

  ghost predicate Inv(s: Store) { Recorded(s.log, s.notified) && Settled(s.log, s.machines) }

  /** No background check of the run lists a machine with news twice. */
  predicate AllOnce(s: Store, evs: seq<Event>)
    decreases |evs|
  {
    evs != [] ==> OnceAt(s, evs[0]) && AllOnce(Step(s, evs[0]), evs[1..])
  }

  predicate OnceAt(s: Store, ev: Event) { ev.Background? ==> Once(BackgroundInput(s, ev)) }

  lemma {:induction false} NotifiedKept(input: Input, k: nat)
    requires k <= |input.remembered|
    ensures GonePass(input, k).notified == LivePass(input, |input.live|).notified
    decreases k
  {
    hide Put, LivePass, IsLive;
    if k > 0 {
      NotifiedKept(input, k - 1);
    }
  }

  lemma BackgroundKeeps(s: Store, ev: Event)
    requires Inv(s) && ev.Background? && OnceAt(s, ev)
    ensures Inv(BackgroundStep(s, ev))
  {
    hide Recorded, Settled, AskedTabs, Check, LiveLog, OfflineLog, LivePass, Once;
    var input := BackgroundInput(s, ev);
    var r := Check(input);
    var log1 := s.log + LiveLog(input, |ev.live|, true);
    LiveRecorded(input, s.log, |ev.live|);
    CheckNotified(input);
    OfflineRecorded(log1, r.notified, r.offline);
    LogNothing(log1);
    CheckSettled(input, s.log, true, ev.alerts);
  }

  lemma CheckNotified(input: Input)
    ensures Check(input).notified == LivePass(input, |input.live|).notified
  {
    hide LivePass, GonePass;
    NotifiedKept(input, |input.remembered|);
  }

  lemma ForegroundKeeps(s: Store, ev: Event)
    requires Inv(s) && ev.Foreground?
    ensures Inv(ForegroundStep(s, ev))
  {
    hide Recorded, Settled, AskedTabs, Check, LiveLog, OfflineLog, LivePass, Once;
    var input := ForegroundInput(s, ev);
    LookRecorded(input, s.log, s.notified, |ev.live|);
    LogNothing(s.log + LiveLog(input, |ev.live|, false));
    CheckSettled(input, s.log, false, false);
  }

  lemma {:induction false} FindMuted(ms: seq<Machine>, id: Id, on: bool, x: Id)
    ensures Up(Muted(ms, id, on), x) == Up(ms, x)
    decreases |ms|
  {
    if ms != [] {
      FindMuted(ms[..|ms| - 1], id, on, x);
      assert Muted(ms, id, on)[..|ms| - 1] == Muted(ms[..|ms| - 1], id, on);
    }
  }

  lemma {:induction false} DroppedIs(ms: seq<Machine>, id: Id)
    requires Unique(ms)
    ensures Unique(Dropped(ms, id))
    ensures forall m :: m in Dropped(ms, id) <==> m in ms && m.id != id
    decreases |ms|
  {
    if ms != [] {
      var rest := Dropped(ms[1..], id);
      DroppedIs(ms[1..], id);
      assert ms == [ms[0]] + ms[1..];
      if ms[0].id != id {
        forall j | 0 <= j < |rest| ensures rest[j].id != ms[0].id {
          assert rest[j] in rest;
        }
      }
    }
  }

  lemma UpDropped(ms: seq<Machine>, id: Id, x: Id)
    requires Unique(ms)
    ensures Up(Dropped(ms, id), x) ==> Up(ms, x)
  {
    hide Find, Dropped;
    DroppedIs(ms, id);
    var f := Find(Dropped(ms, id), x);
    if f.Some? {
      assert f.value in ms;
      var i :| 0 <= i < |ms| && ms[i] == f.value;
      FindUnique(ms, i);
    }
  }

  lemma MuteSettled(s: Store, id: Id, on: bool)
    requires Settled(s.log, s.machines)
    ensures Settled(s.log, Muted(s.machines, id, on))
  {
    hide StillOffline, Separated, Find, Up;
    var ms := Muted(s.machines, id, on);
    forall x ensures Down(s.log, ms, x) {
      assert Down(s.log, s.machines, x);
      FindMuted(s.machines, id, on, x);
    }
  }

  lemma ForgetSettled(s: Store, id: Id)
    requires Settled(s.log, s.machines)
    ensures Settled(s.log + [Forgotten(id)], Dropped(s.machines, id))
  {
    hide LastNotified, Increasing, StillOffline, Separated, Find, Up, Dropped, Unique;
    var ms := Dropped(s.machines, id);
    var log := s.log + [Forgotten(id)];
    DroppedIs(s.machines, id);
    LogSnoc(s.log, Forgotten(id), id);
    forall x ensures Down(log, ms, x) {
      assert Down(s.log, s.machines, x);
      LogSnoc(s.log, Forgotten(id), x);
      UpDropped(s.machines, id, x);
    }
  }

  lemma SetNotifyKeeps(s: Store, id: Id, on: bool)
    requires Inv(s)
    ensures Inv(Step(s, SetNotify(id, on)))
  {
    hide Recorded, Settled;
    MuteSettled(s, id, on);
  }

  lemma ForgetKeeps(s: Store, id: Id)
    requires Inv(s)
    ensures Inv(Step(s, Forget(id)))
  {
    hide LastNotified, Increasing, StillOffline, Separated, Settled, Dropped;
    var log, notified := s.log + [Forgotten(id)], s.notified - {id};
    ForgetSettled(s, id);
    LogSnoc(s.log, Forgotten(id), id);
    forall x ensures OnRecord(log, notified, x) {
      assert OnRecord(s.log, s.notified, x);
      LogSnoc(s.log, Forgotten(id), x);
    }
  }

  lemma StepKeeps(s: Store, ev: Event)
    requires Inv(s) && OnceAt(s, ev)
    ensures Inv(Step(s, ev))
  {
    hide Recorded, Settled, BackgroundStep, ForegroundStep, Inv;
    match ev
    case Background(_, _, _, _) => BackgroundKeeps(s, ev);
    case Foreground(_, _, _) => ForegroundKeeps(s, ev);
    case SetNotify(id, on) => SetNotifyKeeps(s, id, on);
    case Forget(id) => ForgetKeeps(s, id);
    case MarkSeen(id, now) => SeenKeeps(s, id, now);
  }

  lemma SeenKeeps(s: Store, id: Id, now: int)
    requires Inv(s)
    ensures Inv(Step(s, MarkSeen(id, now)))
  {
    hide Recorded, Settled;
  }

  lemma {:induction false} RunKeeps(s: Store, evs: seq<Event>)
    requires Inv(s) && AllOnce(s, evs)
    ensures Inv(Run(s, evs))
    decreases |evs|
  {
    hide Inv, Step, OnceAt;
    if evs != [] {
      StepKeeps(s, evs[0]);
      RunKeeps(Step(s, evs[0]), evs[1..]);
    }
  }

  lemma EmptyInv()
    ensures Inv(EMPTY_STORE)
  {
  }

  predicate NoneForgotten(log: seq<Entry>, i: nat, j: nat, id: Id)
    requires i <= j <= |log|
  {
    forall k :: i <= k < j ==> log[k] != Forgotten(id)
  }

  /** The time last notified is that of the latest notification on the log. */
  lemma {:induction false} LastIs(log: seq<Entry>, i: nat)
    requires i < |log| && log[i].Notified? && NoneForgotten(log, i, |log|, log[i].id) && Increasing(log)
    ensures var last := LastNotified(log, log[i].id); last.Some? && log[i].at <= last.value
    decreases |log|
  {
    var front, e := log[..|log| - 1], log[|log| - 1];
    if i < |front| {
      assert front[i] == log[i];
      LastIs(front, i);
    }
  }

  lemma {:induction false} IncreasingMeans(log: seq<Entry>, i: nat, j: nat)
    requires Increasing(log) && i < j < |log| && log[i].Notified? && log[j].Notified? && log[i].id == log[j].id
    requires NoneForgotten(log, i, j, log[i].id)
    ensures log[i].at < log[j].at
    decreases |log|
  {
    var front := log[..|log| - 1];
    if j < |front| {
      IncreasingMeans(front, i, j);
    } else {
      assert front[i] == log[i];
      LastIs(front, i);
    }
  }

  lemma {:induction false} StillMeans(log: seq<Entry>, i: nat)
    requires i < |log| && log[i].WentOffline? && forall k :: i < k < |log| ==> log[k] != SawLive(log[i].id)
    ensures StillOffline(log, log[i].id)
    decreases |log|
  {
    var front := log[..|log| - 1];
    if i < |front| {
      assert front[i] == log[i];
      StillMeans(front, i);
    }
  }

  lemma {:induction false} SeparatedMeans(log: seq<Entry>, i: nat, j: nat)
    requires Separated(log) && i < j < |log| && log[i].WentOffline? && log[j] == log[i]
    ensures exists k :: i < k < j && log[k] == SawLive(log[i].id)
    decreases |log|
  {
    var front := log[..|log| - 1];
    if j < |front| {
      SeparatedMeans(front, i, j);
      var k :| i < k < j && front[k] == SawLive(front[i].id);
      assert log[k] == front[k];
    } else if forall k :: i < k < j ==> log[k] != SawLive(log[i].id) {
      assert front[i] == log[i];
      StillMeans(front, i);
    }
  }

  /** A check that lists a machine with news twice puts the same time on the log twice. */
  lemma {:induction false} LiveLast(input: Input, log: seq<Entry>, k: nat, i: nat)
    requires i < k <= |input.live| && IsNews(input, input.live[i])
    ensures Observed(input, input.live[i].id).Some?
    ensures LastNotified(log + LiveLog(input, k, true), input.live[i].id) == Observed(input, input.live[i].id)
    decreases k
  {
    hide LastNotified, StillOffline, Increasing, Separated, Observed, IsNews;
    var id, a := input.live[i].id, input.live[k - 1];
    var before := log + LiveLog(input, k - 1, true);
    LiveLogStep(input, log, k, true);
    if i < k - 1 {
      LiveLast(input, log, k - 1, i);
    }
    LogSnoc(before, SawLive(a.id), id);
    NewsIsNew(input, input.live[i]);
    if IsNews(input, a) {
      NewsIsNew(input, a);
      LogSnoc(before + [SawLive(a.id)], Notified(a.id, Observed(input, a.id).value), id);
    }
  }

  lemma {:induction false} IncreasingFront(log: seq<Entry>, more: seq<Entry>)
    requires Increasing(log + more)
    ensures Increasing(log)
    decreases |more|
  {
    if more == [] {
      assert log + more == log;
    } else {
      var front := more[..|more| - 1];
      assert (log + more)[..|log + more| - 1] == log + front;
      IncreasingFront(log, front);
    }
  }

  lemma {:induction false} LiveGrows(input: Input, log: seq<Entry>, k: nat, n: nat)
    requires k <= n <= |input.live| && Increasing(log + LiveLog(input, n, true))
    ensures Increasing(log + LiveLog(input, k, true))
    decreases n - k
  {
    hide Increasing, IsNews, Observed;
    if k < n {
      LiveLogStep(input, log, n, true);
      var before, a := log + LiveLog(input, n - 1, true), input.live[n - 1];
      if IsNews(input, a) {
        NewsIsNew(input, a);
        Front2(before, [SawLive(a.id)], [Notified(a.id, Observed(input, a.id).value)]);
      }
      IncreasingFront(before, (log + LiveLog(input, n, true))[|before|..]);
      LiveGrows(input, log, k, n - 1);
    }
  }

  lemma Front2(a: seq<Entry>, b: seq<Entry>, c: seq<Entry>)
    ensures a + b + c == a + (b + c) && (a + b + c)[|a|..] == b + c
  {
  }

  lemma TwiceShows(input: Input, log: seq<Entry>)
    requires !Once(input)
    ensures !Increasing(log + LiveLog(input, |input.live|, true))
  {
    hide Increasing, IsNews, Observed, LastNotified;
    var m :| 0 <= m < |input.live| && Twice(input, input.live[m].id);
    var id := input.live[m].id;
    var i, j :| 0 <= i < j < |input.live| && News(input, i, id) && News(input, j, id);
    NewsIsNew(input, input.live[j]);
    if Increasing(log + LiveLog(input, |input.live|, true)) {
      LiveGrows(input, log, j + 1, |input.live|);
      LiveLast(input, log, j, i);
      LiveLogStep(input, log, j + 1, true);
      var before, at := log + LiveLog(input, j, true), Observed(input, id).value;
      LogSnoc(before, SawLive(id), id);
      LogSnoc(before + [SawLive(id)], Notified(id, at), id);
      assert false;
    }
  }

  lemma StepGrows(s: Store, ev: Event) returns (more: seq<Entry>)
    ensures Step(s, ev).log == s.log + more
    ensures ev.Background? ==> LiveLog(BackgroundInput(s, ev), |ev.live|, true) <= more
  {
    hide Check, LiveLog, OfflineLog, AskedTabs;
    more := Step(s, ev).log[|s.log|..];
  }

  lemma {:induction false} RunGrows(s: Store, evs: seq<Event>)
    requires Increasing(Run(s, evs).log)
    ensures Increasing(s.log)
    decreases |evs|
  {
    hide Step, Increasing;
    if evs != [] {
      RunGrows(Step(s, evs[0]), evs[1..]);
      var more := StepGrows(s, evs[0]);
      IncreasingFront(s.log, more);
    }
  }

  lemma {:induction false} OnceNeeded(s: Store, evs: seq<Event>)
    requires Increasing(Run(s, evs).log)
    ensures AllOnce(s, evs)
    decreases |evs|
  {
    hide Step, Increasing, Once, BackgroundInput;
    if evs != [] {
      var s', ev := Step(s, evs[0]), evs[0];
      RunGrows(s', evs[1..]);
      OnceNeeded(s', evs[1..]);
      if ev.Background? && !Once(BackgroundInput(s, ev)) {
        var more := StepGrows(s, ev);
        var input := BackgroundInput(s, ev);
        InputLive(s, ev);
        var live := LiveLog(input, |ev.live|, true);
        assert s.log + more == (s.log + live) + more[|live|..];
        IncreasingFront(s.log + live, more[|live|..]);
        TwiceShows(input, s.log);
      }
    }
  }

  lemma InputLive(s: Store, ev: Event)
    requires ev.Background?
    ensures BackgroundInput(s, ev).live == ev.live
  {
  }

  /** Of two notifications of a machine that was not forgotten in between the later is of later output. */
  predicate StrictlyLater(log: seq<Entry>) {
    forall i, j :: 0 <= i < j < |log| && Renotified(log, i, j) ==> log[i].at < log[j].at
  }

  predicate Renotified(log: seq<Entry>, i: nat, j: nat)
    requires i < j < |log|
  {
    log[i].Notified? && log[j].Notified? && log[i].id == log[j].id && NoneForgotten(log, i, j, log[i].id)
  }

  lemma {:induction false} LastAt(log: seq<Entry>, id: Id) returns (i: nat)
    requires LastNotified(log, id).Some?
    ensures i < |log| && log[i] == Notified(id, LastNotified(log, id).value) && NoneForgotten(log, i, |log|, id)
    decreases |log|
  {
    var front, e := log[..|log| - 1], log[|log| - 1];
    if e.id == id && e.Notified? {
      i := |log| - 1;
    } else {
      i := LastAt(front, id);
      assert log[i] == front[i];
      assert forall k :: i <= k < |front| ==> log[k] == front[k];
    }
  }

  lemma {:induction false} LaterMeans(log: seq<Entry>)
    ensures StrictlyLater(log) <==> Increasing(log)
    decreases |log|
  {
    if log != [] {
      var front, e := log[..|log| - 1], log[|log| - 1];
      LaterMeans(front);
      if Increasing(log) {
        forall i, j | 0 <= i < j < |log| && Renotified(log, i, j) ensures log[i].at < log[j].at {
          IncreasingMeans(log, i, j);
        }
      }
      if StrictlyLater(log) {
        FrontLater(log);
        if e.Notified? && LastNotified(front, e.id).Some? {
          var i := LastAt(front, e.id);
          assert log[i] == front[i] && forall k :: i <= k < |front| ==> log[k] == front[k];
          assert Renotified(log, i, |log| - 1);
        }
      }
    }
  }

  lemma FrontLater(log: seq<Entry>)
    requires log != [] && StrictlyLater(log)
    ensures StrictlyLater(log[..|log| - 1])
  {
    var front := log[..|log| - 1];
    forall i, j | 0 <= i < j < |front| && Renotified(front, i, j) ensures front[i].at < front[j].at {
      assert log[i] == front[i] && log[j] == front[j];
      assert forall k :: i <= k < j ==> log[k] == front[k];
      assert Renotified(log, i, j);
    }
  }

  /** Notifications fire at most once, exactly: over any interleaving of background
      checks, foreground refreshes, marking seen, muting and forgetting, the
      output times notified of a machine strictly increase until it is forgotten
      if and only if no background check lists a machine with news twice. */
  lemma NotifiesOnce(evs: seq<Event>)
    ensures StrictlyLater(Run(EMPTY_STORE, evs).log) <==> AllOnce(EMPTY_STORE, evs)
  {
    hide Run, Increasing, Separated, NoneForgotten, Unique, StrictlyLater, Recorded, Settled;
    var log := Run(EMPTY_STORE, evs).log;
    LaterMeans(log);
    if Increasing(log) {
      OnceNeeded(EMPTY_STORE, evs);
    }
    if AllOnce(EMPTY_STORE, evs) {
      EmptyInv();
      RunKeeps(EMPTY_STORE, evs);
      InvRecorded(Run(EMPTY_STORE, evs));
    }
  }

  lemma InvRecorded(s: Store)
    requires Inv(s)
    ensures Increasing(s.log)
  {
  }

  /** Whatever the server lists: between two offline events of a machine some check
      saw it live. */
  lemma OfflineOnce(evs: seq<Event>, i: nat, j: nat)
    requires i < j < |Run(EMPTY_STORE, evs).log|
    requires var log := Run(EMPTY_STORE, evs).log; log[i].WentOffline? && log[j].WentOffline? && log[i].id == log[j].id
    ensures var log := Run(EMPTY_STORE, evs).log; exists k :: i < k < j && log[k] == SawLive(log[i].id)
  {
    hide Run, Separated, Unique, Settled;
    EmptyInv();
    RunSettled(EMPTY_STORE, evs);
    var log := Run(EMPTY_STORE, evs).log;
    SettledSeparated(log, Run(EMPTY_STORE, evs).machines);
    SeparatedMeans(log, i, j);
  }

  lemma SettledSeparated(log: seq<Entry>, ms: seq<Machine>)
    requires Settled(log, ms)
    ensures Separated(log)
  {
  }

  lemma {:induction false} RunSettled(s: Store, evs: seq<Event>)
    requires Settled(s.log, s.machines)
    ensures Settled(Run(s, evs).log, Run(s, evs).machines)
    decreases |evs|
  {
    hide Settled, Step;
    if evs != [] {
      StepSettled(s, evs[0]);
      RunSettled(Step(s, evs[0]), evs[1..]);
    }
  }

  lemma StepSettled(s: Store, ev: Event)
    requires Settled(s.log, s.machines)
    ensures Settled(Step(s, ev).log, Step(s, ev).machines)
  {
    match ev
    case Background(_, _, _, _) =>
      hide Settled, AskedTabs, Check, LiveLog, OfflineLog;
      CheckSettled(BackgroundInput(s, ev), s.log, true, ev.alerts);
    case Foreground(_, _, _) =>
      hide Settled, AskedTabs, Check, LiveLog, OfflineLog;
      LogNothing(s.log + LiveLog(ForegroundInput(s, ev), |ev.live|, false));
      CheckSettled(ForegroundInput(s, ev), s.log, false, false);
    case SetNotify(id, on) =>
      MuteSettled(s, id, on);
    case Forget(id) =>
      ForgetSettled(s, id);
    case MarkSeen(id, now) =>
  }

  // ---------------------------------------------------------------------------
  // The check over the store
  // ---------------------------------------------------------------------------

  class AppStore {
    var machines: seq<Machine>
    var seen: map<Id, int>
    var notified: map<Id, int>
    ghost var log: seq<Entry>

    ghost function View(): Store
      reads this
    {
      Store(machines, seen, notified, log)
    }

    /** One background check: ask the machines that want notifications, compare,
        notify, and write the table and the notified times back. */
    method RunOnce(live: seq<Agent>, answers: map<Id, Tabs>, now: int, alerts: bool) returns (unseen: seq<Unseen>, offline: seq<Gone>)
      modifies this
      ensures View() == BackgroundStep(old(View()), Background(live, answers, now, alerts))
      ensures var r := Check(BackgroundInput(old(View()), Background(live, answers, now, alerts)));
        unseen == r.unseen && offline == if alerts then r.offline else []
    {
      hide Check, LiveLog, OfflineLog, Find;
      var tabs: map<Id, Tabs> := map[];
      for k := 0 to |live|
        invariant tabs == AskedTabs(machines, live[..k], answers, false)
      {
        var agent := live[k];
        assert live[..k + 1][..k] == live[..k];
        var m := Find(machines, agent.id);
        if m.Some? && !m.value.notifyEnabled {
          continue;
        }
        if !agent.hasUrl {
          continue;
        }
        if agent.id in answers {
          tabs := tabs[agent.id := answers[agent.id]];
        }
      }
      assert live[..|live|] == live;
      var input := Input(machines, live, tabs, seen, notified, now);
      var r := ComputeCheck(input);
      unseen := r.unseen;
      offline := if alerts then r.offline else [];
      log := log + LiveLog(input, |live|, true) + if alerts then OfflineLog(r.offline) else [];
      machines, notified := r.remembered, r.notified;
    }
  }
}
