/** The split-pane layout of a tab, as a value. */
module Layouts {
  type Id = string

  datatype Layout = Pane(id: Id) | Split(dir: string, first: Layout, second: Layout)

  function Panes(l: Layout): (ids: seq<Id>)
    ensures |ids| >= 1
  {
    match l
    case Pane(id) => [id]
    case Split(_, a, b) => Panes(a) + Panes(b)
  }

  /** The first pane with the target id replaced by a split of itself and a new pane. */
  function SplitAt(l: Layout, target: Id, added: Id, dir: string): (r: (Layout, bool)) {
    match l
    case Pane(id) => if id == target then (Split(dir, l, Pane(added)), true) else (l, false)
    case Split(d, a, b) =>
      var (a', found) := SplitAt(a, target, added, dir);
      if found then (Split(d, a', b), true)
      else
        var (b', found') := SplitAt(b, target, added, dir);
        if found' then (Split(d, a, b'), true) else (l, false)
  }

  /** The first pane with the id removed, its sibling promoted; a lone pane stays. */
  function CloseAt(l: Layout, id: Id): (r: (Layout, bool)) {
    match l
    case Pane(_) => (l, false)
    case Split(d, a, b) =>
      if a == Pane(id) then (b, true)
      else if b == Pane(id) then (a, true)
      else
        var (a', found) := CloseAt(a, id);
        if found then (Split(d, a', b), true)
        else
          var (b', found') := CloseAt(b, id);
          if found' then (Split(d, a, b'), true) else (l, false)
  }

  /** Every pane's id replaced, in order, by the next of `ids`. */
  function Renamed(l: Layout, ids: seq<Id>): Layout
    requires |ids| == |Panes(l)|
  {
    match l
    case Pane(_) => Pane(ids[0])
    case Split(d, a, b) => Split(d, Renamed(a, ids[..|Panes(a)|]), Renamed(b, ids[|Panes(a)|..]))
  }

  predicate Distinct(ids: seq<Id>) { forall i, j :: 0 <= i < j < |ids| ==> ids[i] != ids[j] }

  /** The panes of a list that are counted when a layout is checked. */
  function Count(ids: seq<Id>, id: Id): nat { multiset(ids)[id] }

  /** layoutMatchesSessionSet: as many different ids as expected, each expected
      one exactly once. Panes without an id do not count. */
  predicate Matches(l: Layout, expected: seq<Id>) {
    var ids := Panes(l);
    && |set id | id in ids && id != ""| == |expected|
    && forall id :: id in expected ==> Count(ids, id) == 1
  }

  // ---------------------------------------------------------------------------
  // Splitting and closing
  // ---------------------------------------------------------------------------

  /** The index of the first occurrence of an id. */
  function IndexOf(ids: seq<Id>, id: Id): (i: nat)
    ensures i <= |ids| && (i < |ids| <==> id in ids)
  {
    if ids == [] || ids[0] == id then 0 else 1 + IndexOf(ids[1..], id)
  }

  lemma {:induction false} IndexFirst(ids: seq<Id>, id: Id)
    ensures var i := IndexOf(ids, id);
      (i < |ids| ==> ids[i] == id) && forall j :: 0 <= j < i ==> ids[j] != id
    decreases |ids|
  {
    if ids != [] && ids[0] != id {
      IndexFirst(ids[1..], id);
    }
  }

  lemma IndexIs(ids: seq<Id>, id: Id, i: nat)
    requires i < |ids| && ids[i] == id && forall j :: 0 <= j < i ==> ids[j] != id
    ensures IndexOf(ids, id) == i
  {
    IndexFirst(ids, id);
  }

  lemma IndexConcat(a: seq<Id>, b: seq<Id>, id: Id)
    ensures IndexOf(a + b, id) == if id in a then IndexOf(a, id) else |a| + IndexOf(b, id)
  {
    IndexFirst(a, id);
    IndexFirst(b, id);
    if id in a {
      IndexIs(a + b, id, IndexOf(a, id));
    } else if id in b {
      IndexIs(a + b, id, |a| + IndexOf(b, id));
    }
  }

  /** `ids` with x put right after position k, and with position k left out. */
  function Inserted(ids: seq<Id>, k: nat, x: Id): seq<Id>
    requires k < |ids|
  {
    ids[..k + 1] + [x] + ids[k + 1..]
  }

  function Removed(ids: seq<Id>, k: nat): seq<Id>
    requires k < |ids|
  {
    ids[..k] + ids[k + 1..]
  }

  lemma CutConcat(a: seq<Id>, b: seq<Id>, k: nat)
    requires k <= |a + b|
    ensures (a + b)[..k] == if k <= |a| then a[..k] else a + b[..k - |a|]
    ensures (a + b)[k..] == if k <= |a| then a[k..] + b else b[k - |a|..]
  {
  }

  lemma InsertedLeft(a: seq<Id>, b: seq<Id>, k: nat, x: Id)
    requires k < |a|
    ensures Inserted(a + b, k, x) == Inserted(a, k, x) + b && Removed(a + b, k) == Removed(a, k) + b
  {
    CutConcat(a, b, k);
    CutConcat(a, b, k + 1);
  }

  lemma InsertedRight(a: seq<Id>, b: seq<Id>, k: nat, x: Id)
    requires k < |b|
    ensures Inserted(a + b, |a| + k, x) == a + Inserted(b, k, x) && Removed(a + b, |a| + k) == a + Removed(b, k)
  {
    CutConcat(a, b, |a| + k);
    CutConcat(a, b, |a| + k + 1);
    assert k == 0 ==> b[..k] == [] && (a + b)[..|a|] == a;
  }

  /** Which side of a split an id is on decides where it is put or left out. */
  lemma Sides(a: seq<Id>, b: seq<Id>, id: Id, x: Id)
    requires id in a + b
    ensures id in a ==>
      && Inserted(a + b, IndexOf(a + b, id), x) == Inserted(a, IndexOf(a, id), x) + b
      && Removed(a + b, IndexOf(a + b, id)) == Removed(a, IndexOf(a, id)) + b
    ensures id !in a ==>
      && Inserted(a + b, IndexOf(a + b, id), x) == a + Inserted(b, IndexOf(b, id), x)
      && Removed(a + b, IndexOf(a + b, id)) == a + Removed(b, IndexOf(b, id))
  {
    hide IndexOf, Inserted, Removed;
    IndexConcat(a, b, id);
    if id in a {
      InsertedLeft(a, b, IndexOf(a, id), x);
    } else {
      InsertedRight(a, b, IndexOf(b, id), x);
    }
  }

  /** Splitting puts the new id right after its target, and nothing else moves. */
  lemma {:induction false} SplitInserts(l: Layout, target: Id, added: Id, dir: string)
    ensures var (l', found) := SplitAt(l, target, added, dir);
      && (found <==> target in Panes(l)) && (!found ==> l' == l)
      && (found ==> Panes(l') == Inserted(Panes(l), IndexOf(Panes(l), target), added))
  {
    match l
    case Pane(_) =>
    case Split(d, a, b) =>
      hide Inserted, IndexOf;
      SplitInserts(a, target, added, dir);
      SplitInserts(b, target, added, dir);
      if target in Panes(l) {
        Sides(Panes(a), Panes(b), target, added);
      }
  }

  /** Closing removes exactly one pane and moves nothing else. A lone pane is
      never closed. */
  lemma {:induction false} CloseRemoves(l: Layout, id: Id)
    requires Distinct(Panes(l))
    ensures var (l', found) := CloseAt(l, id);
      && (found <==> id in Panes(l) && l.Split?) && (!found ==> l' == l)
      && (found ==> Panes(l') == Removed(Panes(l), IndexOf(Panes(l), id)))
  {
    match l
    case Pane(_) =>
    case Split(d, a, b) =>
      hide Removed, Inserted, IndexOf, Distinct;
      DistinctParts(Panes(a), Panes(b));
      CloseRemoves(a, id);
      CloseRemoves(b, id);
      if id in Panes(l) {
        Sides(Panes(a), Panes(b), id, id);
        LoneGone(id);
        LoneIs(a, id);
        LoneIs(b, id);
      }
  }

  lemma LoneGone(id: Id)
    ensures Removed([id], 0) == [] && IndexOf([id], id) == 0
  {
  }

  /** A pane that is not a split is the whole of its list. */
  lemma LoneIs(l: Layout, id: Id)
    ensures l.Pane? && id in Panes(l) ==> l == Pane(id)
  {
  }

  lemma DistinctParts(a: seq<Id>, b: seq<Id>)
    requires Distinct(a + b)
    ensures Distinct(a) && Distinct(b) && forall x :: x in a ==> x !in b
  {
    var s := a + b;
    forall i, j | 0 <= i < j < |a| ensures a[i] != a[j] {
      assert s[i] == a[i] && s[j] == a[j];
    }
    forall i, j | 0 <= i < j < |b| ensures b[i] != b[j] {
      assert s[|a| + i] == b[i] && s[|a| + j] == b[j];
    }
    forall x | x in a ensures x !in b {
      var i :| 0 <= i < |a| && a[i] == x;
      forall j | 0 <= j < |b| ensures b[j] != x {
        assert s[i] == a[i] && s[|a| + j] == b[j];
      }
    }
  }

  /** An id that is nowhere in the layout closes nothing. */
  lemma {:induction false} CloseMisses(l: Layout, id: Id)
    requires id !in Panes(l)
    ensures CloseAt(l, id) == (l, false)
  {
    match l
    case Pane(_) =>
    case Split(_, a, b) =>
      CloseMisses(a, id);
      CloseMisses(b, id);
  }

  /** Closing a pane that was just split off gives back the identical layout. */
  lemma {:induction false} CloseUndoesSplit(l: Layout, target: Id, added: Id, dir: string)
    requires target in Panes(l) && added !in Panes(l)
    ensures CloseAt(SplitAt(l, target, added, dir).0, added) == (l, true)
  {
    match l
    case Pane(_) =>
    case Split(d, a, b) =>
      SplitInserts(a, target, added, dir);
      if target in Panes(a) {
        CloseUndoesSplit(a, target, added, dir);
        assert SplitAt(a, target, added, dir).0.Split?;
        assert b != Pane(added);
      } else {
        CloseUndoesSplit(b, target, added, dir);
        CloseMisses(a, added);
        assert a != Pane(added);
      }
  }

  // ---------------------------------------------------------------------------
  // Renaming and checking
  // ---------------------------------------------------------------------------

  lemma {:induction false} RenamedPanes(l: Layout, ids: seq<Id>)
    requires |ids| == |Panes(l)|
    ensures Panes(Renamed(l, ids)) == ids
  {
    match l
    case Pane(_) => assert ids == [ids[0]];
    case Split(_, a, b) =>
      RenamedPanes(a, ids[..|Panes(a)|]);
      RenamedPanes(b, ids[|Panes(a)|..]);
  }

  /** The panes of a list that carry an id. */
  function WithId(ids: seq<Id>): seq<Id> {
    if ids == [] then [] else (if ids[0] == "" then [] else [ids[0]]) + WithId(ids[1..])
  }

  lemma {:induction false} WithIdCounts(ids: seq<Id>, id: Id)
    ensures multiset(WithId(ids))[id] == if id == "" then 0 else multiset(ids)[id]
    ensures id in WithId(ids) <==> id in ids && id != ""
    decreases |ids|
  {
    if ids != [] {
      WithIdCounts(ids[1..], id);
      assert ids == [ids[0]] + ids[1..];
    }
  }

  lemma {:induction false} AllWithId(ids: seq<Id>)
    requires "" !in ids
    ensures WithId(ids) == ids
    decreases |ids|
  {
    if ids != [] {
      AllWithId(ids[1..]);
    }
  }

  /** A layout passes the check if and only if its panes with an id are the expected
      ones, each once; panes without one do not matter. */
  lemma MatchesMeans(l: Layout, expected: seq<Id>)
    requires Distinct(expected) && "" !in expected
    ensures Matches(l, expected) <==> multiset(WithId(Panes(l))) == multiset(expected)
  {
    hide Distinct, Matches, WithId;
    if Matches(l, expected) {
      MatchesSame(l, expected);
    }
    if multiset(WithId(Panes(l))) == multiset(expected) {
      SameMatches(l, expected);
    }
  }

  lemma MatchesSame(l: Layout, expected: seq<Id>)
    requires Distinct(expected) && "" !in expected && Matches(l, expected)
    ensures multiset(WithId(Panes(l))) == multiset(expected)
  {
    hide Distinct, WithId;
    var ids := Panes(l);
    var kinds := set id | id in ids && id != "";
    var wanted := set id | id in expected;
    DistinctSize(expected);
    forall id | id in wanted ensures id in kinds {
      assert Count(ids, id) == 1;
    }
    SameSize(wanted, kinds);
    forall id ensures multiset(WithId(ids))[id] == multiset(expected)[id] {
      CountDistinct(expected, id);
      WithIdCounts(ids, id);
      assert id in kinds <==> id in ids && id != "";
      assert id in wanted ==> Count(ids, id) == 1;
    }
  }

  lemma SameMatches(l: Layout, expected: seq<Id>)
    requires Distinct(expected) && "" !in expected && multiset(WithId(Panes(l))) == multiset(expected)
    ensures Matches(l, expected)
  {
    hide Distinct, WithId;
    var ids := Panes(l);
    DistinctSize(expected);
    var kinds, wanted := set id | id in ids && id != "", set id | id in expected;
    forall id ensures id in kinds <==> id in wanted {
      WithIdCounts(ids, id);
      assert id in WithId(ids) <==> id in multiset(WithId(ids));
      assert id in expected <==> id in multiset(expected);
    }
    assert kinds == wanted;
    forall id | id in expected ensures Count(ids, id) == 1 {
      CountDistinct(expected, id);
      WithIdCounts(ids, id);
    }
  }

  lemma DistinctTail(ids: seq<Id>)
    requires ids != [] && Distinct(ids)
    ensures Distinct(ids[1..]) && ids[0] !in ids[1..] && ids == [ids[0]] + ids[1..]
  {
  }

  lemma {:induction false} CountDistinct(ids: seq<Id>, id: Id)
    requires Distinct(ids)
    ensures multiset(ids)[id] == if id in ids then 1 else 0
    decreases |ids|
  {
    hide Distinct;
    if ids != [] {
      DistinctTail(ids);
      CountDistinct(ids[1..], id);
    }
  }

  lemma {:induction false} DistinctSize(ids: seq<Id>)
    requires Distinct(ids)
    ensures |set id | id in ids| == |ids|
    decreases |ids|
  {
    hide Distinct;
    if ids != [] {
      var rest := ids[1..];
      DistinctTail(ids);
      DistinctSize(rest);
      assert (set id | id in ids) == {ids[0]} + (set id | id in rest);
    }
  }

  lemma SameSize(a: set<Id>, b: set<Id>)
    requires a <= b && |a| == |b|
    ensures a == b
  {
    assert b == a + (b - a) && a !! (b - a);
    assert |b - a| == 0;
  }
}
