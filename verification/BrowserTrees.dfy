/** The browser's copy of a layout: panes are found by walking the leaves, and
    edits go through the parent of the node they replace. */
module BrowserTrees {
  import opened Layouts
  import opened LayoutNodes

  /** The part of a tree below one of its nodes. */
  function Sub(t: Tree, n: Node): Tree
    requires n in Nodes(t)
  {
    if t.n == n then t else match t
      case Leaf(_) => t
      case Fork(_, a, b) => if n in Nodes(a) then Sub(a, n) else Sub(b, n)
  }

  /** The tree with the part below `hole` replaced by s. */
  function Patch(t: Tree, hole: Node, s: Tree): Tree {
    if t.n == hole then s else match t
      case Leaf(_) => t
      case Fork(n, a, b) => Fork(n, Patch(a, hole, s), Patch(b, hole, s))
  }

  /** A layout has the tree's shape. */
  predicate Fits(t: Tree, v: Layout) {
    match t
    case Leaf(_) => v.Pane?
    case Fork(_, a, b) => v.Split? && Fits(a, v.first) && Fits(b, v.second)
  }

  /** The part of a layout below a node of the tree it has the shape of. */
  function Below(t: Tree, v: Layout, n: Node): Layout
    requires Fits(t, v) && n in Nodes(t)
  {
    if t.n == n || t.Leaf? then v else if n in Nodes(t.a) then Below(t.a, v.first, n) else Below(t.b, v.second, n)
  }

  /** The layout with the part below `hole` replaced by l. */
  function Filled(t: Tree, v: Layout, hole: Node, l: Layout): Layout
    requires Fits(t, v)
  {
    if t.n == hole then l
    else if t.Leaf? then v
    else Layouts.Split(v.dir, Filled(t.a, v.first, hole, l), Filled(t.b, v.second, hole, l))
  }

  lemma {:induction false} Elsewhere(t: Tree, v: Layout, hole: Node, s: Tree, l: Layout)
    requires hole !in Nodes(t) && Fits(t, v)
    ensures Patch(t, hole, s) == t && Filled(t, v, hole, l) == v
  {
    RootIn(t);
    if t.Fork? {
      Elsewhere(t.a, v.first, hole, s, l);
      Elsewhere(t.b, v.second, hole, s, l);
    }
  }

  /** `p` has `hole` as a child. */
  predicate Parent(p: Node, first: bool, hole: Node)
    reads p
  {
    !p.pane && (if first then p.first == hole else p.second == hole)
  }

  method FindPane(node: Node, ghost t: Tree, id: Id) returns (found: Node?)
    requires t.n == node && Shaped(t)
    ensures found == null <==> id !in Panes(View(t))
    ensures found != null ==> found in Nodes(t) && found.pane && found.id == id
    decreases t
  {
    hide Nodes, Shaped, View;
    Parts(t);
    Allocated(t);
    if node.pane {
      return if node.id == id then node else null;
    }
    Allocated(t.a);
    Allocated(t.b);
    var earlier := FindPane(node.first, t.a, id);
    var later := FindPane(node.second, t.b, id);
    return if later != null then later else earlier;
  }

  method FindParent(node: Node, ghost t: Tree, target: Node) returns (parent: Node?, first: bool)
    requires t.n == node && Shaped(t)
    ensures parent == null <==> target !in Nodes(t) || target == node
    ensures parent != null ==> parent in Nodes(t) && Parent(parent, first, target)
    decreases t
  {
    hide Nodes, Shaped, View;
    Parts(t);
    Allocated(t);
    if node.pane {
      return null, false;
    }
    Allocated(t.a);
    Allocated(t.b);
    if node.first == target {
      return node, true;
    }
    if node.second == target {
      return node, false;
    }
    parent, first := FindParent(node.first, t.a, target);
    if parent == null {
      parent, first := FindParent(node.second, t.b, target);
    }
  }

  // ---------------------------------------------------------------------------
  // Relinking one child
  // ---------------------------------------------------------------------------

  /** No node occurs twice. */
  predicate Apart(t: Tree) {
    t.Fork? ==>
      && t.n !in Nodes(t.a) && t.n !in Nodes(t.b) && Nodes(t.a) !! Nodes(t.b)
      && Apart(t.a) && Apart(t.b)
  }

  /** Somewhere in the tree, `hole` is the first or second child of p. */
  predicate Above(t: Tree, p: Node, first: bool, hole: Node) {
    t.Fork? && ((t.n == p && hole == if first then t.a.n else t.b.n) || Above(t.a, p, first, hole) || Above(t.b, p, first, hole))
  }

  lemma {:induction false} ParentAbove(t: Tree, p: Node, first: bool, hole: Node)
    requires Shaped(t) && p in Nodes(t) && Parent(p, first, hole)
    ensures Above(t, p, first, hole)
  {
    if t.Fork? && p != t.n {
      if p in Nodes(t.a) {
        ParentAbove(t.a, p, first, hole);
      } else {
        ParentAbove(t.b, p, first, hole);
      }
    }
  }

  lemma {:induction false} AboveIn(t: Tree, p: Node, first: bool, hole: Node)
    requires Above(t, p, first, hole)
    ensures p in Nodes(t) && hole in Nodes(t) && (Apart(t) ==> hole != t.n && hole != p)
  {
    if t.n == p && hole == if first then t.a.n else t.b.n {
      RootIn(t.a);
      RootIn(t.b);
    } else if Above(t.a, p, first, hole) {
      AboveIn(t.a, p, first, hole);
    } else {
      AboveIn(t.b, p, first, hole);
    }
  }

  lemma RootIn(t: Tree)
    ensures t.n in Nodes(t)
  {
  }

  /** What the nodes hold at some moment. */
  datatype Fields = Fields(pane: bool, id: Id, dir: string, first: Node?, second: Node?)

  type Moment = map<Node, Fields>

  ghost function Now(ns: set<Node>): Moment
    reads ns
  {
    map n | n in ns :: Fields(n.pane, n.id, n.dir, n.first, n.second)
  }

  /** The tree is shaped at that moment, and the layout it stands for. */
  predicate ShapedAt(k: Moment, t: Tree) {
    t.n in k && match t
      case Leaf(n) => k[n].pane
      case Fork(n, a, b) =>
        && !k[n].pane && k[n].first == a.n && k[n].second == b.n
        && n !in Nodes(a) && n !in Nodes(b) && Nodes(a) !! Nodes(b)
        && ShapedAt(k, a) && ShapedAt(k, b)
  }

  function ViewAt(k: Moment, t: Tree): Layout
    requires ShapedAt(k, t)
  {
    match t
    case Leaf(n) => Layouts.Pane(k[n].id)
    case Fork(n, a, b) => Layouts.Split(k[n].dir, ViewAt(k, a), ViewAt(k, b))
  }

  lemma {:induction false} NowShaped(t: Tree, ns: set<Node>)
    requires Nodes(t) <= ns
    ensures Shaped(t) <==> ShapedAt(Now(ns), t)
    ensures Shaped(t) ==> View(t) == ViewAt(Now(ns), t)
  {
    if t.Fork? {
      NowShaped(t.a, ns);
      NowShaped(t.b, ns);
    }
  }

  lemma {:induction false} Same(k: Moment, k': Moment, t: Tree)
    requires ShapedAt(k, t) && forall n :: n in Nodes(t) ==> n in k && n in k' && k'[n] == k[n]
    ensures ShapedAt(k', t) && ViewAt(k', t) == ViewAt(k, t)
  {
    RootIn(t);
    if t.Fork? {
      Same(k, k', t.a);
      Same(k, k', t.b);
    }
  }

  lemma {:induction false} ViewAtFits(k: Moment, t: Tree)
    requires ShapedAt(k, t)
    ensures Fits(t, ViewAt(k, t)) && Apart(t)
  {
    if t.Fork? {
      ViewAtFits(k, t.a);
      ViewAtFits(k, t.b);
    }
  }

  lemma {:induction false} SubIn(t: Tree, n: Node)
    requires n in Nodes(t)
    ensures Nodes(Sub(t, n)) <= Nodes(t)
  {
    if t.n != n && t.Fork? {
      if n in Nodes(t.a) {
        SubIn(t.a, n);
      } else {
        SubIn(t.b, n);
      }
    }
  }

  /** From one moment to the other p's slot was given the root of s, and everything
      else outside what hung there stayed as it was. */
  predicate Relinked(k: Moment, k': Moment, t: Tree, hole: Node, s: Tree, p: Node, first: bool)
    requires hole in Nodes(t)
  {
    && ShapedAt(k, t) && ShapedAt(k', s) && Above(t, p, first, hole)
    && (forall n :: n in Nodes(s) ==> n in Nodes(Sub(t, hole)) || n !in Nodes(t))
    && (forall n :: n in Nodes(t) ==> n in k && n in k')
    && (forall n :: n in Nodes(t) && n != p && n !in Nodes(Sub(t, hole)) ==> k'[n] == k[n])
    && p in Nodes(t) && k'[p] == (if first then k[p].(first := s.n) else k[p].(second := s.n))
  }

  /** One level of a tree that is not the hole itself. */
  lemma Level(t: Tree, v: Layout, hole: Node, s: Tree, l: Layout)
    requires t.Fork? && t.n != hole && hole in Nodes(t) && Apart(t) && Fits(t, v)
    ensures Fits(t.a, v.first) && Fits(t.b, v.second) && Apart(t.a) && Apart(t.b)
    ensures Nodes(t) == {t.n} + Nodes(t.a) + Nodes(t.b) && Nodes(t.a) !! Nodes(t.b) && t.n !in Nodes(t.a) && t.n !in Nodes(t.b)
    ensures t.a.n in Nodes(t.a) && t.b.n in Nodes(t.b)
    ensures Patch(t, hole, s) == Fork(t.n, Patch(t.a, hole, s), Patch(t.b, hole, s))
    ensures (t.a.n != hole ==> Patch(t.a, hole, s).n == t.a.n) && (t.b.n != hole ==> Patch(t.b, hole, s).n == t.b.n)
    ensures Filled(t, v, hole, l) == Layouts.Split(v.dir, Filled(t.a, v.first, hole, l), Filled(t.b, v.second, hole, l))
    ensures if hole in Nodes(t.a) then Sub(t, hole) == Sub(t.a, hole) else hole in Nodes(t.b) && Sub(t, hole) == Sub(t.b, hole)
  {
    RootIn(t.a);
    RootIn(t.b);
  }

  /** A hole that is not right here is on one side, with its parent. */
  lemma AboveOne(t: Tree, p: Node, first: bool, hole: Node)
    requires Above(t, p, first, hole) && Apart(t) && !(t.n == p && hole == if first then t.a.n else t.b.n)
    ensures t.Fork? && hole != t.n && hole != p
    ensures (Above(t.a, p, first, hole) && hole in Nodes(t.a) && p in Nodes(t.a) && hole != t.a.n)
      || (Above(t.b, p, first, hole) && hole in Nodes(t.b) && p in Nodes(t.b) && hole != t.b.n)
  {
    AboveIn(t, p, first, hole);
    if Above(t.a, p, first, hole) {
      AboveIn(t.a, p, first, hole);
    } else {
      AboveIn(t.b, p, first, hole);
    }
  }

  /** What relinking the whole says of the side of the hole and of the other side. */
  lemma GraftSide(k: Moment, k': Moment, t: Tree, c: Tree, o: Tree, hole: Node, s: Tree, p: Node, first: bool)
    requires hole in Nodes(t) && Relinked(k, k', t, hole, s, p, first)
    requires Nodes(t) == {t.n} + Nodes(c) + Nodes(o) && Nodes(c) !! Nodes(o) && t.n !in Nodes(c) && t.n !in Nodes(o)
    requires hole in Nodes(c) && Sub(t, hole) == Sub(c, hole) && ShapedAt(k, c)
    ensures p in Nodes(c) && Above(c, p, first, hole) ==> Relinked(k, k', c, hole, s, p, first) && t.n != p && k'[t.n] == k[t.n]
    ensures p in Nodes(c) || p == t.n ==> forall n :: n in Nodes(o) ==> n in k && n in k' && k'[n] == k[n]
    ensures t.n !in Nodes(s) && Nodes(s) !! Nodes(o) && t.n in k && t.n in k'
  {
    hide Nodes, ShapedAt, Sub, Above;
    SubIn(c, hole);
  }

  lemma ForkAt(k: Moment, n: Node, a: Tree, b: Tree)
    requires n in k && !k[n].pane && k[n].first == a.n && k[n].second == b.n && ShapedAt(k, a) && ShapedAt(k, b)
    requires Nodes(a) !! Nodes(b) && n !in Nodes(a) && n !in Nodes(b)
    ensures ShapedAt(k, Fork(n, a, b)) && ViewAt(k, Fork(n, a, b)) == Layouts.Split(k[n].dir, ViewAt(k, a), ViewAt(k, b))
    ensures Nodes(Fork(n, a, b)) == {n} + Nodes(a) + Nodes(b)
  {
  }

  lemma LevelAt(k: Moment, t: Tree)
    requires ShapedAt(k, t) && t.Fork?
    ensures ShapedAt(k, t.a) && ShapedAt(k, t.b) && t.n in k && !k[t.n].pane && k[t.n].first == t.a.n && k[t.n].second == t.b.n
    ensures ViewAt(k, t) == Layouts.Split(k[t.n].dir, ViewAt(k, t.a), ViewAt(k, t.b))
  {
  }

  /** Relinking patches the tree, and fills the layout. */
  lemma {:induction false} Grafted(k: Moment, k': Moment, t: Tree, hole: Node, s: Tree, p: Node, first: bool)
    requires hole in Nodes(t) && Relinked(k, k', t, hole, s, p, first) && Apart(t) && Fits(t, ViewAt(k, t))
    ensures var t' := Patch(t, hole, s);
      ShapedAt(k', t') && ViewAt(k', t') == Filled(t, ViewAt(k, t), hole, ViewAt(k', s)) && Nodes(t') <= Nodes(t) + Nodes(s)
    decreases t
  {
    hide Nodes, ShapedAt, ViewAt, Patch, Filled, Sub, Above, Apart, Fits;
    AboveFork(t, p, first, hole);
    var v, l := ViewAt(k, t), ViewAt(k', s);
    Level(t, v, hole, s, l);
    LevelAt(k, t);
    var onA := hole in Nodes(t.a);
    var c, o := if onA then t.a else t.b, if onA then t.b else t.a;
    var vc, vo := if onA then v.first else v.second, if onA then v.second else v.first;
    GraftSide(k, k', t, c, o, hole, s, p, first);
    Elsewhere(o, vo, hole, s, l);
    if c.n == hole && p == t.n {
      HoleHere(c, vc, hole, s, l);
    } else {
      AboveOne(t, p, first, hole);
      Grafted(k, k', c, hole, s, p, first);
    }
    Same(k, k', o);
    if onA {
      ForkAt(k', t.n, Patch(t.a, hole, s), t.b);
    } else {
      ForkAt(k', t.n, t.a, Patch(t.b, hole, s));
    }
  }

  lemma HoleHere(t: Tree, v: Layout, hole: Node, s: Tree, l: Layout)
    requires t.n == hole && Fits(t, v)
    ensures Patch(t, hole, s) == s && Filled(t, v, hole, l) == l
  {
  }

  lemma AboveFork(t: Tree, p: Node, first: bool, hole: Node)
    requires Above(t, p, first, hole) && Apart(t)
    ensures t.Fork? && t.n != hole && p in Nodes(t)
    ensures p == t.n ==> hole == if first then t.a.n else t.b.n
  {
    AboveIn(t, p, first, hole);
    RootIn(t.a);
    RootIn(t.b);
    if Above(t.a, p, first, hole) {
      AboveIn(t.a, p, first, hole);
    }
    if Above(t.b, p, first, hole) {
      AboveIn(t.b, p, first, hole);
    }
  }

  // ---------------------------------------------------------------------------
  // The edits are the server's
  // ---------------------------------------------------------------------------

  lemma {:induction false} BelowIn(t: Tree, v: Layout, hole: Node)
    requires Fits(t, v) && hole in Nodes(t)
    ensures forall id :: id in Panes(Below(t, v, hole)) ==> id in Panes(v)
    ensures v.Pane? ==> Below(t, v, hole) == v
  {
    RootIn(t);
    if t.n != hole && t.Fork? {
      if hole in Nodes(t.a) {
        BelowIn(t.a, v.first, hole);
      } else {
        BelowIn(t.b, v.second, hole);
      }
    }
  }

  /** Filling a pane with a split of itself is splitting it. */
  lemma {:induction false} FilledSplit(t: Tree, v: Layout, hole: Node, id: Id, added: Id, dir: string)
    requires Fits(t, v) && Apart(t) && hole in Nodes(t) && Below(t, v, hole) == Layouts.Pane(id) && Distinct(Panes(v))
    ensures (Filled(t, v, hole, Layouts.Split(dir, Layouts.Pane(id), Layouts.Pane(added))), true) == SplitAt(v, id, added, dir)
  {
    hide Distinct;
    var l := Layouts.Split(dir, Layouts.Pane(id), Layouts.Pane(added));
    if t.n != hole && t.Fork? {
      DistinctParts(Panes(v.first), Panes(v.second));
      if hole in Nodes(t.a) {
        FilledSplit(t.a, v.first, hole, id, added, dir);
        Elsewhere(t.b, v.second, hole, t, l);
      } else {
        FilledSplit(t.b, v.second, hole, id, added, dir);
        Elsewhere(t.a, v.first, hole, t, l);
        BelowIn(t.b, v.second, hole);
        assert id in Panes(Layouts.Pane(id));
        SplitInserts(v.first, id, added, dir);
      }
    }
  }

  /** Filling a split with one child is closing the other. */
  lemma {:induction false} FilledClose(t: Tree, v: Layout, hole: Node, id: Id, first: bool)
    requires Fits(t, v) && Apart(t) && hole in Nodes(t) && Distinct(Panes(v))
    requires var w := Below(t, v, hole); w.Split? && Layouts.Pane(id) == if first then w.first else w.second
    ensures var w := Below(t, v, hole);
      (Filled(t, v, hole, if first then w.second else w.first), true) == CloseAt(v, id)
  {
    hide Distinct;
    var w := Below(t, v, hole);
    var l := if first then w.second else w.first;
    if t.Fork? {
      DistinctParts(Panes(v.first), Panes(v.second));
      assert id in Panes(Layouts.Pane(id)) && id in Panes(w);
      if t.n != hole {
        if hole in Nodes(t.a) {
          BelowIn(t.a, v.first, hole);
          FilledClose(t.a, v.first, hole, id, first);
          Elsewhere(t.b, v.second, hole, t, l);
        } else {
          BelowIn(t.b, v.second, hole);
          FilledClose(t.b, v.second, hole, id, first);
          Elsewhere(t.a, v.first, hole, t, l);
          CloseMisses(v.first, id);
        }
      }
    }
  }

  /** Below a node hangs what its part of the tree stands for. */
  lemma {:induction false} BelowIs(k: Moment, t: Tree, n: Node)
    requires ShapedAt(k, t) && n in Nodes(t) && Fits(t, ViewAt(k, t))
    ensures ShapedAt(k, Sub(t, n)) && Below(t, ViewAt(k, t), n) == ViewAt(k, Sub(t, n)) && Sub(t, n).n == n
  {
    if t.n != n && t.Fork? {
      if n in Nodes(t.a) {
        BelowIs(k, t.a, n);
      } else {
        BelowIs(k, t.b, n);
      }
    }
  }

  /** A parent is not below its child. */
  lemma {:induction false} AboveOutside(t: Tree, p: Node, first: bool, hole: Node)
    requires Above(t, p, first, hole) && Apart(t)
    ensures hole in Nodes(t) && p in Nodes(t) && p !in Nodes(Sub(t, hole))
  {
    AboveFork(t, p, first, hole);
    AboveIn(t, p, first, hole);
    RootIn(t.a);
    RootIn(t.b);
    if p == t.n {
      if hole in Nodes(t.a) {
        SubIn(t.a, hole);
      } else {
        SubIn(t.b, hole);
      }
    } else {
      AboveOne(t, p, first, hole);
      if hole in Nodes(t.a) {
        AboveOutside(t.a, p, first, hole);
      } else {
        AboveOutside(t.b, p, first, hole);
      }
    }
  }

  /** One slot of p differs between two moments. */
  predicate Reslotted(k: Moment, k': Moment, ns: set<Node>, p: Node, first: bool, child: Node) {
    && (forall n :: n in ns ==> n in k && n in k' && (n != p ==> k'[n] == k[n]))
    && p in ns && k'[p] == (if first then k[p].(first := child) else k[p].(second := child))
  }

  lemma LeafSub(k: Moment, t: Tree, n: Node)
    requires ShapedAt(k, t) && n in Nodes(t) && Fits(t, ViewAt(k, t)) && n in k && k[n].pane
    ensures Sub(t, n) == Leaf(n) && Below(t, ViewAt(k, t), n) == Layouts.Pane(k[n].id)
  {
    BelowIs(k, t, n);
  }

  lemma ForkLeaves(k: Moment, n: Node, a: Node, b: Node)
    requires n in k && a in k && b in k && !k[n].pane && k[n].first == a && k[n].second == b
    requires k[a].pane && k[b].pane && n != a && n != b && a != b
    ensures var s := Fork(n, Leaf(a), Leaf(b));
      ShapedAt(k, s) && Nodes(s) == {n, a, b} && ViewAt(k, s) == Layouts.Split(k[n].dir, Layouts.Pane(k[a].id), Layouts.Pane(k[b].id))
    ensures Nodes(Leaf(a)) == {a}
  {
  }

  /** The split of a pane hung where the pane was. */
  lemma SplitGraft(k: Moment, k': Moment, t: Tree, pane: Node, p: Node, first: bool, split: Node, added: Node)
    requires ShapedAt(k, t) && Distinct(Panes(ViewAt(k, t))) && pane in Nodes(t) && pane in k && k[pane].pane
    requires Above(t, p, first, pane) && Reslotted(k, k', Nodes(t), p, first, split)
    requires split !in Nodes(t) && added !in Nodes(t) && split != added && split in k' && added in k'
    requires !k'[split].pane && k'[split].first == pane && k'[split].second == added && k'[added].pane
    ensures var t' := Patch(t, pane, Fork(split, Leaf(pane), Leaf(added)));
      && ShapedAt(k', t') && Nodes(t') <= Nodes(t) + {split, added}
      && (ViewAt(k', t'), true) == SplitAt(ViewAt(k, t), k[pane].id, k'[added].id, k'[split].dir)
  {
    hide Patch, Filled, Sub, Above, Apart, Fits, Below, Distinct;
    var s := Fork(split, Leaf(pane), Leaf(added));
    ViewAtFits(k, t);
    LeafSub(k, t, pane);
    AboveIn(t, p, first, pane);
    ForkLeaves(k', split, pane, added);
    Grafted(k, k', t, pane, s, p, first);
    FilledSplit(t, ViewAt(k, t), pane, k[pane].id, k'[added].id, k'[split].dir);
  }

  /** A pane's parent, and the sibling's part of the tree. */
  lemma SiblingSub(k: Moment, t: Tree, p: Node, first: bool, pane: Node)
    requires ShapedAt(k, t) && Fits(t, ViewAt(k, t)) && Apart(t) && Above(t, p, first, pane) && pane in k && k[pane].pane
    ensures p in Nodes(t) && Sub(t, p).Fork? && Sub(t, p).n == p && ShapedAt(k, Sub(t, p))
    ensures var w := Sub(t, p); var c := if first then w.b else w.a;
      c.n == (if first then k[p].second else k[p].first) && ShapedAt(k, c) && Nodes(c) <= Nodes(w) && p !in Nodes(c)
    ensures Below(t, ViewAt(k, t), p).Split?
    ensures var w := Sub(t, p); var v := Below(t, ViewAt(k, t), p);
      && Layouts.Pane(k[pane].id) == (if first then v.first else v.second)
      && ViewAt(k, if first then w.b else w.a) == (if first then v.second else v.first)
  {
    hide Below;
    AboveIn(t, p, first, pane);
    BelowIs(k, t, p);
    SubAbove(t, p, first, pane);
  }

  lemma {:induction false} SubAbove(t: Tree, p: Node, first: bool, hole: Node)
    requires Above(t, p, first, hole) && Apart(t) && p in Nodes(t)
    ensures var w := Sub(t, p); w.n == p && w.Fork? && hole == if first then w.a.n else w.b.n
  {
    AboveFork(t, p, first, hole);
    if p != t.n {
      AboveOne(t, p, first, hole);
      if p in Nodes(t.a) {
        SubAbove(t.a, p, first, hole);
      } else {
        SubAbove(t.b, p, first, hole);
      }
    }
  }

  /** The sibling of a pane hung where their parent was. */
  lemma CloseGraft(k: Moment, k': Moment, t: Tree, pane: Node, p: Node, first: bool, g: Node, gfirst: bool)
    requires ShapedAt(k, t) && Distinct(Panes(ViewAt(k, t))) && pane in k && k[pane].pane && Above(t, p, first, pane)
    requires Above(t, g, gfirst, p) && p in Nodes(t)
    requires var w := Sub(t, p); w.Fork? && Reslotted(k, k', Nodes(t), g, gfirst, (if first then w.b else w.a).n)
    ensures var w := Sub(t, p); var t' := Patch(t, p, if first then w.b else w.a);
      && ShapedAt(k', t') && Nodes(t') <= Nodes(t)
      && (ViewAt(k', t'), true) == CloseAt(ViewAt(k, t), k[pane].id)
  {
    hide Patch, Filled, Sub, Above, Apart, Fits, Below, Distinct, ShapedAt, ViewAt, Nodes;
    ViewAtFits(k, t);
    SiblingSub(k, t, p, first, pane);
    var w := Sub(t, p);
    var c := if first then w.b else w.a;
    AboveIn(t, g, gfirst, p);
    AboveOutside(t, g, gfirst, p);
    SubIn(t, p);
    Same(k, k', c);
    Grafted(k, k', t, p, c, g, gfirst);
    FilledClose(t, ViewAt(k, t), p, k[pane].id, first);
  }

  // ---------------------------------------------------------------------------
  // The browser
  // ---------------------------------------------------------------------------

  /** reconstructLayout: fresh nodes for a layout from the server. */
  method Reconstruct(l: Layout) returns (root: Node, ghost t: Tree)
    ensures t.n == root && Shaped(t) && View(t) == l && forall n :: n in Nodes(t) ==> fresh(n)
    decreases l
  {
    hide Nodes, Shaped, View;
    if l.Pane? {
      root := new Node.Pane(l.id);
      LeafIs(root);
      return root, Leaf(root);
    }
    var first, ta := Reconstruct(l.first);
    Allocated(ta);
    var second, tb := Reconstruct(l.second);
    Allocated(tb);
    root := new Node.Split(l.dir, first, second);
    ForkIs(root, ta, tb);
    return root, Fork(root, ta, tb);
  }

  /** serializeTree. */
  method Serialize(node: Node, ghost t: Tree) returns (l: Layout)
    requires t.n == node && Shaped(t)
    ensures l == View(t)
    decreases t
  {
    hide Nodes, Shaped, View;
    Parts(t);
    Allocated(t);
    if node.pane {
      return Layouts.Pane(node.id);
    }
    Allocated(t.a);
    Allocated(t.b);
    var a := Serialize(node.first, t.a);
    var b := Serialize(node.second, t.b);
    return Layouts.Split(node.dir, a, b);
  }

  /** What the browser shows after an event, as a function of what it showed. */
  function AfterSplit(l: Layout, target: Id, added: Id, dir: string): Layout { SplitAt(l, target, added, dir).0 }

  function AfterClose(l: Layout, id: Id, server: Layout): Layout { if l == Layouts.Pane(id) then server else CloseAt(l, id).0 }

  class Browser {
    var root: Node
    ghost var tree: Tree

    ghost predicate Valid()
      reads this, Nodes(tree)
    {
      root == tree.n && Shaped(tree)
    }

    ghost function Shows(): Layout
      requires Valid()
      reads this, Nodes(tree)
    {
      View(tree)
    }

    constructor (server: Layout)
      ensures Valid() && Shows() == server && forall n :: n in Nodes(tree) ==> fresh(n)
    {
      var n, t := Reconstruct(server);
      root, tree := n, t;
    }

    /** The split of a pane takes the pane's place under its parent. */
    method HangSplit(parent: Node, first: bool, pane: Node, split: Node, fellow: Node)
      requires Valid() && Distinct(Panes(Shows())) && pane in Nodes(tree) && pane.pane
      requires parent in Nodes(tree) && Parent(parent, first, pane)
      requires split !in Nodes(tree) && fellow !in Nodes(tree) && split != fellow
      requires !split.pane && split.first == pane && split.second == fellow && fellow.pane
      modifies this`tree, parent
      ensures Valid() && Shows() == old(AfterSplit(Shows(), pane.id, fellow.id, split.dir))
      ensures Nodes(tree) <= old(Nodes(tree)) + {split, fellow}
    {
      hide Nodes, Shaped, View, ShapedAt, ViewAt, Above, Distinct, SplitAt, Patch, Fits, Sub, Apart;
      ghost var t, k := tree, Now(Nodes(tree));
      ghost var ns := Nodes(t) + {split, fellow};
      NowShaped(t, Nodes(t));
      ParentAbove(t, parent, first, pane);
      ViewAtFits(k, t);
      AboveIn(t, parent, first, pane);
      if first {
        parent.first := split;
      } else {
        parent.second := split;
      }
      tree := Patch(t, pane, Fork(split, Leaf(pane), Leaf(fellow)));
      SplitGraft(k, Now(ns), t, pane, parent, first, split, fellow);
      NowShaped(tree, ns);
      PatchRoot(t, pane, Fork(split, Leaf(pane), Leaf(fellow)));
    }

    method ApplySplit(target: Id, added: Id, dir: string)
      requires Valid() && Distinct(Panes(Shows()))
      modifies this, Nodes(tree)
      ensures Valid() && Shows() == AfterSplit(old(Shows()), target, added, dir)
      ensures forall n :: n in Nodes(tree) ==> n in old(Nodes(tree)) || fresh(n)
    {
      hide Nodes, Shaped, View, Distinct, SplitAt;
      Allocated(tree);
      SplitMisses(View(tree), target, added, dir);
      var pane := FindPane(root, tree, target);
      if pane == null {
        return;
      }
      var parent, first := FindParent(root, tree, pane);
      Allocated(tree);
      var fellow := new Node.Pane(added);
      var split := new Node.Split(dir, pane, fellow);
      if parent != null {
        HangSplit(parent, first, pane, split, fellow);
      } else {
        LoneRoot(tree);
        LeafIs(pane);
        LeafIs(fellow);
        root, tree := split, Fork(split, Leaf(pane), Leaf(fellow));
        ForkIs(split, Leaf(pane), Leaf(fellow));
      }
    }

    /** The sibling of a pane takes their parent's place. */
    method Promote(parent: Node, first: bool, pane: Node)
      requires Valid() && Distinct(Panes(Shows())) && pane in Nodes(tree) && pane.pane
      requires parent in Nodes(tree) && Parent(parent, first, pane)
      modifies this, Nodes(tree)
      ensures Valid() && Shows() == old(CloseAt(Shows(), pane.id).0) && old(Shows()).Split?
      ensures Nodes(tree) <= old(Nodes(tree))
    {
      hide Nodes, Shaped, View, ShapedAt, ViewAt, Above, Distinct, CloseAt, Patch, Fits, Sub, Apart, Below, Filled;
      ghost var t, k := tree, Now(Nodes(tree));
      NowShaped(t, Nodes(t));
      ParentAbove(t, parent, first, pane);
      ViewAtFits(k, t);
      SiblingSub(k, t, parent, first, pane);
      ghost var w := Sub(t, parent);
      ghost var c := if first then w.b else w.a;
      var sibling := if first then parent.second else parent.first;
      var grand, gfirst := FindParent(root, t, parent);
      if grand != null {
        HangSibling(grand, gfirst, sibling, parent, first, pane);
      } else {
        root, tree := sibling, c;
        RootSub(t, parent);
        RootClosed(k, t, pane, parent, first);
        NowShaped(c, Nodes(t));
      }
    }

    method HangSibling(grand: Node, gfirst: bool, sibling: Node, ghost parent: Node, ghost first: bool, ghost pane: Node)
      requires Valid() && Distinct(Panes(Shows())) && pane in Nodes(tree) && pane.pane
      requires parent in Nodes(tree) && Parent(parent, first, pane) && sibling == if first then parent.second else parent.first
      requires grand in Nodes(tree) && Parent(grand, gfirst, parent)
      modifies this`tree, grand
      ensures Valid() && Shows() == old(CloseAt(Shows(), pane.id).0) && old(Shows()).Split?
      ensures Nodes(tree) <= old(Nodes(tree))
    {
      hide Nodes, Shaped, View, ShapedAt, ViewAt, Above, Distinct, CloseAt, Patch, Fits, Sub, Apart, Below, Filled;
      ghost var t, k := tree, Now(Nodes(tree));
      NowShaped(t, Nodes(t));
      ParentAbove(t, parent, first, pane);
      ParentAbove(t, grand, gfirst, parent);
      ViewAtFits(k, t);
      SiblingSub(k, t, parent, first, pane);
      AboveIn(t, grand, gfirst, parent);
      SplitRoot(t);
      ghost var w := Sub(t, parent);
      if gfirst {
        grand.first := sibling;
      } else {
        grand.second := sibling;
      }
      tree := Patch(t, parent, if first then w.b else w.a);
      CloseGraft(k, Now(Nodes(t)), t, pane, parent, first, grand, gfirst);
      NowShaped(tree, Nodes(t));
      PatchRoot(t, parent, if first then w.b else w.a);
    }

    method ApplyClosePane(id: Id, server: Layout)
      requires Valid() && Distinct(Panes(Shows()))
      modifies this, Nodes(tree)
      ensures Valid() && Shows() == AfterClose(old(Shows()), id, server)
      ensures forall n :: n in Nodes(tree) ==> n in old(Nodes(tree)) || fresh(n)
    {
      hide Nodes, Shaped, View, Distinct, CloseAt;
      Allocated(tree);
      CloseMissing(View(tree), id);
      var pane := FindPane(root, tree, id);
      if pane == null {
        return;
      }
      var parent, first := FindParent(root, tree, pane);
      if parent != null {
        Promote(parent, first, pane);
      } else {
        // The last pane: the server made a replacement.
        LoneRoot(tree);
        root, tree := Reconstruct(server);
      }
    }
  }

  /** An inner node makes the root a split. */
  lemma SplitRoot(t: Tree)
    requires Shaped(t)
    ensures View(t).Pane? ==> t.Leaf? && Nodes(t) == {t.n} && t.n.pane
  {
  }

  lemma CloseMissing(l: Layout, id: Id)
    ensures id !in Panes(l) ==> l != Layouts.Pane(id) && CloseAt(l, id).0 == l
  {
    if id !in Panes(l) {
      CloseMisses(l, id);
      NotLone(l, id);
    }
  }

  lemma SplitMisses(l: Layout, target: Id, added: Id, dir: string)
    ensures target !in Panes(l) ==> SplitAt(l, target, added, dir).0 == l
    ensures l.Pane? && l.id == target ==> SplitAt(l, target, added, dir).0 == Layouts.Split(dir, l, Layouts.Pane(added))
  {
    SplitInserts(l, target, added, dir);
  }

  lemma NotLone(l: Layout, id: Id)
    requires id !in Panes(l)
    ensures l != Layouts.Pane(id)
  {
    assert Panes(Layouts.Pane(id)) == [id];
  }

  /** A root that is a pane is the whole tree. */
  lemma LoneRoot(t: Tree)
    requires Shaped(t) && t.n.pane
    ensures View(t) == Layouts.Pane(t.n.id)
  {
  }

  lemma PatchRoot(t: Tree, hole: Node, s: Tree)
    requires t.n != hole
    ensures Patch(t, hole, s).n == t.n
  {
  }

  lemma RootSub(t: Tree, n: Node)
    requires n == t.n
    ensures n in Nodes(t) && Sub(t, n) == t
  {
    RootIn(t);
  }

  /** Closing a child of the root leaves the other child. */
  lemma RootClosed(k: Moment, t: Tree, pane: Node, p: Node, first: bool)
    requires ShapedAt(k, t) && p == t.n && Above(t, p, first, pane) && pane in k && k[pane].pane && Distinct(Panes(ViewAt(k, t)))
    ensures t.Fork? && ShapedAt(k, if first then t.b else t.a)
    ensures (ViewAt(k, if first then t.b else t.a), true) == CloseAt(ViewAt(k, t), k[pane].id)
    ensures Nodes(if first then t.b else t.a) <= Nodes(t) && ViewAt(k, t).Split?
  {
    ViewAtFits(k, t);
    AboveFork(t, p, first, pane);
    DistinctParts(Panes(ViewAt(k, t.a)), Panes(ViewAt(k, t.b)));
    assert k[pane].id in Panes(Layouts.Pane(k[pane].id));
  }
}
