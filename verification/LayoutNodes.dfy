/** The layout tree in place: nodes that are edited while the recursion returns
    (the server) or through their parent (the browser). */
module LayoutNodes {
  import opened Layouts

  class Node {
    var pane: bool
    var id: Id
    var dir: string
    var first: Node?
    var second: Node?

    constructor Pane(id: Id)
      ensures pane && this.id == id
    {
      this.pane, this.id, this.dir, this.first, this.second := true, id, "", null, null;
    }

    constructor Split(dir: string, first: Node, second: Node)
      ensures !pane && this.dir == dir && this.first == first && this.second == second
    {
      this.pane, this.id, this.dir, this.first, this.second := false, "", dir, first, second;
    }
  }

  /** The nodes of a tree and how they hang together. */
  datatype Tree = Leaf(n: Node) | Fork(n: Node, a: Tree, b: Tree)

  function Nodes(t: Tree): set<Node> {
    match t
    case Leaf(n) => {n}
    case Fork(n, a, b) => {n} + Nodes(a) + Nodes(b)
  }

  /** The heap agrees with the tree, and no node occurs twice. */
  ghost predicate Shaped(t: Tree)
    reads Nodes(t)
  {
    match t
    case Leaf(n) => n.pane
    case Fork(n, a, b) =>
      && !n.pane && n.first == a.n && n.second == b.n
      && n !in Nodes(a) && n !in Nodes(b) && Nodes(a) !! Nodes(b)
      && Shaped(a) && Shaped(b)
  }

  /** The layout a tree of nodes stands for. */
  ghost function View(t: Tree): Layout
    reads Nodes(t)
  {
    match t
    case Leaf(n) => Layouts.Pane(n.id)
    case Fork(n, a, b) => Layouts.Split(n.dir, View(a), View(b))
  }

  lemma Allocated(t: Tree)
    ensures forall n :: n in Nodes(t) ==> allocated(n)
    ensures t.n in Nodes(t)
  {
  }

  /** What a shaped tree is, one level down. */
  lemma Parts(t: Tree)
    requires Shaped(t)
    ensures t.n.pane <==> t.Leaf?
    ensures t.Leaf? ==> View(t) == Layouts.Pane(t.n.id) && Nodes(t) == {t.n}
    ensures t.Fork? ==> Shaped(t.a) && Shaped(t.b) && t.n.first == t.a.n && t.n.second == t.b.n
    ensures t.Fork? ==> View(t) == Layouts.Split(t.n.dir, View(t.a), View(t.b))
    ensures t.Fork? ==> Nodes(t) == {t.n} + Nodes(t.a) + Nodes(t.b) && t.n !in Nodes(t.a) && t.n !in Nodes(t.b)
    ensures t.Fork? ==> Nodes(t.a) !! Nodes(t.b)
  {
  }

  lemma LeafIs(n: Node)
    requires n.pane
    ensures Shaped(Leaf(n)) && View(Leaf(n)) == Layouts.Pane(n.id) && Nodes(Leaf(n)) == {n}
  {
  }

  lemma ForkIs(n: Node, a: Tree, b: Tree)
    requires !n.pane && n.first == a.n && n.second == b.n && Shaped(a) && Shaped(b)
    requires Nodes(a) !! Nodes(b) && n !in Nodes(a) && n !in Nodes(b)
    ensures var t := Fork(n, a, b);
      Shaped(t) && View(t) == Layouts.Split(n.dir, View(a), View(b)) && Nodes(t) == {n} + Nodes(a) + Nodes(b)
  {
  }

  // ---------------------------------------------------------------------------
  // The server's edits
  // ---------------------------------------------------------------------------

  method SplitLayoutNode(node: Node, ghost t: Tree, target: Id, added: Id, dir: string) returns (root: Node, found: bool, ghost t': Tree)
    requires t.n == node && Shaped(t)
    modifies Nodes(t)
    ensures t'.n == root && Shaped(t')
    ensures forall n :: n in Nodes(t') ==> n in Nodes(t) || fresh(n)
    ensures (View(t'), found) == SplitAt(old(View(t)), target, added, dir)
    ensures !found ==> t' == t
    decreases t
  {
    hide Nodes, Shaped, View;
    Parts(t);
    Allocated(t);
    if node.pane {
      if node.id == target {
        var fellow := new Node.Pane(added);
        root := new Node.Split(dir, node, fellow);
        LeafIs(fellow);
        ForkIs(root, t, Leaf(fellow));
        return root, true, Fork(root, t, Leaf(fellow));
      }
      return node, false, t;
    }
    ghost var a, b := t.a, t.b;
    Allocated(b);
    var first, hit, a' := SplitLayoutNode(node.first, a, target, added, dir);
    node.first := first;
    ForkIs(node, a', b);
    if hit {
      return node, true, Fork(node, a', b);
    }
    var second, hit2, b' := SplitLayoutNode(node.second, b, target, added, dir);
    node.second := second;
    ForkIs(node, a', b');
    return node, hit2, Fork(node, a', b');
  }

  lemma LonePane(t: Tree, id: Id)
    requires Shaped(t)
    ensures t.n in Nodes(t) && (t.n.pane && t.n.id == id <==> View(t) == Layouts.Pane(id))
  {
  }

  method ClosePaneInLayout(node: Node, ghost t: Tree, id: Id) returns (root: Node, found: bool, ghost t': Tree)
    requires t.n == node && Shaped(t)
    modifies Nodes(t)
    ensures t'.n == root && Shaped(t') && Nodes(t') <= Nodes(t)
    ensures (View(t'), found) == CloseAt(old(View(t)), id)
    ensures !found ==> t' == t
    decreases t
  {
    hide Nodes, Shaped, View;
    Parts(t);
    Allocated(t);
    if node.pane {
      return node, false, t;
    }
    ghost var a, b := t.a, t.b;
    LonePane(a, id);
    LonePane(b, id);
    Allocated(b);
    if node.first.pane && node.first.id == id {
      return node.second, true, b;
    }
    if node.second.pane && node.second.id == id {
      return node.first, true, a;
    }
    var first, hit, a' := ClosePaneInLayout(node.first, a, id);
    node.first := first;
    ForkIs(node, a', b);
    if hit {
      return node, true, Fork(node, a', b);
    }
    var second, hit2, b' := ClosePaneInLayout(node.second, b, id);
    node.second := second;
    ForkIs(node, a', b');
    return node, hit2, Fork(node, a', b');
  }
}
