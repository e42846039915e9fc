/** A server's layout and a browser's copy of it, both heap trees, driven through a
    run of commands: the recursive edits and the parent-pointer edits stay in step. */
module Replicas {
  import opened Layouts
  import opened LayoutNodes
  import opened BrowserTrees
  import opened Agreement

  class Server {
    var root: Node
    ghost var tree: Tree

    ghost predicate Valid()
      reads this, Nodes(tree)
    {
      root == tree.n && Shaped(tree)
    }

    ghost function Shows(): Layout
      requires Valid()
      reads this, Nodes(tree)
    {
      View(tree)
    }

    constructor (l: Layout)
      ensures Valid() && Shows() == l && forall n :: n in Nodes(tree) ==> fresh(n)
    {
      var n, t := Reconstruct(l);
      root, tree := n, t;
    }

    /** SplitPane, once the session runs. */
    method SplitPane(target: Id, dir: string, drawn: Id) returns (ev: Option<Agreement.Event>)
      requires Valid()
      modifies this, Nodes(tree)
      ensures Valid() && (Shows(), ev) == Serve(old(Shows()), Command.Split(target, dir, drawn))
      ensures forall n :: n in Nodes(tree) ==> n in old(Nodes(tree)) || fresh(n)
    {
      hide Nodes, Shaped, View, SplitAt;
      Allocated(tree);
      SplitInserts(View(tree), target, drawn, dir);
      var found;
      root, found, tree := SplitLayoutNode(root, tree, target, drawn, dir);
      ev := if found then Some(Created(drawn, target, dir)) else None;
    }

    /** ClosePane: the last pane is replaced, any other removed; the event carries
        the layout as it is then. */
    method ClosePane(id: Id, drawn: Id) returns (ev: Option<Agreement.Event>)
      requires Valid() && Distinct(Panes(Shows()))
      modifies this, Nodes(tree)
      ensures Valid() && (Shows(), ev) == Serve(old(Shows()), Command.Close(id, drawn))
      ensures forall n :: n in Nodes(tree) ==> n in old(Nodes(tree)) || fresh(n)
    {
      hide Nodes, Shaped, View, CloseAt, Distinct, Panes;
      Allocated(tree);
      var pane := FindPane(root, tree, id);
      if pane == null {
        return None;
      }
      LonePane(tree, id);
      LoneIs(View(tree), id);
      if root.pane && root.id == id {
        Renew(drawn);
      } else {
        Remove(id);
      }
      Allocated(tree);
      var l := Serialize(root, tree);
      ev := Some(Closed(id, l));
    }

    method Renew(drawn: Id)
      modifies this
      ensures Valid() && Shows() == Layouts.Pane(drawn) && forall n :: n in Nodes(tree) ==> fresh(n)
    {
      root, tree := Reconstruct(Layouts.Pane(drawn));
    }

    method Remove(id: Id)
      requires Valid() && Distinct(Panes(Shows()))
      modifies this, Nodes(tree)
      ensures Valid() && Shows() == CloseAt(old(Shows()), id).0 && Nodes(tree) <= old(Nodes(tree))
    {
      hide Nodes, Shaped, View, CloseAt, Distinct;
      Allocated(tree);
      var found;
      root, found, tree := ClosePaneInLayout(root, tree, id);
    }
  }

  /** The server takes a command and, if it succeeded, tells the browser. */
  method TakeCommand(s: Server, b: Browser, c: Command)
    requires s.Valid() && b.Valid() && Nodes(s.tree) !! Nodes(b.tree) && b.Shows() == s.Shows()
    requires Distinct(Panes(s.Shows())) && c.drawn !in Panes(s.Shows())
    modifies s, b, Nodes(s.tree), Nodes(b.tree)
    ensures s.Valid() && b.Valid() && Nodes(s.tree) !! Nodes(b.tree)
    ensures s.Shows() == Serve(old(s.Shows()), c).0 && b.Shows() == s.Shows() && Distinct(Panes(s.Shows()))
    ensures forall n :: n in Nodes(s.tree) ==> n in old(Nodes(s.tree)) || fresh(n)
    ensures forall n :: n in Nodes(b.tree) ==> n in old(Nodes(b.tree)) || fresh(n)
  {
    hide Nodes, Shaped, View, Distinct, Serve, Follow, Panes;
    ghost var l := s.Shows();
    StepAgrees(l, c);
    Allocated(s.tree);
    Allocated(b.tree);
    var ev := Ask(s, c);
    assert b.Valid() && b.Shows() == l;
    Allocated(s.tree);
    Tell(b, ev);
  }

  method Ask(s: Server, c: Command) returns (ev: Option<Agreement.Event>)
    requires s.Valid() && Distinct(Panes(s.Shows()))
    modifies s, Nodes(s.tree)
    ensures s.Valid() && (s.Shows(), ev) == Serve(old(s.Shows()), c)
    ensures forall n :: n in Nodes(s.tree) ==> n in old(Nodes(s.tree)) || fresh(n)
  {
    match c
    case Split(target, dir, drawn) => ev := s.SplitPane(target, dir, drawn);
    case Close(id, drawn) => ev := s.ClosePane(id, drawn);
  }

  method Tell(b: Browser, ev: Option<Agreement.Event>)
    requires b.Valid() && Distinct(Panes(b.Shows()))
    modifies b, Nodes(b.tree)
    ensures b.Valid() && b.Shows() == Follow(old(b.Shows()), ev)
    ensures forall n :: n in Nodes(b.tree) ==> n in old(Nodes(b.tree)) || fresh(n)
  {
    match ev
    case None =>
    case Some(Created(id, target, dir)) => b.ApplySplit(target, id, dir);
    case Some(Closed(id, layout)) => b.ApplyClosePane(id, layout);
  }

  /** From the layout the server holds, after any commands in order, the browser's
      tree and the server's, each edited in its own way, show the same layout. */
  method Mirror(l: Layout, cs: seq<Command>) returns (s: Server, b: Browser)
    requires Distinct(Panes(l)) && FreshDraws(l, cs)
    ensures s.Valid() && b.Valid() && s.Shows() == ServeAll(l, cs) && b.Shows() == s.Shows()
    ensures Distinct(Panes(s.Shows()))
  {
    hide Nodes, Shaped, View, Distinct, Serve, Panes;
    s := new Server(l);
    Allocated(s.tree);
    b := new Browser(l);
    assert cs[0..] == cs;
    for i := 0 to |cs|
      invariant s.Valid() && b.Valid() && Nodes(s.tree) !! Nodes(b.tree) && b.Shows() == s.Shows()
      invariant Distinct(Panes(s.Shows())) && FreshDraws(s.Shows(), cs[i..]) && ServeAll(s.Shows(), cs[i..]) == ServeAll(l, cs)
      invariant fresh(s) && fresh(b) && forall n :: n in Nodes(s.tree) || n in Nodes(b.tree) ==> fresh(n)
    {
      assert cs[i..][0] == cs[i] && cs[i..][1..] == cs[i + 1..];
      Allocated(s.tree);
      Allocated(b.tree);
      TakeCommand(s, b, cs[i]);
    }
  }
}
