/** The browser's layout and the server's stay the same layout. */
module Agreement {
  import opened Layouts
  import opened BrowserTrees

  datatype Option<T> = None | Some(value: T)

  /** What a client asks of the server for one tab, with the id it will draw. */
  datatype Command = Split(target: Id, dir: string, drawn: Id) | Close(id: Id, drawn: Id)

  /** What the server tells all clients of the tab afterwards. */
  datatype Event = Created(id: Id, target: Id, dir: string) | Closed(id: Id, layout: Layout)

  /** The server: its layout after a command, and the event if it succeeded. */
  function Serve(l: Layout, c: Command): (Layout, Option<Event>) {
    match c
    case Split(target, dir, drawn) =>
      if target in Panes(l) then (SplitAt(l, target, drawn, dir).0, Some(Created(drawn, target, dir))) else (l, None)
    case Close(id, drawn) =>
      if id !in Panes(l) then (l, None)
      else
        var l' := if l == Layouts.Pane(id) then Layouts.Pane(drawn) else CloseAt(l, id).0;
        (l', Some(Closed(id, l')))
  }

  /** The browser's layout after an event. */
  function Follow(b: Layout, e: Option<Event>): Layout {
    match e
    case None => b
    case Some(Created(id, target, dir)) => AfterSplit(b, target, id, dir)
    case Some(Closed(id, layout)) => AfterClose(b, id, layout)
  }

  function ServeAll(l: Layout, cs: seq<Command>): Layout
    decreases |cs|
  {
    if cs == [] then l else ServeAll(Serve(l, cs[0]).0, cs[1..])
  }

  function FollowAll(b: Layout, l: Layout, cs: seq<Command>): Layout
    decreases |cs|
  {
    if cs == [] then b else FollowAll(Follow(b, Serve(l, cs[0]).1), Serve(l, cs[0]).0, cs[1..])
  }

  /** Every drawn id is new to the layout it goes into. */
  predicate FreshDraws(l: Layout, cs: seq<Command>)
    decreases |cs|
  {
    cs != [] ==> cs[0].drawn !in Panes(l) && FreshDraws(Serve(l, cs[0]).0, cs[1..])
  }

  lemma StepAgrees(l: Layout, c: Command)
    requires Distinct(Panes(l)) && c.drawn !in Panes(l)
    ensures Follow(l, Serve(l, c).1) == Serve(l, c).0 && Distinct(Panes(Serve(l, c).0))
  {
    hide Distinct, Inserted, Removed, IndexOf;
    match c
    case Split(target, dir, drawn) =>
      SplitInserts(l, target, drawn, dir);
      if target in Panes(l) {
        InsertedDistinct(Panes(l), IndexOf(Panes(l), target), drawn);
      }
    case Close(id, drawn) =>
      LoneDistinct(drawn);
      if id in Panes(l) && l != Layouts.Pane(id) {
        CloseRemoves(l, id);
        RemovedDistinct(Panes(l), IndexOf(Panes(l), id));
        LoneIs(l, id);
      }
  }

  lemma LoneDistinct(id: Id)
    ensures Distinct(Panes(Layouts.Pane(id)))
  {
  }

  lemma InsertedDistinct(ids: seq<Id>, k: nat, x: Id)
    requires k < |ids| && Distinct(ids) && x !in ids
    ensures Distinct(Inserted(ids, k, x))
  {
  }

  lemma RemovedDistinct(ids: seq<Id>, k: nat)
    requires k < |ids| && Distinct(ids)
    ensures Distinct(Removed(ids, k))
  {
  }

  /** Starting from the layout the server sent, what the events of any sequence of
      splits and closes say of the layout is what the server holds, with distinct
      panes. The edits of the two in place are compared in Replicas. */
  lemma {:induction false} TreesAgree(l: Layout, cs: seq<Command>)
    requires Distinct(Panes(l)) && FreshDraws(l, cs)
    ensures FollowAll(l, l, cs) == ServeAll(l, cs) && Distinct(Panes(ServeAll(l, cs)))
    decreases |cs|
  {
    hide Distinct, Serve, Follow;
    if cs != [] {
      StepAgrees(l, cs[0]);
      TreesAgree(Serve(l, cs[0]).0, cs[1..]);
    }
  }
}
