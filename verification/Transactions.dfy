/**
Graph transactions: an undo log that is committed or rolled back as a whole, and the reference counts
of the nodes while such transactions are open.

The log grows at its end and is run from its end, which is what inserting at the head of the action
list and walking it from the head does.
*/
module Transactions {
  import opened BlockGraph
  import opened GraphChanges
  import opened Maps
  import opened Permissions

  /** An entry of the undo log. */
  datatype Undo =
    | UndoPerm(edge: EdgeId, was: Perms)               // bdrv_child_set_perm
    | UndoReplace(edge: EdgeId, oldBs: Option<NodeId>) // bdrv_replace_child_tran: holds the reference to oldBs
    | UndoAttach(edge: EdgeId)                         // bdrv_attach_child_common
    | FreeOnCommit(edge: EdgeId)                       // bdrv_remove_child

  /**
  The graph with its reference counts, the open transaction's log, the unrefs scheduled for later and
  the nodes whose last reference is gone.  `held` counts the references of users that are no edge.
  */
  datatype Layer = Layer(
    g: Graph, refs: map<NodeId, int>, log: seq<Undo>,
    scheduled: multiset<NodeId>, deleted: set<NodeId>, held: multiset<NodeId>)

  // ---------------------------------------------------------------------------------------------
  // References

  /** bdrv_ref, which nobody calls without a node. */
  function Ref(refs: map<NodeId, int>, n: Option<NodeId>): map<NodeId, int> {
    if n.Some? && n.value in refs then refs[n.value := refs[n.value] + 1] else refs
  }

  /** bdrv_unref: the node is deleted when the count reaches zero. */
  function Unref(l: Layer, n: Option<NodeId>): Layer {
    if n.None? || n.value !in l.refs then l
    else
      var k := l.refs[n.value] - 1;
      l.(refs := l.refs[n.value := k], deleted := if k == 0 then l.deleted + {n.value} else l.deleted)
  }

  /** bdrv_schedule_unref */
  function Schedule(l: Layer, n: Option<NodeId>): Layer {
    if n.None? then l else l.(scheduled := l.scheduled + multiset{n.value})
  }

  // ---------------------------------------------------------------------------------------------
  // Changes inside a transaction

  datatype Change =
    | SetPerm(edge: EdgeId, perms: Perms)
    | Replace(edge: EdgeId, to: Option<NodeId>)
    | Attach(edge: EdgeId, made: Edge, child: NodeId)
    | Remove(edge: EdgeId)

  /** The node can be given another reference: it exists and still has one that is not about to go. */
  predicate Live(l: Layer, n: NodeId) {
    n in l.g.nodes && n in l.refs && l.refs[n] > l.scheduled[n]
  }

  /** The caller's obligations: the assertions in the code, and a live node to point to. */
  predicate Possible(l: Layer, c: Change) {
    match c
    case SetPerm(e, _) => e in l.g.edges
    case Replace(e, to) =>
      CanRepoint(l.g, e, to) && FreeOnCommit(e) !in l.log && (to.Some? ==> Live(l, to.value))
    case Attach(e, made, child) =>
      && e !in l.g.edges && made.bs.None? && !made.frozen && FreeOnCommit(e) !in l.log
      && (made.owner.OfNode? ==> made.owner.node in l.g.nodes)
      && SlotFree(AddEdge(l.g, e, made), e) && Live(l, child)
    case Remove(e) => e in l.g.edges && !l.g.edges[e].frozen && FreeOnCommit(e) !in l.log
  }

  /** bdrv_replace_child_tran; the reference of the edge to its old node moves to the log. */
  function ReplaceChild(l: Layer, e: EdgeId, to: Option<NodeId>): Layer
    requires e in l.g.edges
  {
    l.(g := Repoint(l.g, e, to), refs := Ref(l.refs, to), log := l.log + [UndoReplace(e, l.g.edges[e].bs)])
  }

  function Do(l: Layer, c: Change): Layer
    requires Possible(l, c)
  {
    match c
    case SetPerm(e, p) => l.(g := WithPerms(l.g, e, p), log := l.log + [UndoPerm(e, EdgePerms(l.g, e))])
    case Replace(e, to) => ReplaceChild(l, e, to)
    case Attach(e, made, child) =>
      l.(g := Repoint(AddEdge(l.g, e, made), e, Some(child)),
         refs := Ref(l.refs, Some(child)), log := l.log + [UndoAttach(e)])
    case Remove(e) =>
      var l1 := if l.g.edges[e].bs.Some? then ReplaceChild(l, e, None) else l;
      l1.(log := l1.log + [FreeOnCommit(e)])
  }

  /** The abort callback of the last log entry. */
  function UndoLast(l: Layer): (r: Layer)
    requires l.log != []
    ensures r.log == l.log[..|l.log| - 1]
  {
    var l1 := l.(log := l.log[..|l.log| - 1]);
    match l.log[|l.log| - 1]
    case UndoPerm(e, was) => if e in l.g.edges then l1.(g := WithPerms(l.g, e, was)) else l1
    case UndoReplace(e, oldBs) =>
      if e in l.g.edges then Unref(l1.(g := Repoint(l.g, e, oldBs)), l.g.edges[e].bs) else l1
    case UndoAttach(e) =>
      if e in l.g.edges then Schedule(l1.(g := FreeEdge(Repoint(l.g, e, None), e)), l.g.edges[e].bs) else l1
    case FreeOnCommit(_) => l1
  }

  /** The commit callback of the last log entry. */
  function CommitLast(l: Layer): (r: Layer)
    requires l.log != []
    ensures r.log == l.log[..|l.log| - 1]
  {
    var l1 := l.(log := l.log[..|l.log| - 1]);
    match l.log[|l.log| - 1]
    case UndoReplace(_, oldBs) => Schedule(l1, oldBs)
    case FreeOnCommit(e) => l1.(g := FreeEdge(l.g, e))
    case _ => l1
  }

  /** tran_abort of everything logged after the first `k` entries. */
  function Abort(l: Layer, k: nat): Layer
    requires k <= |l.log|
    decreases |l.log|
  {
    if |l.log| == k then l else Abort(UndoLast(l), k)
  }

  /** tran_commit */
  function Commit(l: Layer): Layer
    decreases |l.log|
  {
    if l.log == [] then l else Commit(CommitLast(l))
  }

  /** Changes made one after the other. */
  ghost predicate CanDoAll(l: Layer, cs: seq<Change>)
    decreases |cs|
  {
    cs == [] || (Possible(l, cs[0]) && CanDoAll(Do(l, cs[0]), cs[1..]))
  }

  ghost function DoAll(l: Layer, cs: seq<Change>): Layer
    requires CanDoAll(l, cs)
    decreases |cs|
  {
    if cs == [] then l else DoAll(Do(l, cs[0]), cs[1..])
  }

  // ---------------------------------------------------------------------------------------------
  // Rollback

  /** References that are not about to go. */
  function Net(l: Layer, n: NodeId): int
    requires n in l.refs
  {
    l.refs[n] - l.scheduled[n]
  }

  /** The same graph and the same references, once the scheduled unrefs have run. */
  ghost predicate Restored(l: Layer, l0: Layer) {
    && l.g == l0.g && l.log == l0.log && l.held == l0.held && l.deleted == l0.deleted
    && l.refs.Keys == l0.refs.Keys && l0.scheduled <= l.scheduled
    && forall n :: n in l0.refs ==> Net(l, n) == Net(l0, n) && (l0.refs[n] == 0 ==> l.refs[n] == 0)
  }

  ghost predicate WellFormed(l: Layer) {
    && Linked(l.g) && l.refs.Keys == l.g.nodes.Keys
    && forall n :: n in l.refs ==> l.refs[n] >= l.scheduled[n]
  }

  /** The unref of a rolled-back replacement does not drop the last reference. */
  predicate SafeUndo(l: Layer)
    requires l.log != []
  {
    var u := l.log[|l.log| - 1];
    u.UndoReplace? && u.edge in l.g.edges ==>
      var n := l.g.edges[u.edge].bs;
      n.Some? && n.value in l.refs ==> l.refs[n.value] > 1
  }

  predicate SafeAbort(l: Layer, k: nat)
    requires k <= |l.log|
    decreases |l.log|
  {
    |l.log| == k || (SafeUndo(l) && SafeAbort(UndoLast(l), k))
  }

  lemma UnrefKeepsRestored(a: Layer, b: Layer, n: Option<NodeId>)
    requires Restored(a, b) && (n.Some? && n.value in b.refs ==> b.refs[n.value] > 1)
    ensures Restored(Unref(a, n), Unref(b, n)) && (n.Some? && n.value in a.refs ==> a.refs[n.value] > 1)
  {
  }

  /** Undoing works on the graph and the log alone: layers that agree on them stay in agreement. */
  lemma UndoKeepsRestored(a: Layer, b: Layer)
    requires Restored(a, b) && b.log != [] && SafeUndo(b)
    ensures SafeUndo(a) && Restored(UndoLast(a), UndoLast(b))
  {
    var log := b.log[..|b.log| - 1];
    match b.log[|b.log| - 1]
    case UndoPerm(e, _) =>
    case UndoReplace(e, oldBs) =>
      if e in b.g.edges {
        var g2 := Repoint(b.g, e, oldBs);
        UnrefKeepsRestored(a.(log := log, g := g2), b.(log := log, g := g2), b.g.edges[e].bs);
      }
    case UndoAttach(e) =>
      if e in b.g.edges && b.g.edges[e].bs.Some? {
        var a1, b1 := UndoLast(a), UndoLast(b);
        forall m | m in b1.refs
          ensures Net(a1, m) == Net(b1, m)
        {
          assert Net(a, m) == Net(b, m);
        }
      }
    case FreeOnCommit(_) =>
  }

  lemma {:induction false} AbortKeepsRestored(a: Layer, b: Layer, k: nat)
    requires Restored(a, b) && k <= |b.log| && SafeAbort(b, k)
    ensures SafeAbort(a, k) && Restored(Abort(a, k), Abort(b, k))
    decreases |b.log|
  {
    if |b.log| > k {
      UndoKeepsRestored(a, b);
      AbortKeepsRestored(UndoLast(a), UndoLast(b), k);
    }
  }

  lemma {:induction false} AbortInStages(l: Layer, m: nat, k: nat)
    requires k <= m <= |l.log|
    ensures |Abort(l, m).log| == m && Abort(Abort(l, m), k) == Abort(l, k)
    ensures SafeAbort(l, m) && SafeAbort(Abort(l, m), k) ==> SafeAbort(l, k)
    decreases |l.log|
  {
    if |l.log| > m { AbortInStages(UndoLast(l), m, k); }
  }

  lemma SetPermUndone(l: Layer, e: EdgeId, p: Perms)
    requires Possible(l, SetPerm(e, p))
    ensures
      var l1 := Do(l, SetPerm(e, p));
      UndoLast(l1) == l
  {
  }

  lemma ReplaceUndoneIf(l: Layer, e: EdgeId, to: Option<NodeId>)
    requires e in l.g.edges && (to.Some? ==> Live(l, to.value))
    requires Repoint(Repoint(l.g, e, to), e, l.g.edges[e].bs) == l.g
    ensures SafeUndo(ReplaceChild(l, e, to)) && UndoLast(ReplaceChild(l, e, to)) == l
  {
  }

  lemma ReplaceUndone(l: Layer, e: EdgeId, to: Option<NodeId>)
    requires WellFormed(l) && CanRepoint(l.g, e, to) && (to.Some? ==> Live(l, to.value))
    ensures SafeUndo(ReplaceChild(l, e, to)) && UndoLast(ReplaceChild(l, e, to)) == l
  {
    RepointBack(l.g, e, to);
    ReplaceUndoneIf(l, e, to);
  }

  lemma AttachUndoneIf(l: Layer, e: EdgeId, made: Edge, child: NodeId)
    requires Possible(l, Attach(e, made, child))
    requires Repoint(Repoint(AddEdge(l.g, e, made), e, Some(child)), e, None) == AddEdge(l.g, e, made)
    ensures SafeUndo(Do(l, Attach(e, made, child))) && Restored(UndoLast(Do(l, Attach(e, made, child))), l)
  {
    var g2, l1 := Repoint(AddEdge(l.g, e, made), e, Some(child)), Do(l, Attach(e, made, child));
    assert l1.log[..|l1.log| - 1] == l.log && l1.log[|l1.log| - 1] == UndoAttach(e);
    assert e in g2.edges && g2.edges[e].bs == Some(child);
    SameMap(FreeEdge(AddEdge(l.g, e, made), e).edges, l.g.edges);
  }

  lemma AttachUndone(l: Layer, e: EdgeId, made: Edge, child: NodeId)
    requires WellFormed(l) && Possible(l, Attach(e, made, child))
    ensures SafeUndo(Do(l, Attach(e, made, child))) && Restored(UndoLast(Do(l, Attach(e, made, child))), l)
  {
    AddEdgeKeepsLinked(l.g, e, made);
    RepointBack(AddEdge(l.g, e, made), e, Some(child));
    AttachUndoneIf(l, e, made, child);
  }

  lemma RemoveUndoneIf(l: Layer, e: EdgeId)
    requires Possible(l, Remove(e))
    requires l.g.edges[e].bs.Some? ==> SafeUndo(ReplaceChild(l, e, None)) && UndoLast(ReplaceChild(l, e, None)) == l
    ensures |l.log| <= |Do(l, Remove(e)).log|
    ensures SafeAbort(Do(l, Remove(e)), |l.log|) && Abort(Do(l, Remove(e)), |l.log|) == l
  {
    var l2 := Do(l, Remove(e));
    var l1 := if l.g.edges[e].bs.Some? then ReplaceChild(l, e, None) else l;
    assert l2.log[..|l2.log| - 1] == l1.log && l2.log[|l2.log| - 1] == FreeOnCommit(e);
    assert UndoLast(l2) == l1;
    if l.g.edges[e].bs.Some? {
      assert Abort(l1, |l.log|) == Abort(UndoLast(l1), |l.log|);
    }
  }

  lemma RemoveUndone(l: Layer, e: EdgeId)
    requires WellFormed(l) && Possible(l, Remove(e))
    ensures |l.log| <= |Do(l, Remove(e)).log|
    ensures SafeAbort(Do(l, Remove(e)), |l.log|) && Abort(Do(l, Remove(e)), |l.log|) == l
  {
    if l.g.edges[e].bs.Some? { ReplaceUndone(l, e, None); }
    RemoveUndoneIf(l, e);
  }

  /** Every change is undone by its log entries. */
  lemma ChangeUndone(l: Layer, c: Change)
    requires WellFormed(l) && Possible(l, c)
    ensures |l.log| <= |Do(l, c).log|
    ensures SafeAbort(Do(l, c), |l.log|) && Restored(Abort(Do(l, c), |l.log|), l)
  {
    match c
    case SetPerm(e, p) => SetPermUndone(l, e, p);
    case Replace(e, to) => ReplaceUndone(l, e, to);
    case Attach(e, made, child) => AttachUndone(l, e, made, child);
    case Remove(e) => RemoveUndone(l, e);
  }

  lemma ChangeKeepsLinked(l: Layer, c: Change)
    requires Linked(l.g) && Possible(l, c)
    ensures Linked(Do(l, c).g)
  {
    match c
    case SetPerm(e, p) => SameStructure(l.g, WithPerms(l.g, e, p));
    case Replace(e, to) => RepointKeepsLinked(l.g, e, to);
    case Attach(e, made, child) =>
      AddEdgeKeepsLinked(l.g, e, made);
      RepointKeepsLinked(AddEdge(l.g, e, made), e, Some(child));
    case Remove(e) => if l.g.edges[e].bs.Some? { RepointKeepsLinked(l.g, e, None); }
  }

  /** One more reference to a node, or none. */
  lemma RefIs(refs: map<NodeId, int>, n: Option<NodeId>)
    ensures Ref(refs, n).Keys == refs.Keys
    ensures forall m :: m in refs ==> refs[m] <= Ref(refs, n)[m]
  {
  }

  lemma ChangeIs(l: Layer, c: Change)
    requires Possible(l, c)
    ensures Do(l, c).scheduled == l.scheduled && Do(l, c).g.nodes.Keys == l.g.nodes.Keys
    ensures Do(l, c).refs == l.refs || exists n :: Do(l, c).refs == Ref(l.refs, n)
  {
  }

  lemma ChangeKeepsRefs(l: Layer, c: Change)
    requires Possible(l, c) && l.refs.Keys == l.g.nodes.Keys
    requires forall n :: n in l.refs ==> l.refs[n] >= l.scheduled[n]
    ensures Do(l, c).refs.Keys == Do(l, c).g.nodes.Keys
    ensures forall n :: n in Do(l, c).refs ==> Do(l, c).refs[n] >= Do(l, c).scheduled[n]
  {
    ChangeIs(l, c);
    if Do(l, c).refs != l.refs {
      var n :| Do(l, c).refs == Ref(l.refs, n);
      RefIs(l.refs, n);
    }
  }

  lemma ChangeKeepsWellFormed(l: Layer, c: Change)
    requires WellFormed(l) && Possible(l, c)
    ensures WellFormed(Do(l, c))
  {
    ChangeKeepsLinked(l, c);
    ChangeKeepsRefs(l, c);
  }

  /**
  Rollback: after any sequence of changes, aborting restores every edge's target and permissions and every
  node's parents, children, file and backing links, deletes no node, and leaves every reference count as it
  was once the unrefs it scheduled have run.
  */
  lemma {:induction false} AbortRestores(l: Layer, cs: seq<Change>)
    requires WellFormed(l) && CanDoAll(l, cs)
    ensures |l.log| <= |DoAll(l, cs).log|
    ensures SafeAbort(DoAll(l, cs), |l.log|) && Restored(Abort(DoAll(l, cs), |l.log|), l)
    decreases |cs|
  {
    if cs != [] {
      var l1, last := Do(l, cs[0]), DoAll(l, cs);
      ChangeKeepsWellFormed(l, cs[0]);
      AbortRestores(l1, cs[1..]);
      ChangeUndone(l, cs[0]);
      AbortKeepsRestored(Abort(last, |l1.log|), l1, |l.log|);
      AbortInStages(last, |l1.log|, |l.log|);
    }
  }

  // ---------------------------------------------------------------------------------------------
  // Conservation of references

  /** How many log entries hold a reference to node `n`. */
  function Named(log: seq<Undo>, n: NodeId): nat {
    if log == [] then 0
    else Named(log[..|log| - 1], n) + (if log[|log| - 1].UndoReplace? && log[|log| - 1].oldBs == Some(n) then 1 else 0)
  }

  /** The reference count of `n` is made up of users, edges, log entries and scheduled unrefs. */
  ghost predicate Counted(l: Layer, n: NodeId)
    requires n in l.refs && n in l.g.nodes
  {
    l.refs[n] == l.held[n] + |l.g.nodes[n].parents| + Named(l.log, n) + l.scheduled[n]
  }

  /** Edges to be freed on commit point nowhere. */
  ghost predicate FreeableOk(l: Layer) {
    forall e :: FreeOnCommit(e) in l.log && e in l.g.edges ==> l.g.edges[e].bs.None?
  }

  /** Every reference is accounted for, and a deleted node has none. */
  ghost predicate Balanced(l: Layer) {
    && l.refs.Keys == l.g.nodes.Keys && FreeableOk(l)
    && (forall n {:trigger Counted(l, n)} :: n in l.g.nodes ==> Counted(l, n))
    && (forall n :: n in l.deleted && n in l.refs ==> l.refs[n] == 0)
  }

  ghost predicate Conserved(l: Layer) {
    Linked(l.g) && Balanced(l)
  }

  lemma ConservedIsWellFormed(l: Layer)
    requires Conserved(l)
    ensures WellFormed(l)
  {
    forall n | n in l.refs ensures l.refs[n] >= l.scheduled[n] { assert Counted(l, n); }
  }

  /** No node is deleted while an edge, an open transaction, a user or a scheduled unref still names it. */
  lemma DeletedIsUnnamed(l: Layer, n: NodeId)
    requires Conserved(l) && n in l.deleted && n in l.g.nodes
    ensures EdgesTo(l.g, n) == {} && Named(l.log, n) == 0 && l.held[n] == 0 && l.scheduled[n] == 0
  {
    assert Counted(l, n) && NodeOk(l.g, n);
  }

  lemma NamedAppend(log: seq<Undo>, u: Undo, n: NodeId)
    ensures Named(log + [u], n) == Named(log, n) + (if u.UndoReplace? && u.oldBs == Some(n) then 1 else 0)
  {
  }

  lemma ListedSize(list: set<EdgeId>, e: EdgeId, was: bool, now: bool)
    requires e in list <==> was
    ensures |Listed(list, e, was, now)| == |list| - (if was then 1 else 0) + (if now then 1 else 0)
  {
  }

  /** Moving an edge moves one parent from the old node to the new one. */
  lemma RepointParents(g: Graph, e: EdgeId, to: Option<NodeId>, n: NodeId)
    requires Linked(g) && e in g.edges && n in g.nodes
    ensures |Repoint(g, e, to).nodes[n].parents| ==
            |g.nodes[n].parents| - (if g.edges[e].bs == Some(n) then 1 else 0) + (if to == Some(n) then 1 else 0)
  {
    NodeAgrees(g, n, e);
    ListedSize(g.nodes[n].parents, e, g.edges[e].bs == Some(n), to == Some(n));
  }

  lemma ReplaceKeepsCounted(l: Layer, e: EdgeId, to: Option<NodeId>, n: NodeId)
    requires Linked(l.g) && l.refs.Keys == l.g.nodes.Keys && CanRepoint(l.g, e, to) && n in l.g.nodes && Counted(l, n)
    ensures n in ReplaceChild(l, e, to).refs && n in ReplaceChild(l, e, to).g.nodes
    ensures Counted(ReplaceChild(l, e, to), n)
  {
    var l1, was, now := ReplaceChild(l, e, to), l.g.edges[e].bs == Some(n), to == Some(n);
    assert |l1.g.nodes[n].parents| == |l.g.nodes[n].parents| - (if was then 1 else 0) + (if now then 1 else 0) by {
      RepointParents(l.g, e, to, n);
    }
    assert l1.refs[n] == l.refs[n] + (if now then 1 else 0);
    assert Named(l1.log, n) == Named(l.log, n) + (if was then 1 else 0) by {
      NamedAppend(l.log, UndoReplace(e, l.g.edges[e].bs), n);
    }
  }

  lemma AttachParents(l: Layer, e: EdgeId, made: Edge, child: NodeId, n: NodeId)
    requires Linked(l.g) && Possible(l, Attach(e, made, child)) && n in l.g.nodes
    ensures
      var g1 := Repoint(AddEdge(l.g, e, made), e, Some(child));
      n in g1.nodes && |g1.nodes[n].parents| == |l.g.nodes[n].parents| + (if child == n then 1 else 0)
  {
    AddEdgeKeepsLinked(l.g, e, made);
    RepointParents(AddEdge(l.g, e, made), e, Some(child), n);
  }

  lemma AttachRefs(l: Layer, e: EdgeId, made: Edge, child: NodeId, n: NodeId)
    requires Possible(l, Attach(e, made, child)) && n in l.refs
    ensures
      var l1 := Do(l, Attach(e, made, child));
      && n in l1.refs && l1.refs[n] == l.refs[n] + (if child == n then 1 else 0)
      && Named(l1.log, n) == Named(l.log, n)
  {
    NamedAppend(l.log, UndoAttach(e), n);
  }

  lemma AttachKeepsCounted(l: Layer, e: EdgeId, made: Edge, child: NodeId, n: NodeId)
    requires Linked(l.g) && l.refs.Keys == l.g.nodes.Keys
    requires Possible(l, Attach(e, made, child)) && n in l.g.nodes && Counted(l, n)
    ensures
      var l1 := Do(l, Attach(e, made, child));
      n in l1.refs && n in l1.g.nodes && Counted(l1, n)
  {
    AttachParents(l, e, made, child, n);
    AttachRefs(l, e, made, child, n);
  }

  lemma RemoveKeepsCounted(l: Layer, e: EdgeId, n: NodeId)
    requires Linked(l.g) && l.refs.Keys == l.g.nodes.Keys && Possible(l, Remove(e)) && n in l.g.nodes && Counted(l, n)
    ensures
      var l1 := Do(l, Remove(e));
      n in l1.refs && n in l1.g.nodes && Counted(l1, n)
  {
    var l1 := if l.g.edges[e].bs.Some? then ReplaceChild(l, e, None) else l;
    if l.g.edges[e].bs.Some? { ReplaceKeepsCounted(l, e, None, n); }
    NamedAppend(l1.log, FreeOnCommit(e), n);
  }

  lemma ChangeKeepsCounted(l: Layer, c: Change, n: NodeId)
    requires WellFormed(l) && Possible(l, c) && n in l.g.nodes && Counted(l, n)
    ensures n in Do(l, c).refs && n in Do(l, c).g.nodes && Counted(Do(l, c), n)
  {
    match c
    case SetPerm(e, p) => NamedAppend(l.log, UndoPerm(e, EdgePerms(l.g, e)), n);
    case Replace(e, to) => ReplaceKeepsCounted(l, e, to, n);
    case Attach(e, made, child) => AttachKeepsCounted(l, e, made, child, n);
    case Remove(e) => RemoveKeepsCounted(l, e, n);
  }

  /** Every change inside a transaction conserves references. */
  lemma ChangeKeepsConserved(l: Layer, c: Change)
    requires Conserved(l) && Possible(l, c)
    ensures Conserved(Do(l, c))
  {
    ConservedIsWellFormed(l);
    ChangeKeepsWellFormed(l, c);
    ChangeKeepsNodes(l, c);
    ChangeKeepsFreeable(l, c);
    forall n | n in l.g.nodes
      ensures n in Do(l, c).refs && n in Do(l, c).g.nodes && Counted(Do(l, c), n)
    {
      ChangeKeepsCounted(l, c, n);
    }
  }

  /** A change creates and deletes no node, and refers to no node without references. */
  lemma ChangeKeepsNodes(l: Layer, c: Change)
    requires Possible(l, c) && forall n :: n in l.deleted && n in l.refs ==> l.refs[n] == 0
    ensures
      var l1 := Do(l, c);
      && l1.g.nodes.Keys == l.g.nodes.Keys && l1.deleted == l.deleted
      && forall n :: n in l1.deleted && n in l1.refs ==> l1.refs[n] == 0
  {
  }

  lemma ChangeKeepsFreeable(l: Layer, c: Change)
    requires FreeableOk(l) && Possible(l, c)
    ensures FreeableOk(Do(l, c))
  {
    var l1 := Do(l, c);
    forall e | FreeOnCommit(e) in l1.log && e in l1.g.edges
      ensures l1.g.edges[e].bs.None?
    {
    }
  }

  lemma CommitLastConserves(l: Layer)
    requires Conserved(l) && l.log != []
    ensures Conserved(CommitLast(l))
  {
    var l1, u := CommitLast(l), l.log[|l.log| - 1];
    assert forall e :: FreeOnCommit(e) in l1.log ==> FreeOnCommit(e) in l.log;
    if u.FreeOnCommit? {
      if u.edge in l.g.edges {
        FreeEdgeKeepsLinked(l.g, u.edge);
      } else {
        SameMap(l1.g.edges, l.g.edges);
      }
    }
    forall n | n in l1.g.nodes
      ensures Counted(l1, n)
    {
      assert Counted(l, n);
    }
  }

  lemma {:induction false} CommitConserves(l: Layer)
    requires Conserved(l)
    ensures Conserved(Commit(l)) && Commit(l).log == []
    decreases |l.log|
  {
    if l.log != [] {
      CommitLastConserves(l);
      CommitConserves(CommitLast(l));
    }
  }

  /** Every state inside a transaction conserves references. */
  lemma {:induction false} ChangesConserve(l: Layer, cs: seq<Change>)
    requires Conserved(l) && CanDoAll(l, cs)
    ensures Conserved(DoAll(l, cs))
    decreases |cs|
  {
    if cs != [] {
      ChangeKeepsConserved(l, cs[0]);
      ChangesConserve(Do(l, cs[0]), cs[1..]);
    }
  }

  lemma RestoredConserves(l: Layer, l0: Layer)
    requires Restored(l, l0) && Conserved(l0)
    ensures Conserved(l)
  {
    forall n | n in l.g.nodes
      ensures Counted(l, n)
    {
      assert Counted(l0, n) && Net(l, n) == Net(l0, n);
    }
    forall n | n in l.deleted && n in l.refs
      ensures l.refs[n] == 0
    {
      assert Net(l, n) == Net(l0, n) && Counted(l0, n);
    }
  }

  lemma DropEdgeLinked(g: Graph, e: EdgeId)
    requires Linked(g) && CanRepoint(g, e, None)
    ensures Linked(FreeEdge(Repoint(g, e, None), e))
  {
    RepointKeepsLinked(g, e, None);
    FreeEdgeKeepsLinked(Repoint(g, e, None), e);
  }

  /** How many log entries a change makes. */
  lemma EntriesOf(l: Layer, c: Change)
    requires Possible(l, c)
    ensures |Do(l, c).log| == |l.log| + (if c.Remove? && l.g.edges[c.edge].bs.Some? then 2 else 1)
  {
  }

  /** Undoing part of a change: in between, references are conserved as well. */
  lemma ChangeUndoneTo(l: Layer, c: Change, k: nat)
    requires Conserved(l) && Possible(l, c) && |l.log| <= k <= |Do(l, c).log|
    ensures SafeAbort(Do(l, c), k) && Conserved(Abort(Do(l, c), k))
  {
    EntriesOf(l, c);
    if k == |l.log| {
      ChangeUndoneConserves(l, c);
    } else if k == |Do(l, c).log| {
      ChangeKeepsConserved(l, c);
    } else {
      RemoveUndoneHalf(l, c.edge);
    }
  }

  lemma ChangeUndoneConserves(l: Layer, c: Change)
    requires Conserved(l) && Possible(l, c)
    ensures |l.log| <= |Do(l, c).log| && SafeAbort(Do(l, c), |l.log|) && Conserved(Abort(Do(l, c), |l.log|))
  {
    ConservedIsWellFormed(l);
    ChangeUndone(l, c);
    RestoredConserves(Abort(Do(l, c), |l.log|), l);
  }

  /** Removing an edge makes two log entries; after undoing one of them the edge has no target yet. */
  lemma RemoveUndoneHalf(l: Layer, e: EdgeId)
    requires Conserved(l) && Possible(l, Remove(e)) && l.g.edges[e].bs.Some?
    ensures
      var l2 := Do(l, Remove(e));
      |l2.log| == |l.log| + 2 && SafeAbort(l2, |l.log| + 1) && Conserved(Abort(l2, |l.log| + 1))
  {
    var l1, l2 := Do(l, Replace(e, None)), Do(l, Remove(e));
    ChangeKeepsConserved(l, Replace(e, None));
    assert l2.log[..|l2.log| - 1] == l1.log && l2.log[|l2.log| - 1] == FreeOnCommit(e);
    assert UndoLast(l2) == l1;
    assert Abort(l2, |l.log| + 1) == Abort(l1, |l.log| + 1) == l1;
  }

  /** Every state inside a rollback conserves references, not only the last. */
  lemma {:induction false} RollbackConserves(l: Layer, cs: seq<Change>, k: nat)
    requires Conserved(l) && CanDoAll(l, cs) && |l.log| <= k <= |DoAll(l, cs).log|
    ensures Conserved(Abort(DoAll(l, cs), k))
    decreases |cs|
  {
    if cs != [] {
      var l1, last := Do(l, cs[0]), DoAll(l, cs);
      ChangeKeepsConserved(l, cs[0]);
      if |l1.log| <= k {
        RollbackConserves(l1, cs[1..], k);
      } else {
        ConservedIsWellFormed(l1);
        AbortRestores(l1, cs[1..]);
        ChangeUndoneTo(l, cs[0], k);
        AbortKeepsRestored(Abort(last, |l1.log|), l1, k);
        AbortInStages(last, |l1.log|, k);
        RestoredConserves(Abort(last, k), Abort(l1, k));
      }
    }
  }
}
