/** The block layer's operations on its graph: each is a transaction of changes and a refresh of permissions. */
module BlockLayers {
  import opened BlockGraph
  import opened Topology
  import opened GraphChanges
  import opened Maps
  import opened Permissions
  import opened Transactions
  import opened GraphOperations
  import opened Chains
  import opened Placement
  import AioContexts

  // ---------------------------------------------------------------------------------------------
  // The ends of a transaction

  ghost predicate Quiet(l: Layer) {
    Conserved(l) && Acyclic(l.g) && AllPeaceful(l.g) && l.log == []
  }

  /** Rolling back any sequence of changes gives back a quiet layer. */
  lemma AbortedIsQuiet(l0: Layer, cs: seq<Change>, l: Layer)
    requires Quiet(l0) && After(l0, cs, l)
    ensures Restored(Abort(l, 0), l0) && Quiet(Abort(l, 0))
  {
    ConservedIsWellFormed(l0);
    AbortRestores(l0, cs);
    RestoredConserves(Abort(l, 0), l0);
  }

  /** The edges that a sequence of changes removes. */
  ghost function RemovedBy(cs: seq<Change>): set<EdgeId> {
    set c | c in cs && c.Remove? :: c.edge
  }

  function Without(g: Graph, es: set<EdgeId>): Graph {
    g.(edges := g.edges - es)
  }

  /** Removed edges are marked for the commit. */
  lemma {:induction false} RemovedAreFreed(l: Layer, cs: seq<Change>, e: EdgeId)
    requires CanDoAll(l, cs) && (FreeOnCommit(e) in l.log || Remove(e) in cs)
    ensures FreeOnCommit(e) in DoAll(l, cs).log
    decreases |cs|
  {
    if cs != [] {
      RemovedAreFreed(Do(l, cs[0]), cs[1..], e);
    }
  }

  /** Committing leaves the graph the transaction built, without the removed edges. */
  lemma CommitGraph(l0: Layer, cs: seq<Change>, l: Layer)
    requires l0.log == [] && After(l0, cs, l)
    ensures Commit(l).g == Without(l.g, RemovedBy(cs))
  {
    CommitKeepsGraph(l);
    forall e
      ensures FreeOnCommit(e) in l.log <==> e in RemovedBy(cs)
    {
      if FreeOnCommit(e) in l.log { FreedAreRemoved(l0, cs, e); assert Remove(e).edge == e; }
      if e in RemovedBy(cs) { RemovedAreFreed(l0, cs, e); }
    }
    SameMap(Commit(l).g.edges, Without(l.g, RemovedBy(cs)).edges);
  }

  /** A transaction leaves the users' own references alone and deletes no node. */
  lemma {:induction false} ChangesKeepHeld(l: Layer, cs: seq<Change>)
    requires CanDoAll(l, cs)
    ensures DoAll(l, cs).held == l.held && DoAll(l, cs).deleted == l.deleted
    decreases |cs|
  {
    if cs != [] { ChangesKeepHeld(Do(l, cs[0]), cs[1..]); }
  }

  lemma {:induction false} CommitKeepsHeld(l: Layer)
    ensures Commit(l).held == l.held && Commit(l).deleted == l.deleted
    decreases |l.log|
  {
    if l.log != [] { CommitKeepsHeld(CommitLast(l)); }
  }

  lemma WithoutKeepsOrder(g: Graph, es: set<EdgeId>)
    requires Acyclic(g) && AllPeaceful(g)
    ensures Acyclic(Without(g, es)) && AllPeaceful(Without(g, es))
  {
    FewerEdgesKeepAcyclic(g, Without(g, es));
    forall n | n in g.nodes
      ensures Peaceful(Without(g, es), n)
    {
      FewerUsersKeepPeace(g, Without(g, es), n);
    }
  }

  lemma CommittedIsQuiet(l0: Layer, cs: seq<Change>, l: Layer)
    requires Conserved(l0) && l0.log == [] && After(l0, cs, l) && Acyclic(l.g) && AllPeaceful(l.g)
    ensures Commit(l).g == Without(l.g, RemovedBy(cs)) && Quiet(Commit(l))
    ensures Commit(l).held == l0.held && Commit(l).deleted == l0.deleted
  {
    ChangesKeepHeld(l0, cs);
    CommitKeepsHeld(l);
    ChangesConserve(l0, cs);
    CommitConserves(l);
    CommitGraph(l0, cs, l);
    WithoutKeepsOrder(l.g, RemovedBy(cs));
  }

  // ---------------------------------------------------------------------------------------------
  // Changes that leave other nodes' users alone

  /** Edge `c` may move from its node to `to`: should_update_child allows it. */
  ghost predicate Moves(g: Graph, c: EdgeId, to: NodeId)
    requires c in g.edges
  {
    !g.edges[c].stayAtNode && !EdgeBelow(g, to, c)
  }

  predicate SameNode(a: Node, b: Node) {
    a == b.(parents := a.parents, children := a.children, file := a.file, backing := a.backing)
  }

  /** `g2` has the nodes of `g`, linked up in its own way. */
  ghost predicate SameNodes(g: Graph, g2: Graph) {
    g2.nodes.Keys == g.nodes.Keys && forall n {:trigger SameNode(g2.nodes[n], g.nodes[n])} :: n in g.nodes ==>
      SameNode(g2.nodes[n], g.nodes[n])
  }

  /** `g2` is `g` with the edges of `moved` pointing to `to`. */
  ghost predicate Moved(g: Graph, g2: Graph, moved: set<EdgeId>, to: NodeId) {
    && SameNodes(g, g2) && g2.edges.Keys == g.edges.Keys
    && forall e :: e in g.edges ==> g2.edges[e] == if e in moved then g.edges[e].(bs := Some(to)) else g.edges[e]
  }

  /** The parents of `from` that move to `to`. */
  ghost function Movers(g: Graph, from: NodeId, to: NodeId): set<EdgeId>
    requires from in g.nodes
  {
    set c | c in g.nodes[from].parents && c in g.edges && Moves(g, c, to)
  }

  /** bdrv_replace_node_noperm gets through: no parent that is to move is frozen, and none stays that must not. */
  ghost predicate CanReplace(g: Graph, from: NodeId, to: NodeId, autoSkip: bool)
    requires from in g.nodes
  {
    forall c {:trigger Moves(g, c, to)} :: c in g.nodes[from].parents && c in g.edges ==>
      if Moves(g, c, to) then !g.edges[c].frozen else autoSkip
  }

  lemma MovedKeepsPeace(g: Graph, g2: Graph, moved: set<EdgeId>, to: NodeId, n: NodeId)
    requires Linked(g) && Linked(g2) && Moved(g, g2, moved, to) && n in g.nodes && n != to && Peaceful(g, n)
    ensures Peaceful(g2, n)
  {
    assert NodeOk(g, n) && NodeOk(g2, n) && SameNode(g2.nodes[n], g.nodes[n]);
    forall e | e in g2.nodes[n].parents && e in g2.edges
      ensures e in g.nodes[n].parents && e in g.edges && EdgePerms(g2, e) == EdgePerms(g, e)
    {
      assert g2.edges[e] == g.edges[e];
    }
    FewerUsersKeepPeace(g, g2, n);
  }

  lemma SetPermStep(l0: Layer, c: EdgeId, p: Perms)
    requires Quiet(l0) && c in l0.g.edges && l0.g.edges[c].bs.Some?
    ensures
      var l, n := Do(l0, SetPerm(c, p)), l0.g.edges[c].bs.value;
      && After(l0, [SetPerm(c, p)], l) && Acyclic(l.g) && n in l.g.nodes && RemovedBy([SetPerm(c, p)]) == {}
      && forall m {:trigger Peaceful(l.g, m)} :: m in l.g.nodes && m !in ReachFrom(l.g, [n]) ==> Peaceful(l.g, m)
  {
    assert EdgeOk(l0.g, c);
    AfterOne(l0, SetPerm(c, p));
    PermsAreStructureless(l0.g, c, p);
    StartIsReached(WithPerms(l0.g, c, p), l0.g.edges[c].bs.value, [l0.g.edges[c].bs.value]);
    forall m | m in l0.g.nodes && l0.g.edges[c].bs != Some(m)
      ensures Peaceful(WithPerms(l0.g, c, p), m)
    {
      PermsKeepPeace(l0.g, c, p, m);
    }
  }

  lemma PermsAreStructureless(g: Graph, c: EdgeId, p: Perms)
    requires Acyclic(g) && c in g.edges
    ensures Acyclic(WithPerms(g, c, p))
  {
    SameStructure(g, WithPerms(g, c, p));
    FewerEdgesKeepAcyclic(g, WithPerms(g, c, p));
  }

  lemma AfterOne(l: Layer, c: Change)
    requires Possible(l, c)
    ensures After(l, [c], Do(l, c))
  {
  }

  lemma StartIsReached(g: Graph, n: NodeId, starts: seq<NodeId>)
    requires n in g.nodes && n in starts
    ensures n in ReachFrom(g, starts)
  {
    ReachesSelf(g, n);
  }

  lemma PermsKeepPeace(g: Graph, c: EdgeId, p: Perms, n: NodeId)
    requires Linked(g) && c in g.edges && n in g.nodes && g.edges[c].bs != Some(n) && Peaceful(g, n)
    ensures Peaceful(WithPerms(g, c, p), n)
  {
    assert NodeOk(g, n);
    FewerUsersKeepPeace(g, WithPerms(g, c, p), n);
  }

  // ---------------------------------------------------------------------------------------------
  // Attaching

  /** The `file` or `backing` link that a new child of this role would take is free. */
  predicate SlotReady(node: Node, role: Role) {
    match SlotOf(node.drv, role)
    case FileSlot => node.file.None?
    case BackingSlot => node.backing.None?
    case NoSlot => true
  }

  /** The edge that bdrv_attach_child_noperm makes, before it points anywhere. */
  ghost function NewEdge(g: Graph, d: Drivers, parent: NodeId, child: NodeId, e: EdgeId, role: Role): Edge
    requires parent in g.nodes && child in g.nodes
  {
    NewEdgeFor(g, d, parent, child, e, role, Cumulative(g, parent))
  }

  function NewEdgeFor(g: Graph, d: Drivers, parent: NodeId, child: NodeId, e: EdgeId, role: Role, cum: Perms): Edge
    requires child in g.nodes
  {
    var p := d.childPerm(parent, e, role, cum);
    Edge(OfNode(parent), role, None, p.perm, if g.nodes[child].forceShare then ALL_PERMS else p.shared, false, false)
  }

  /** `g2` is `g` with the edge `made`, named `e`, pointing to `child`. */
  ghost predicate Attached(g: Graph, g2: Graph, e: EdgeId, made: Edge, child: NodeId) {
    && g2.edges == g.edges[e := made.(bs := Some(child))] && g2.nodes.Keys == g.nodes.Keys
    && forall n {:trigger Relinked(g.nodes[n], n, e, made, Some(child))} ::
      n in g.nodes ==> g2.nodes[n] == Relinked(g.nodes[n], n, e, made, Some(child))
  }

  /** What bdrv_attach_child_noperm and bdrv_attach_child_common check. */
  ghost predicate CanAttach(g: Graph, d: Drivers, parent: NodeId, child: NodeId, e: EdgeId, role: Role)
    requires parent in g.nodes && child in g.nodes
  {
    && !Reaches(g, child, parent)
    && (g.nodes[child].inactive ==>
         g.nodes[parent].inactive && NewEdge(g, d, parent, child, e, role).perm <= {ConsistentRead})
  }

  lemma AttachIs(l: Layer, e: EdgeId, made: Edge, child: NodeId)
    requires Possible(l, Attach(e, made, child))
    ensures Attached(l.g, Do(l, Attach(e, made, child)).g, e, made, child)
  {
  }

  lemma AttachedKeepsPeace(g: Graph, g2: Graph, e: EdgeId, made: Edge, child: NodeId, n: NodeId)
    requires n in g.nodes && NodeOk(g, n) && e !in g.edges
    requires Attached(g, g2, e, made, child) && n != child && Peaceful(g, n)
    ensures Peaceful(g2, n)
  {
    assert g2.nodes[n] == Relinked(g.nodes[n], n, e, made, Some(child));
    FewerUsersKeepPeace(g, g2, n);
  }

  lemma AttachedChild(g: Graph, g2: Graph, e: EdgeId, made: Edge, child: NodeId)
    requires Attached(g, g2, e, made, child) && made.owner.OfNode? && made.owner.node in g.nodes && child in g.nodes
    ensures e in g2.edges && e in g2.nodes[made.owner.node].children && g2.edges[e] == made.(bs := Some(child))
    ensures child in ReachFrom(g2, [made.owner.node])
  {
    var p := made.owner.node;
    assert g2.nodes[p] == Relinked(g.nodes[p], p, e, made, Some(child));
    assert HasChild(g2, p, child);
    ReachesChild(g2, p, child);
    assert p in [p];
  }

  lemma AttachedIsPeaceful(g: Graph, g2: Graph, e: EdgeId, made: Edge, child: NodeId)
    requires Linked(g) && AllPeaceful(g) && e !in g.edges && Attached(g, g2, e, made, child)
    ensures forall n :: n in g2.nodes && n != child ==> Peaceful(g2, n)
  {
    forall n | n in g2.nodes && n != child
      ensures Peaceful(g2, n)
    {
      assert NodeOk(g, n);
      AttachedKeepsPeace(g, g2, e, made, child, n);
    }
  }

  // ---------------------------------------------------------------------------------------------
  // Appending

  /** bdrv_backing_role */
  function BackingRole(drv: Option<Driver>): Role {
    if drv.Some? && drv.value.isFilter then Role(false, false, true, false, true)
    else Role(false, false, false, true, false)
  }

  /** The edge just made from `top`'s new parent to `top` stays where it is when the other parents of `top` move. */
  lemma NewEdgeStays(g: Graph, mid: Graph, top: NodeId, bs: NodeId, e: EdgeId)
    requires Linked(mid) && top in g.nodes && bs in g.nodes && Moved(g, mid, Movers(g, top, bs), bs)
    requires e in g.edges && e in g.nodes[bs].children && g.edges[e].bs == Some(top) && g.edges[e].owner == OfNode(bs)
    ensures mid.edges[e] == g.edges[e] && Reaches(mid, bs, top)
    ensures top in ReachFrom(mid, [bs]) && bs in ReachFrom(mid, [bs])
  {
    ReachesSelf(g, bs);
    assert EdgeBelow(g, bs, e);
    assert NodeOk(mid, bs);
    assert e in mid.nodes[bs].children;
    assert HasChild(mid, bs, top);
    ReachesChild(mid, bs, top);
    ReachesSelf(mid, bs);
    assert bs in [bs];
  }

  lemma AppendIsPeaceful(joined: Graph, mid: Graph, top: NodeId, bs: NodeId)
    requires Linked(joined) && Linked(mid) && top in joined.nodes && bs in joined.nodes
    requires Moved(joined, mid, Movers(joined, top, bs), bs)
    requires top in ReachFrom(mid, [bs]) && bs in ReachFrom(mid, [bs])
    requires forall n :: n in joined.nodes && n != top ==> Peaceful(joined, n)
    ensures forall n {:trigger Peaceful(mid, n)} :: n in mid.nodes && n !in ReachFrom(mid, [bs]) ==> Peaceful(mid, n)
  {
    forall n | n in mid.nodes && n !in ReachFrom(mid, [bs])
      ensures Peaceful(mid, n)
    {
      MovedKeepsPeace(joined, mid, Movers(joined, top, bs), bs, n);
    }
  }

  // ---------------------------------------------------------------------------------------------
  // Setting the backing link

  /** `g2` is `g` with edge `c` pointing nowhere. */
  ghost predicate Detached(g: Graph, g2: Graph, c: EdgeId) {
    && c in g.edges && g2.edges == g.edges[c := g.edges[c].(bs := None)] && g2.nodes.Keys == g.nodes.Keys
    && forall n {:trigger Relinked(g.nodes[n], n, c, g.edges[c], None)} ::
      n in g.nodes ==> g2.nodes[n] == Relinked(g.nodes[n], n, c, g.edges[c], None)
  }

  /** What bdrv_set_file_or_backing_noperm checks before it touches the backing link of `n`. */
  ghost predicate CanUnlink(g: Graph, n: NodeId)
    requires n in g.nodes
  {
    var node := g.nodes[n];
    && node.drv.Some? && (node.drv.value.isFilter || node.drv.value.supportsBacking)
    && (node.backing.Some? && node.backing.value in g.edges ==> !g.edges[node.backing.value].frozen)
  }

  ghost predicate Unlinked(g: Graph, n: NodeId, g2: Graph)
    requires n in g.nodes
  {
    if g.nodes[n].backing.Some? then Detached(g, g2, g.nodes[n].backing.value) else g2 == g
  }

  /** What bdrv_child_perm and bdrv_child_cb_attach assert of a node that is to get a new backing child. */
  predicate CanHaveBacking(node: Node) {
    Derives(node) && (SlotOf(node.drv, BackingRole(node.drv)) == FileSlot ==> node.file.None?)
  }

  function LinkEdges(link: Option<EdgeId>): set<EdgeId> {
    if link.Some? then {link.value} else {}
  }

  /** `g2` is `g` with the new backing child, if any. */
  ghost predicate Relinking(g: Graph, d: Drivers, n: NodeId, backing: Option<NodeId>, e: EdgeId, g2: Graph)
    requires n in g.nodes && (backing.Some? ==> backing.value in g.nodes)
  {
    if backing.Some? then
      Attached(g, g2, e, NewEdge(g, d, n, backing.value, e, BackingRole(g.nodes[n].drv)), backing.value)
    else g2 == g
  }

  lemma BackingIsEdge(g: Graph, n: NodeId)
    requires Linked(g) && n in g.nodes && g.nodes[n].backing.Some?
    ensures g.nodes[n].backing.value in g.edges && g.edges[g.nodes[n].backing.value].bs.Some?
  {
    assert NodeOk(g, n);
    assert g.nodes[n].backing.value in EdgesFrom(g, n);
  }

  lemma RemoveIs(l: Layer, c: EdgeId)
    requires Possible(l, Remove(c)) && l.g.edges[c].bs.Some?
    ensures
      var l2 := Do(l, Remove(c));
      && l2.g == Repoint(l.g, c, None) && l2.refs == l.refs && l2.scheduled == l.scheduled
      && (forall x :: FreeOnCommit(x) in l2.log ==> FreeOnCommit(x) in l.log || x == c)
  {
  }

  lemma RepointDetaches(g: Graph, c: EdgeId)
    requires c in g.edges
    ensures Detached(g, Repoint(g, c, None), c)
  {
  }

  /** Removing the backing edge of a node. */
  lemma UnlinkStep(l: Layer, c: EdgeId)
    requires Quiet(l) && c in l.g.edges && l.g.edges[c].bs.Some? && !l.g.edges[c].frozen
    ensures
      && Possible(l, Remove(c)) && RemovedBy([Remove(c)]) == {c}
      && var l2 := Do(l, Remove(c));
         After(l, [Remove(c)], l2) && Conserved(l2) && Acyclic(l2.g) && AllPeaceful(l2.g) && Detached(l.g, l2.g, c)
  {
    AfterOne(l, Remove(c));
    assert Remove(c) in [Remove(c)];
    RemoveIs(l, c);
    assert Conserved(Do(l, Remove(c))) by { ChangesConserve(l, [Remove(c)]); }
    DetachKeepsAcyclic(l.g, c);
    RepointDetaches(l.g, c);
    forall n | n in Repoint(l.g, c, None).nodes
      ensures Peaceful(Repoint(l.g, c, None), n)
    {
      DetachKeepsPeace(l.g, Repoint(l.g, c, None), c, n);
    }
  }

  lemma DetachKeepsPeace(g: Graph, g2: Graph, c: EdgeId, n: NodeId)
    requires Detached(g, g2, c) && n in g.nodes && Peaceful(g, n)
    ensures Peaceful(g2, n)
  {
    assert g2.nodes[n] == Relinked(g.nodes[n], n, c, g.edges[c], None);
    FewerUsersKeepPeace(g, g2, n);
  }

  // ---------------------------------------------------------------------------------------------
  // Contexts in a transaction

  /** BdrvAttachChildCommonState: the contexts of both nodes before the attach whose log entry is number `at`. */
  datatype Saved = Saved(at: nat, parent: NodeId, child: NodeId, parentCtx: AioContexts.Ctx, childCtx: AioContexts.Ctx)

  /** An abort of `l` that reaches the entry of the attach finds the graph in which the nodes were moved from `x0`. */
  ghost predicate Remembers(
      l: Layer, movable: set<EdgeId>, saved: Option<Saved>, x0: AioContexts.Contexts, x: AioContexts.Contexts) {
    match saved
    case None => x == x0
    case Some(a) =>
      && a.at < |l.log| && SafeAbort(l, a.at)
      && Meeting(Abort(l, a.at).g, movable, x0, a.parent, a.child, x) && x.nodes.Keys == x0.nodes.Keys
      && a.parentCtx == x0.nodes[a.parent] && a.childCtx == x0.nodes[a.child]
  }

  /** Further changes are undone first. */
  lemma RemembersAfter(
      l: Layer, cs: seq<Change>, l2: Layer, movable: set<EdgeId>, saved: Option<Saved>, x0: AioContexts.Contexts,
      x: AioContexts.Contexts)
    requires Conserved(l) && After(l, cs, l2) && Remembers(l, movable, saved, x0, x)
    ensures Remembers(l2, movable, saved, x0, x)
  {
    if saved.Some? {
      ConservedIsWellFormed(l);
      AbortRestores(l, cs);
      AbortKeepsRestored(Abort(l2, |l.log|), l, saved.value.at);
      AbortInStages(l2, |l.log|, saved.value.at);
    }
  }

  /** What an attach remembers. */
  lemma AttachRemembers(
      l: Layer, e: EdgeId, made: Edge, child: NodeId, movable: set<EdgeId>, parent: NodeId, x0: AioContexts.Contexts,
      x: AioContexts.Contexts)
    requires Conserved(l) && Possible(l, Attach(e, made, child))
    requires Meeting(l.g, movable, x0, parent, child, x) && x.nodes.Keys == x0.nodes.Keys
    ensures
      var a := Saved(|l.log|, parent, child, x0.nodes[parent], x0.nodes[child]);
      Remembers(Do(l, Attach(e, made, child)), movable, Some(a), x0, x)
  {
    ConservedIsWellFormed(l);
    ChangeUndone(l, Attach(e, made, child));
  }

  /** The abort arrives at the entry of the attach. */
  lemma RemembersHere(
      l: Layer, movable: set<EdgeId>, a: Saved, x0: AioContexts.Contexts, x: AioContexts.Contexts)
    requires Remembers(l, movable, Some(a), x0, x) && |UndoLast(l).log| <= a.at
    ensures |UndoLast(l).log| == a.at && Meeting(UndoLast(l).g, movable, x0, a.parent, a.child, x)
  {
    assert Abort(l, a.at) == Abort(UndoLast(l), a.at);
  }

  /** The abort has not got there yet. */
  lemma RemembersStill(
      l: Layer, movable: set<EdgeId>, a: Saved, x0: AioContexts.Contexts, x: AioContexts.Contexts)
    requires Remembers(l, movable, Some(a), x0, x) && |UndoLast(l).log| > a.at
    ensures Remembers(UndoLast(l), movable, Some(a), x0, x)
  {
  }

  lemma AttachedIsPlaced(g: Graph, g2: Graph, e: EdgeId, made: Edge, child: NodeId, x: AioContexts.Contexts)
    requires Placed(g, x) && Attached(g, g2, e, made, child) && made.owner.OfNode?
    requires made.owner.node in g.nodes && child in g.nodes && x.nodes[made.owner.node] == x.nodes[child]
    ensures Placed(g2, x)
  {
    forall a | a in g2.edges
      ensures AioContexts.Agrees(g2, x, a)
    {
      if a != e { assert g2.edges[a] == g.edges[a] && AioContexts.Agrees(g, x, a); }
    }
  }

  lemma MovedIsPlaced(g: Graph, g2: Graph, from: NodeId, to: NodeId, x: AioContexts.Contexts)
    requires Linked(g) && Placed(g, x) && from in g.nodes && to in g.nodes && x.nodes[from] == x.nodes[to]
    requires Moved(g, g2, Movers(g, from, to), to)
    ensures Placed(g2, x)
  {
    assert NodeOk(g, from);
    RedirectedIsPlaced(g, g2, x, from, to);
  }

  lemma DetachedIsPlaced(g: Graph, g2: Graph, c: EdgeId, x: AioContexts.Contexts)
    requires Placed(g, x) && Detached(g, g2, c)
    ensures Placed(g2, x)
  {
    FewerIsPlaced(g, g2, x);
  }

  lemma UnlinkedIsPlaced(g: Graph, n: NodeId, g2: Graph, x: AioContexts.Contexts)
    requires Placed(g, x) && n in g.nodes && Unlinked(g, n, g2)
    ensures Placed(g2, x)
  {
    if g.nodes[n].backing.Some? { DetachedIsPlaced(g, g2, g.nodes[n].backing.value, x); }
  }

  /** After an attach both ends share a context, and an abort would take both back. */
  lemma AttachPlaces(
      l: Layer, e: EdgeId, made: Edge, child: NodeId, movable: set<EdgeId>, x0: AioContexts.Contexts,
      x: AioContexts.Contexts)
    requires Conserved(l) && Possible(l, Attach(e, made, child)) && made.owner.OfNode?
    requires Meeting(l.g, movable, x0, made.owner.node, child, x)
    ensures
      var l2, a := Do(l, Attach(e, made, child)),
        Saved(|l.log|, made.owner.node, child, x0.nodes[made.owner.node], x0.nodes[child]);
      && Remembers(l2, movable, Some(a), x0, x) && Placed(l2.g, x) && x.nodes[made.owner.node] == x.nodes[child]
  {
    MeetingIsPlaced(l.g, movable, x0, made.owner.node, child, x);
    AttachRemembers(l, e, made, child, movable, made.owner.node, x0, x);
    AttachIs(l, e, made, child);
    AttachedIsPlaced(l.g, Do(l, Attach(e, made, child)).g, e, made, child, x);
  }

  lemma AttachDone(
      l: Layer, e: EdgeId, made: Edge, child: NodeId, movable: set<EdgeId>, x0: AioContexts.Contexts,
      x: AioContexts.Contexts, l2: Layer, a: Saved)
    requires Conserved(l) && Acyclic(l.g) && Possible(l, Attach(e, made, child)) && l2 == Do(l, Attach(e, made, child))
    requires made.owner == OfNode(a.parent) && a.child == child && !Reaches(l.g, child, a.parent)
    requires Meeting(l.g, movable, x0, a.parent, child, x)
    requires a == Saved(|l.log|, a.parent, child, x0.nodes[a.parent], x0.nodes[child])
    ensures Open(l, [Attach(e, made, child)], l2) && Attached(l.g, l2.g, e, made, child)
    ensures Remembers(l2, movable, Some(a), x0, x) && Placed(l2.g, x) && x.nodes[a.parent] == x.nodes[child]
    ensures forall n :: Live(l, n) ==> Live(l2, n)
  {
    AttachStep(l, e, made, child);
    AttachPlaces(l, e, made, child, movable, x0, x);
  }

  lemma DropDone(l: Layer, e: EdgeId, x: AioContexts.Contexts, l2: Layer)
    requires Quiet(l) && Placed(l.g, x) && CanRepoint(l.g, e, None) && l2 == Dropped(l, e)
    ensures Quiet(l2) && Placed(l2.g, x) && l.g.edges[e].bs.value in l2.g.nodes
  {
    UnrefStep(l, e);
    FewerIsPlaced(l.g, l2.g, x);
  }

  /** A refresh of permissions and the end of removed edges leave nothing out of place. */
  lemma SettledIsPlaced(g: Graph, f: Graph, d: Drivers, s: set<NodeId>, gone: set<EdgeId>, x: AioContexts.Contexts)
    requires Placed(g, x) && Fixpoint(g, f, d, s)
    ensures Placed(f, x) && Placed(Without(f, gone), x)
  {
    FewerIsPlaced(g, f, x);
    FewerIsPlaced(f, Without(f, gone), x);
  }

  // ---------------------------------------------------------------------------------------------
  // The operations

  /**
  The block layer with the transaction it is in; `d` stands for the drivers' callbacks, `movable` for the users that
  accept another context, and `main` is the main context.
  */
  class BlockLayer {
    var l: Layer
    var x: AioContexts.Contexts
    var saved: Option<Saved>
    const d: Drivers
    const movable: set<EdgeId>
    const main: AioContexts.Ctx

    constructor (l: Layer, x: AioContexts.Contexts, d: Drivers, movable: set<EdgeId>, main: AioContexts.Ctx)
      ensures this.l == l && this.x == x && saved.None?
      ensures this.d == d && this.movable == movable && this.main == main
    {
      this.l, this.x, this.d, this.movable, this.main := l, x, d, movable, main;
      saved := None;
    }

    /**
    Between operations: counts add up, lists and links agree, no cycle, no users in conflict, and what is tied
    together is in one context.
    */
    ghost predicate Valid()
      reads this
    {
      Quiet(l) && Placed(l.g, x) && saved.None?
    }

    /** bdrv_try_change_aio_context_locked */
    method TryMove(n: NodeId, ctx: AioContexts.Ctx) returns (ok: bool)
      requires Linked(l.g) && Placed(l.g, x) && n in l.g.nodes
      modifies this`x
      ensures ok <==> CanShift(l.g, movable, old(x), n, ctx)
      ensures if ok then Shifted(l.g, movable, old(x), n, ctx, x) else x == old(x)
      ensures Placed(l.g, x)
    {
      var change := new AioContexts.ContextChange(l.g, movable, x);
      ok := change.TryChange(n, ctx, None);
      if ok { ShiftedIsPlaced(l.g, movable, x, n, ctx, change.x); }
      x := change.x;
    }

    /**
    The contexts in bdrv_attach_child_common: the child moves to the parent's, or else the parent to the child's.  The
    new edge is not in the graph yet, so that no move follows it.
    */
    method Meet(parent: NodeId, child: NodeId) returns (ok: bool)
      requires Linked(l.g) && Placed(l.g, x) && parent in l.g.nodes && child in l.g.nodes
      modifies this`x
      ensures ok <==> CanMeet(l.g, movable, old(x), parent, child)
      ensures if ok then Met(l.g, movable, old(x), parent, child, x) else x == old(x)
    {
      ok := true;
      var parentCtx, childCtx := x.nodes[parent], x.nodes[child];
      if childCtx != parentCtx {
        ok := TryMove(child, parentCtx);
        if !ok {
          ok := TryMove(parent, childCtx);
        }
      }
    }

    /** bdrv_attach_child_common_abort, after the edge is gone: both nodes go back to where they were. */
    method MoveBack(ghost x0: AioContexts.Contexts)
      requires saved.Some? && x.nodes.Keys == l.g.nodes.Keys
      requires Meeting(l.g, movable, x0, saved.value.parent, saved.value.child, x)
      requires saved.value.parentCtx == x0.nodes[saved.value.parent]
      requires saved.value.childCtx == x0.nodes[saved.value.child]
      modifies this`x, this`saved
      ensures x == x0 && saved.None?
    {
      var a, ok := saved.value, true;
      MeetingIsPlaced(l.g, movable, x0, a.parent, a.child, x);
      MeetingEnds(l.g, movable, x0, a.parent, a.child, x);
      if x.nodes[a.child] != a.childCtx {
        ok := TryMove(a.child, a.childCtx);
        assert ok;
      }
      if x.nodes[a.parent] != a.parentCtx {
        ok := TryMove(a.parent, a.parentCtx);
        assert ok;
      }
      saved := None;
    }

    /** The abort callback of the last log entry, that of an attach with what it does about contexts. */
    method AbortLast(ghost x0: AioContexts.Contexts)
      requires l.log != [] && Remembers(l, movable, saved, x0, x)
      modifies this`l, this`x, this`saved
      ensures l == UndoLast(old(l)) && Remembers(l, movable, saved, x0, x)
    {
      if saved.Some? && |l.log| - 1 <= saved.value.at {
        RemembersHere(l, movable, saved.value, x0, x);
        l := UndoLast(l);
        MoveBack(x0);
      } else {
        if saved.Some? { RemembersStill(l, movable, saved.value, x0, x); }
        l := UndoLast(l);
      }
    }

    /** tran_abort: walks the log from the last entry to the first; `x0` is where this takes the contexts. */
    method AbortAll(ghost x0: AioContexts.Contexts)
      requires Remembers(l, movable, saved, x0, x)
      modifies this`l, this`x, this`saved
      ensures l == Abort(old(l), 0) && x == x0 && saved.None?
    {
      while l.log != []
        invariant Abort(l, 0) == Abort(old(l), 0) && Remembers(l, movable, saved, x0, x)
        decreases |l.log|
      {
        AbortLast(x0);
      }
    }

    /** tran_finalize; a commit walks the log from the last entry to the first as well. */
    method Finalize(ok: bool, ghost x0: AioContexts.Contexts)
      requires !ok ==> Remembers(l, movable, saved, x0, x)
      modifies this`l, this`x, this`saved
      ensures l == if ok then Commit(old(l)) else Abort(old(l), 0)
      ensures x == (if ok then old(x) else x0) && saved.None?
    {
      if !ok {
        AbortAll(x0);
        return;
      }
      while l.log != []
        invariant Commit(l) == Commit(old(l)) && x == old(x)
        decreases |l.log|
      {
        l := CommitLast(l);
      }
      saved := None;
    }

    /** The checks of bdrv_parent_perms_conflict and bdrv_node_refresh_perm at `n`, then its children. */
    method RefreshNode(n: NodeId) returns (ok: bool, ghost cs: seq<Change>)
      requires Linked(l.g) && n in l.g.nodes
      modifies this`l
      ensures After(old(l), cs, l) && forall c :: c in cs ==> c.SetPerm?
      ensures ok <==> Permitted(old(l.g), d, n)
      ensures l.g == if ok then Derive(old(l.g), d, n) else old(l.g)
    {
      cs := [];
      ghost var g0 := l.g;
      assert NodeOk(g0, n);
      var conflict := ParentPermsConflict(l.g, n);
      if conflict { return false, cs; }
      var cum := GetCumulativePerm(l.g, n);
      var node := l.g.nodes[n];
      if NeedsWrite(cum) && !node.writable { return false, cs; }
      if NeedsWrite(cum) && Resize !in cum.perm && !node.sizeAligned { return false, cs; }
      if node.drv.None? { return true, cs; }
      if !d.accepts(n, cum) { return false, cs; }
      ok := true;
      if !node.drv.value.hasChildPerm { return; }
      cs := RefreshChildren(n, cum);
    }

    /** The loop of bdrv_node_refresh_perm over the children of `n`. */
    method RefreshChildren(n: NodeId, cum: Perms) returns (ghost cs: seq<Change>)
      requires n in l.g.nodes && NodeOk(l.g, n) && Derives(l.g.nodes[n]) && cum == Cumulative(l.g, n)
      modifies this`l
      ensures After(old(l), cs, l) && forall c :: c in cs ==> c.SetPerm?
      ensures l.g == Derive(old(l.g), d, n)
    {
      cs := [];
      ghost var g0, g1 := l.g, Derive(l.g, d, n);
      var rest := l.g.nodes[n].children;
      while rest != {}
        invariant rest <= g0.nodes[n].children <= g0.edges.Keys
        invariant After(old(l), cs, l) && forall c :: c in cs ==> c.SetPerm?
        invariant l.g.nodes == g0.nodes && l.g.edges.Keys == g0.edges.Keys
        invariant forall e :: e in rest ==> l.g.edges[e] == g0.edges[e]
        invariant forall e :: e in g0.edges && e !in rest ==> l.g.edges[e] == g1.edges[e]
      {
        var e :| e in rest;
        rest := rest - {e};
        var c := SetPerm(e, ChildPerm(l.g, d, n, e, cum));
        AfterAppend(old(l), cs, l, c);
        l := Do(l, c);
        cs := cs + [c];
      }
      SameMap(l.g.edges, g1.edges);
    }

    /** bdrv_do_refresh_perms */
    method DoRefreshPerms(list: seq<NodeId>) returns (ok: bool, ghost cs: seq<Change>)
      requires Linked(l.g) && forall n :: n in list ==> n in l.g.nodes
      modifies this`l
      ensures After(old(l), cs, l) && forall c :: c in cs ==> c.SetPerm?
      ensures Refresh(old(l.g), d, list) == if ok then Done(l.g) else Refused(l.g)
    {
      cs := [];
      for i := 0 to |list|
        invariant After(old(l), cs, l) && forall c :: c in cs ==> c.SetPerm?
        invariant Linked(l.g) && l.g.nodes == old(l.g.nodes)
        invariant Refresh(old(l.g), d, list) == Refresh(l.g, d, list[i..])
      {
        ghost var l1 := l;
        ghost var more: seq<Change>;
        ok, more := RefreshNode(list[i]);
        AfterChain(old(l), cs, l1, more, l);
        cs := cs + more;
        assert list[i..][1..] == list[i + 1..];
        if !ok { return; }
        SameStructure(l1.g, l.g);
      }
      ok := true;
    }

    /**
    bdrv_list_refresh_perms, and bdrv_refresh_perms with one start: succeeds exactly if the nodes below the
    starts can be given permissions at all, and then gives them the only ones that fit.
    */
    method RefreshFrom(starts: seq<NodeId>) returns (ok: bool, ghost cs: seq<Change>)
      requires Linked(l.g) && Acyclic(l.g) && forall n :: n in starts ==> n in l.g.nodes
      modifies this`l
      ensures After(old(l), cs, l) && forall c :: c in cs ==> c.SetPerm?
      ensures ok <==> Satisfiable(old(l.g), d, ReachFrom(old(l.g), starts))
      ensures ok ==>
        Fixpoint(old(l.g), l.g, d, ReachFrom(old(l.g), starts)) && AllPermitted(l.g, d, ReachFrom(old(l.g), starts))
    {
      LinkedIsClosed(l.g);
      var list := SortFrom(l.g, starts);
      RefreshMeets(l.g, d, list, ReachFrom(l.g, starts));
      ok, cs := DoRefreshPerms(list);
    }

    /**
    The end of every operation: refresh below the starts, then finalize.  `l0` is the layer before the
    operation and `x0` its contexts, and `cs` is what the operation has changed since.
    */
    method RefreshAndFinalize(
        starts: seq<NodeId>, ghost l0: Layer, ghost cs: seq<Change>, ghost x0: AioContexts.Contexts)
      returns (ok: bool, ghost f: Graph)
      requires Quiet(l0) && After(l0, cs, l) && Acyclic(l.g)
      requires Placed(l0.g, x0) && Placed(l.g, x) && Remembers(l, movable, saved, x0, x)
      requires forall n :: n in starts ==> n in l.g.nodes
      requires forall n {:trigger Peaceful(l.g, n)} :: n in l.g.nodes && n !in ReachFrom(l.g, starts) ==>
        Peaceful(l.g, n)
      modifies this`l, this`x, this`saved
      ensures Valid() && x == if ok then old(x) else x0
      ensures ok <==> Satisfiable(old(l.g), d, ReachFrom(old(l.g), starts))
      ensures ok ==>
        Settled(old(l.g), f, starts) && l.g == Without(f, RemovedBy(cs)) && (RemovedBy(cs) == {} ==> l.g == f)
      ensures !ok ==> Restored(l, l0)
      ensures l.held == l0.held && l.deleted == l0.deleted
    {
      ghost var l1, more := l, [];
      ChangesConserve(l0, cs);
      ok, more := RefreshFrom(starts);
      f := l.g;
      AfterChain(l0, cs, l1, more, l);
      assert RemovedBy(cs + more) == RemovedBy(cs);
      if ok {
        SettledIsPeaceful(l1.g, f, starts);
        CommittedIsQuiet(l0, cs + more, l);
        SameMap(Without(f, {}).edges, f.edges);
        SettledIsPlaced(l1.g, f, d, ReachFrom(l1.g, starts), RemovedBy(cs), x);
      } else {
        AbortedIsQuiet(l0, cs + more, l);
        RemembersAfter(l1, more, l, movable, saved, x0, x);
      }
      Finalize(ok, x0);
    }

    /** tran_abort */
    method Rollback(ghost l0: Layer, ghost cs: seq<Change>, ghost x0: AioContexts.Contexts)
      requires Quiet(l0) && After(l0, cs, l) && Placed(l0.g, x0) && Remembers(l, movable, saved, x0, x)
      modifies this`l, this`x, this`saved
      ensures Valid() && Restored(l, l0) && x == x0
    {
      AbortedIsQuiet(l0, cs, l);
      Finalize(false, x0);
    }

    /** The end of an operation: if its changes could be made, they are settled and committed, and else undone. */
    method Conclude(
        done: bool, starts: seq<NodeId>, ghost l0: Layer, ghost cs: seq<Change>, ghost x0: AioContexts.Contexts)
      returns (ok: bool, ghost f: Graph)
      requires Quiet(l0) && After(l0, cs, l) && Placed(l0.g, x0) && Remembers(l, movable, saved, x0, x)
      requires done ==> Acyclic(l.g) && Placed(l.g, x) && forall n :: n in starts ==> n in l.g.nodes
      requires done ==> forall n {:trigger Peaceful(l.g, n)} :: n in l.g.nodes && n !in ReachFrom(l.g, starts) ==>
        Peaceful(l.g, n)
      modifies this`l, this`x, this`saved
      ensures Valid() && x == (if ok then old(x) else x0) && l.held == l0.held && l.deleted == l0.deleted
      ensures ok <==> done && Satisfiable(old(l.g), d, ReachFrom(old(l.g), starts))
      ensures ok ==>
        Settled(old(l.g), f, starts) && l.g == Without(f, RemovedBy(cs)) && (RemovedBy(cs) == {} ==> l.g == f)
      ensures !ok ==> Restored(l, l0)
    {
      f := l.g;
      if done {
        ok, f := RefreshAndFinalize(starts, l0, cs, x0);
      } else {
        ok := false;
        Rollback(l0, cs, x0);
      }
    }

    /** `f` is `g` with the permissions below the starts derived anew and accepted by every node there. */
    ghost predicate Settled(g: Graph, f: Graph, starts: seq<NodeId>) {
      Fixpoint(g, f, d, ReachFrom(g, starts)) && AllPermitted(f, d, ReachFrom(g, starts))
    }

    lemma SettledIsPeaceful(g: Graph, f: Graph, starts: seq<NodeId>)
      requires Linked(g) && Acyclic(g) && Settled(g, f, starts)
      requires forall n {:trigger Peaceful(g, n)} :: n in g.nodes && n !in ReachFrom(g, starts) ==> Peaceful(g, n)
      ensures Acyclic(f) && AllPeaceful(f)
    {
      LinkedIsClosed(g);
      ReachFromIsClosed(g, starts);
      RefreshKeepsPeace(g, f, d, ReachFrom(g, starts));
      SameStructure(g, f);
      FewerEdgesKeepAcyclic(g, f);
    }

    /**
    bdrv_child_try_set_perm: succeeds if the new permissions can be had.  If they cannot, everything is as
    before, and that counts as success exactly if the caller asked for nothing more.
    */
    method TrySetPerm(c: EdgeId, p: Perms) returns (ok: bool)
      requires Valid() && c in l.g.edges && l.g.edges[c].bs.Some?
      modifies this`l, this`x, this`saved
      ensures Valid() && x == old(x)
      ensures
        var g, g1 := old(l.g), WithPerms(old(l.g), c, p);
        var starts := [g.edges[c].bs.value];
        if Satisfiable(g1, d, ReachFrom(g1, starts)) then ok && Settled(g1, l.g, starts)
        else Restored(l, old(l)) && (ok <==> Looser(p, EdgePerms(g, c)))
    {
      ghost var l0 := l;
      var n := l.g.edges[c].bs.value;
      SetPermStep(l0, c, p);
      FewerIsPlaced(l.g, WithPerms(l.g, c, p), x);
      l := Do(l, SetPerm(c, p));
      ghost var f;
      ok, f := RefreshAndFinalize([n], l0, [SetPerm(c, p)], x);
      if !ok && Looser(p, EdgePerms(l.g, c)) {
        ok := true;
      }
    }

    /** The body of the loop of bdrv_replace_node_noperm, for the parent `c`. */
    method ReplaceParent(
        c: EdgeId, to: NodeId, autoSkip: bool, ghost l0: Layer, ghost cs: seq<Change>, ghost moved: set<EdgeId>)
      returns (ok: bool, ghost cs2: seq<Change>, ghost moved2: set<EdgeId>)
      requires Conserved(l0) && Open(l0, cs, l) && Live(l, to) && Redirected(l0.g, l.g, moved, to)
      requires c in l0.g.edges && c !in moved && l0.g.edges[c].bs.Some? && l0.g.edges[c].bs != Some(to)
      modifies this`l
      ensures Open(l0, cs2, l) && Live(l, to) && Redirected(l0.g, l.g, moved2, to)
      ensures ok <==> if Moves(l0.g, c, to) then !l0.g.edges[c].frozen else autoSkip
      ensures ok ==> moved2 == if Moves(l0.g, c, to) then moved + {c} else moved
    {
      cs2, moved2 := cs, moved;
      LooksTheSame(l0, cs, l, moved, to, c);
      var update := ShouldUpdateChild(l.g, c, to);
      if !update {
        return autoSkip, cs2, moved2;
      }
      if l.g.edges[c].frozen {
        return false, cs2, moved2;
      }
      ReplaceAndRedirect(l0, cs, l, moved, to, c);
      l := Do(l, Replace(c, Some(to)));
      ok, cs2, moved2 := true, cs + [Replace(c, Some(to))], moved + {c};
    }

    /** bdrv_replace_node_noperm */
    method ReplaceNodeNoperm(from: NodeId, to: NodeId, autoSkip: bool) returns (ok: bool, ghost cs: seq<Change>)
      requires Conserved(l) && Acyclic(l.g) && from in l.g.nodes && from != to && Live(l, to)
      modifies this`l
      ensures Open(old(l), cs, l)
      ensures ok <==> CanReplace(old(l.g), from, to, autoSkip)
      ensures ok ==> Moved(old(l.g), l.g, Movers(old(l.g), from, to), to)
    {
      cs := [];
      ghost var l0, moved: set<EdgeId> := l, {};
      var rest := l.g.nodes[from].parents;
      NoneReplaced(l0.g, from, to, autoSkip);
      while rest != {}
        invariant Open(l0, cs, l) && Live(l, to) && Redirected(l0.g, l.g, moved, to)
        invariant Replaced(l0.g, from, to, autoSkip, rest, moved)
      {
        var c :| c in rest;
        NextReplaced(l0.g, from, to, autoSkip, rest, moved, c);
        rest := rest - {c};
        ok, cs, moved := ReplaceParent(c, to, autoSkip, l0, cs, moved);
        if !ok { return; }
      }
      AllReplaced(l0.g, from, to, autoSkip, moved);
      ok := true;
    }

    /**
    The changes of bdrv_replace_node_common; `moved` is the graph before the subchain is detached.  Detaching
    comes with the assertion that the link is not frozen.
    */
    method ReplaceAndDetach(from: NodeId, to: NodeId, autoSkip: bool, detach: bool)
      returns (ok: bool, ghost cs: seq<Change>, ghost moved: Graph)
      requires Valid() && from in l.g.nodes && from != to && Live(l, to) && (detach ==> ChainContains(l.g, from, to))
      requires detach && CanReplace(l.g, from, to, autoSkip) ==> !LinkFrozen(l.g, from, to)
      requires x.nodes[from] == x.nodes[to]
      modifies this`l
      ensures After(old(l), cs, l) && Acyclic(l.g)
      ensures ok <==> CanReplace(old(l.g), from, to, autoSkip)
      ensures ok ==> Moved(old(l.g), moved, Movers(old(l.g), from, to), to)
      ensures ok ==> RemovedBy(cs) == if detach then {SubchainLink(old(l.g), from, to)} else {}
      ensures ok ==> if detach then Detached(moved, l.g, SubchainLink(old(l.g), from, to)) else l.g == moved
      ensures ok ==> PeacefulBut(l.g, to) && from in l.g.nodes && to in l.g.nodes && Placed(l.g, x)
    {
      ghost var l0 := l;
      var p := from;
      if detach {
        p := FindCowParent(l.g, from, to);
        OneCowParent(l.g, from, to, p);
      }
      ok, cs := ReplaceNodeNoperm(from, to, autoSkip);
      moved := l.g;
      if !ok {
        return;
      }
      MovedIsPeaceful(l0, cs, l, from, to);
      MovedIsPlaced(l0.g, l.g, from, to, x);
      if detach {
        ChainLinkStays(l0, cs, l, from, to, p);
        var e := ChainChild(l.g.nodes[p]).value;
        DetachStep(l0, cs, l, e, to);
        cs := cs + [Remove(e)];
        l := Do(l, Remove(e));
        DetachedIsPlaced(moved, l.g, e, x);
      }
    }

    /**
    bdrv_replace_node_common: the parents of `from` that may move now point to `to`, the link of the chain of
    `from` that led to `to` is gone if that is wanted, and everything below both has permissions that fit; or
    nothing has changed.
    */
    method ReplaceNode(from: NodeId, to: NodeId, autoSkip: bool, detach: bool)
      returns (ok: bool, ghost moved: Graph, ghost mid: Graph, ghost f: Graph)
      requires Valid() && from in l.g.nodes && from != to && Live(l, to) && (detach ==> ChainContains(l.g, from, to))
      requires detach && CanReplace(l.g, from, to, autoSkip) ==> !LinkFrozen(l.g, from, to)
      requires x.nodes[from] == x.nodes[to]
      modifies this`l, this`x, this`saved
      ensures Valid() && x == old(x)
      ensures ok <==> CanReplace(old(l.g), from, to, autoSkip) && Satisfiable(mid, d, ReachFrom(mid, [from, to]))
      ensures CanReplace(old(l.g), from, to, autoSkip) ==>
        && Moved(old(l.g), moved, Movers(old(l.g), from, to), to) && Acyclic(mid)
        && if detach then Detached(moved, mid, SubchainLink(old(l.g), from, to)) else mid == moved
      ensures ok ==> Settled(mid, f, [from, to])
      ensures ok ==> l.g == if detach then Without(f, {SubchainLink(old(l.g), from, to)}) else f
      ensures !ok ==> Restored(l, old(l))
    {
      ghost var l0, cs := l, [];
      ok, cs, moved := ReplaceAndDetach(from, to, autoSkip, detach);
      mid := l.g;
      if ok { StartIsReached(l.g, to, [from, to]); }
      ok, f := Conclude(ok, [from, to], l0, cs, x);
    }

    /** The checks of bdrv_attach_child_noperm and bdrv_attach_child_common, and the edge they make. */
    method MakeEdge(parent: NodeId, child: NodeId, e: EdgeId, role: Role) returns (ok: bool, made: Edge)
      requires Linked(l.g) && Acyclic(l.g)
      requires parent in l.g.nodes && Derives(l.g.nodes[parent]) && child in l.g.nodes
      ensures ok <==> CanAttach(l.g, d, parent, child, e, role)
      ensures ok ==> made == NewEdge(l.g, d, parent, child, e, role)
    {
      LinkedIsClosed(l.g);
      assert NodeOk(l.g, parent);
      var cum := GetCumulativePerm(l.g, parent);
      made := NewEdgeFor(l.g, d, parent, child, e, role, cum);
      var cycle := RecurseHasChild(l.g, child, parent);
      ok := !cycle && !(l.g.nodes[child].inactive && !l.g.nodes[parent].inactive) &&
        !(l.g.nodes[child].inactive && !(made.perm <= {ConsistentRead}));
    }

    /** The end of bdrv_attach_child_common: the edge `made` now points to the child. */
    method AttachMade(
        parent: NodeId, child: NodeId, e: EdgeId, made: Edge, parentCtx: AioContexts.Ctx, childCtx: AioContexts.Ctx,
        ghost x0: AioContexts.Contexts)
      requires Conserved(l) && Acyclic(l.g) && Possible(l, Attach(e, made, child)) && made.owner == OfNode(parent)
      requires !Reaches(l.g, child, parent) && Meeting(l.g, movable, x0, parent, child, x)
      requires parentCtx == x0.nodes[parent] && childCtx == x0.nodes[child]
      modifies this`l, this`saved
      ensures Open(old(l), [Attach(e, made, child)], l) && Attached(old(l.g), l.g, e, made, child)
      ensures Remembers(l, movable, saved, x0, x) && Placed(l.g, x) && x.nodes[parent] == x.nodes[child]
      ensures forall n :: Live(old(l), n) ==> Live(l, n)
    {
      ghost var l1 := l;
      saved := Some(Saved(|l.log|, parent, child, parentCtx, childCtx));
      l := Do(l, Attach(e, made, child));
      AttachDone(l1, e, made, child, movable, x0, x, l, saved.value);
    }

    /** bdrv_attach_child_noperm and bdrv_attach_child_common, with `e` naming the new edge. */
    method AttachNoperm(parent: NodeId, child: NodeId, e: EdgeId, role: Role) returns (ok: bool, ghost cs: seq<Change>)
      requires Conserved(l) && Acyclic(l.g) && parent in l.g.nodes && Derives(l.g.nodes[parent]) && Live(l, child)
      requires e !in l.g.edges && FreeOnCommit(e) !in l.log && SlotReady(l.g.nodes[parent], role)
      requires Placed(l.g, x) && saved.None?
      modifies this`l, this`x, this`saved
      ensures Open(old(l), cs, l) && Remembers(l, movable, saved, old(x), x)
      ensures ok <==>
        CanAttach(old(l.g), d, parent, child, e, role) && CanMeet(old(l.g), movable, old(x), parent, child)
      ensures !ok ==> l == old(l) && x == old(x) && saved.None?
      ensures ok ==> Attached(old(l.g), l.g, e, NewEdge(old(l.g), d, parent, child, e, role), child)
      ensures ok ==> Placed(l.g, x) && Met(old(l.g), movable, old(x), parent, child, x)
      ensures ok ==> x.nodes[parent] == x.nodes[child]
      ensures forall n :: Live(old(l), n) ==> Live(l, n)
    {
      cs := [];
      ghost var x0 := x;
      var parentCtx, childCtx, made := x.nodes[parent], x.nodes[child], Edge(OfRoot, role, None, {}, {}, false, false);
      ok, made := MakeEdge(parent, child, e, role);
      if !ok { return; }
      ok := Meet(parent, child);
      if !ok { return; }
      AttachMade(parent, child, e, made, parentCtx, childCtx, x0);
      cs := [Attach(e, made, child)];
    }

    /** The edge can be made, and both its ends can be brought into one context. */
    ghost predicate CanBind(
        g: Graph, x: AioContexts.Contexts, parent: NodeId, child: NodeId, e: EdgeId, role: Role)
      requires parent in g.nodes && child in g.nodes && x.nodes.Keys == g.nodes.Keys
    {
      CanAttach(g, d, parent, child, e, role) && CanMeet(g, movable, x, parent, child)
    }

    /** The transaction of bdrv_attach_child. */
    method AttachAndRefresh(parent: NodeId, child: NodeId, e: EdgeId, role: Role) returns (ok: bool, ghost mid: Graph)
      requires Valid() && parent in l.g.nodes && Derives(l.g.nodes[parent]) && Live(l, child)
      requires e !in l.g.edges && SlotReady(l.g.nodes[parent], role)
      modifies this`l, this`x, this`saved
      ensures Valid() && l.held == old(l.held) && l.deleted == old(l.deleted)
      ensures ok <==> CanBind(old(l.g), old(x), parent, child, e, role) && Satisfiable(mid, d, ReachFrom(mid, [parent]))
      ensures CanBind(old(l.g), old(x), parent, child, e, role) ==>
        Attached(old(l.g), mid, e, NewEdge(old(l.g), d, parent, child, e, role), child)
      ensures if ok then Settled(mid, l.g, [parent]) && Met(old(l.g), movable, old(x), parent, child, x)
              else l.g == old(l.g) && x == old(x)
    {
      ghost var l0, x0, cs := l, x, [];
      ok, cs := AttachNoperm(parent, child, e, role);
      mid := l.g;
      if ok {
        AttachedIsReady(l0.g, l.g, e, NewEdge(l0.g, d, parent, child, e, role), child, parent);
        ghost var f;
        ok, f := RefreshAndFinalize([parent], l0, cs, x0);
      }
    }

    /** bdrv_schedule_unref of a node to which the caller holds a reference */
    method HandOverRef(n: NodeId)
      requires Valid() && n in l.held
      modifies this`l
      ensures Valid() && l.g == old(l.g) && l.held == old(l.held) - multiset{n} && l.deleted == old(l.deleted)
    {
      HandOver(l, n);
      l := Schedule(l.(held := l.held - multiset{n}), Some(n));
    }

    /**
    bdrv_attach_child: the caller's reference to `child` goes to the new edge, or is dropped if the edge would close a
    cycle, if its ends cannot share a context or if the permissions cannot be had; then the graph and the contexts are
    as they were.
    */
    method AttachChild(parent: NodeId, child: NodeId, e: EdgeId, role: Role) returns (ok: bool, ghost mid: Graph)
      requires Valid() && parent in l.g.nodes && Derives(l.g.nodes[parent]) && Live(l, child) && child in l.held
      requires e !in l.g.edges && SlotReady(l.g.nodes[parent], role)
      modifies this`l, this`x, this`saved
      ensures Valid() && l.held == old(l.held) - multiset{child} && l.deleted == old(l.deleted)
      ensures ok <==> CanBind(old(l.g), old(x), parent, child, e, role) && Satisfiable(mid, d, ReachFrom(mid, [parent]))
      ensures CanBind(old(l.g), old(x), parent, child, e, role) ==>
        Attached(old(l.g), mid, e, NewEdge(old(l.g), d, parent, child, e, role), child)
      ensures if ok then Settled(mid, l.g, [parent]) && Met(old(l.g), movable, old(x), parent, child, x)
              else l.g == old(l.g) && x == old(x)
    {
      ok, mid := AttachAndRefresh(parent, child, e, role);
      HandOverRef(child);
    }

    /** Node `top` can become the backing child of `bs`. */
    ghost predicate CanBack(g: Graph, x: AioContexts.Contexts, bs: NodeId, top: NodeId, e: EdgeId)
      requires bs in g.nodes && top in g.nodes && x.nodes.Keys == g.nodes.Keys
    {
      CanBind(g, x, bs, top, e, BackingRole(g.nodes[bs].drv))
    }

    ghost predicate CanAppend(g: Graph, x: AioContexts.Contexts, bs: NodeId, top: NodeId, e: EdgeId, joined: Graph)
      requires bs in g.nodes && top in g.nodes && x.nodes.Keys == g.nodes.Keys
    {
      CanBack(g, x, bs, top, e) && top in joined.nodes && CanReplace(joined, top, bs, true)
    }

    /** The second change that bdrv_append makes: the users of `top` become users of `bs`, its parent. */
    method MoveUsers(bs: NodeId, top: NodeId, e: EdgeId, ghost x0: AioContexts.Contexts)
      returns (ok: bool, ghost cs: seq<Change>)
      requires Joined(l, bs, top, e) && Acyclic(l.g)
      requires Placed(l.g, x) && x.nodes[top] == x.nodes[bs] && Remembers(l, movable, saved, x0, x)
      modifies this`l
      ensures Open(old(l), cs, l) && Remembers(l, movable, saved, x0, x)
      ensures ok <==> CanReplace(old(l.g), top, bs, true)
      ensures ok ==> Appended(old(l.g), l.g, bs, top, e) && Placed(l.g, x)
      ensures ok ==> forall n {:trigger Peaceful(l.g, n)} :: n in l.g.nodes && n !in ReachFrom(l.g, [bs]) ==>
        Peaceful(l.g, n)
    {
      ghost var l1 := l;
      ok, cs := ReplaceNodeNoperm(top, bs, true);
      RemembersAfter(l1, cs, l, movable, saved, x0, x);
      if ok {
        AppendedIsPeaceful(l1, cs, l, top, bs, e);
        MovedIsPlaced(l1.g, l.g, top, bs, x);
      }
    }

    /** The first change that bdrv_append makes: `top` becomes the backing child of `bs`. */
    method AttachBacking(bs: NodeId, top: NodeId, e: EdgeId) returns (ok: bool, ghost cs: seq<Change>)
      requires Valid() && Live(l, bs) && Live(l, top) && e !in l.g.edges
      requires Derives(l.g.nodes[bs]) && SlotReady(l.g.nodes[bs], BackingRole(l.g.nodes[bs].drv))
      modifies this`l, this`x, this`saved
      ensures Open(old(l), cs, l) && Remembers(l, movable, saved, old(x), x)
      ensures ok <==> CanBack(old(l.g), old(x), bs, top, e)
      ensures ok ==> BackingAttached(old(l.g), d, bs, top, e, l.g) && Joined(l, bs, top, e)
      ensures ok ==> Placed(l.g, x) && x.nodes[top] == x.nodes[bs] && Met(old(l.g), movable, old(x), bs, top, x)
    {
      ghost var l0 := l;
      ok, cs := AttachNoperm(bs, top, e, BackingRole(l.g.nodes[bs].drv));
      if ok { JoinedIsReady(l0, cs, l, d, bs, top, e); }
    }

    /** The two changes that bdrv_append makes; `joined` is the graph between them. */
    method AppendNoperm(
        bs: NodeId, top: NodeId, e: EdgeId) returns (ok: bool, ghost cs: seq<Change>, ghost joined: Graph)
      requires Valid() && Live(l, bs) && Live(l, top) && e !in l.g.edges
      requires Derives(l.g.nodes[bs]) && SlotReady(l.g.nodes[bs], BackingRole(l.g.nodes[bs].drv))
      modifies this`l, this`x, this`saved
      ensures Open(old(l), cs, l) && Remembers(l, movable, saved, old(x), x)
      ensures CanBack(old(l.g), old(x), bs, top, e) ==> BackingAttached(old(l.g), d, bs, top, e, joined)
      ensures ok <==> CanAppend(old(l.g), old(x), bs, top, e, joined)
      ensures ok ==> Appended(joined, l.g, bs, top, e)
      ensures ok ==> Placed(l.g, x) && Met(old(l.g), movable, old(x), bs, top, x)
      ensures ok ==> forall n {:trigger Peaceful(l.g, n)} :: n in l.g.nodes && n !in ReachFrom(l.g, [bs]) ==>
        Peaceful(l.g, n)
    {
      ghost var l0, x0 := l, x;
      ok, cs := AttachBacking(bs, top, e);
      joined := l.g;
      if !ok {
        return;
      }
      ghost var l1, more := l, [];
      ok, more := MoveUsers(bs, top, e, x0);
      AfterBoth(l0, cs, l1, more, l);
      cs := cs + more;
    }

    /**
    bdrv_append: `top` becomes the backing child of `bs`, and the users of `top` become users of `bs`, except
    those that must stay and those below `bs`; or nothing has changed.
    */
    method Append(bs: NodeId, top: NodeId, e: EdgeId) returns (ok: bool, ghost joined: Graph, ghost mid: Graph)
      requires Valid() && Live(l, bs) && Live(l, top) && e !in l.g.edges
      requires Derives(l.g.nodes[bs]) && l.g.nodes[bs].backing.None?
      requires SlotReady(l.g.nodes[bs], BackingRole(l.g.nodes[bs].drv))
      modifies this`l, this`x, this`saved
      ensures Valid() && l.held == old(l.held) && l.deleted == old(l.deleted)
      ensures CanBack(old(l.g), old(x), bs, top, e) ==> BackingAttached(old(l.g), d, bs, top, e, joined)
      ensures ok <==> CanAppend(old(l.g), old(x), bs, top, e, joined) && Satisfiable(mid, d, ReachFrom(mid, [bs]))
      ensures CanAppend(old(l.g), old(x), bs, top, e, joined) ==> Appended(joined, mid, bs, top, e)
      ensures if ok then Settled(mid, l.g, [bs]) && Met(old(l.g), movable, old(x), bs, top, x)
              else Restored(l, old(l)) && x == old(x)
    {
      ghost var l0, x0, cs := l, x, [];
      ok, cs, joined := AppendNoperm(bs, top, e);
      mid := l.g;
      ghost var f;
      ok, f := Conclude(ok, [bs], l0, cs, x0);
    }

    /** The first half of bdrv_set_file_or_backing_noperm for a backing link: its checks, and removing the old child. */
    method Unlink(bs: NodeId) returns (ok: bool, ghost cs: seq<Change>)
      requires Valid() && bs in l.g.nodes
      modifies this`l
      ensures After(old(l), cs, l) && Conserved(l) && Acyclic(l.g) && AllPeaceful(l.g)
      ensures ok <==> CanUnlink(old(l.g), bs)
      ensures ok ==> Unlinked(old(l.g), bs, l.g) && RemovedBy(cs) == LinkEdges(old(l.g).nodes[bs].backing)
      ensures forall x :: FreeOnCommit(x) in l.log ==> x in old(l.g).edges
      ensures l.refs == old(l.refs) && l.scheduled == old(l.scheduled)
    {
      cs := [];
      var node := l.g.nodes[bs];
      if node.backing.Some? { BackingIsEdge(l.g, bs); }
      if node.drv.None? { return false, cs; }
      if node.backing.Some? && l.g.edges[node.backing.value].frozen { return false, cs; }
      if !node.drv.value.isFilter && !node.drv.value.supportsBacking { return false, cs; }
      ok := true;
      if node.backing.Some? {
        UnlinkStep(l, node.backing.value);
        RemoveIs(l, node.backing.value);
        cs := [Remove(node.backing.value)];
        l := Do(l, Remove(node.backing.value));
      }
    }

    /** bdrv_set_file_or_backing_noperm for a backing link; `detached` is the graph without the old one. */
    method SetBackingNoperm(bs: NodeId, backing: Option<NodeId>, e: EdgeId)
      returns (ok: bool, ghost cs: seq<Change>, ghost detached: Graph)
      requires Valid() && bs in l.g.nodes && e !in l.g.edges
      requires backing.Some? ==> Live(l, backing.value) && (l.g.nodes[bs].drv.Some? ==> CanHaveBacking(l.g.nodes[bs]))
      modifies this`l, this`x, this`saved
      ensures After(old(l), cs, l) && Acyclic(l.g) && Remembers(l, movable, saved, old(x), x)
      ensures CanUnlink(old(l.g), bs) ==> Unlinked(old(l.g), bs, detached)
      ensures ok <==> CanUnlink(old(l.g), bs) && CanRelink(detached, old(x), bs, backing, e)
      ensures ok ==> Placed(l.g, x) && Relocated(detached, old(x), bs, backing, x)
      ensures ok ==>
        Relinking(detached, d, bs, backing, e, l.g) && RemovedBy(cs) == LinkEdges(old(l.g).nodes[bs].backing)
      ensures ok ==> bs in l.g.nodes
      ensures ok ==> forall n {:trigger Peaceful(l.g, n)} :: n in l.g.nodes && n !in ReachFrom(l.g, [bs]) ==>
        Peaceful(l.g, n)
    {
      ghost var l0 := l;
      ok, cs := Unlink(bs);
      detached := l.g;
      if !ok {
        return;
      }
      UnlinkedIsPlaced(l0.g, bs, l.g, x);
      if backing.None? {
        return;
      }
      UnlinkedIsReady(l0.g, bs, l.g);
      ghost var l1, made, more := l, NewEdge(l.g, d, bs, backing.value, e, BackingRole(l.g.nodes[bs].drv)), [];
      ok, more := AttachNoperm(bs, backing.value, e, BackingRole(l.g.nodes[bs].drv));
      if ok {
        AttachedIsPeaceful(l1.g, l.g, e, made, backing.value);
        AttachedChild(l1.g, l.g, e, made, backing.value);
      }
      AfterMore(l0, cs, l1, more, l);
      cs := cs + more;
    }

    /**
    bdrv_set_backing_hd: the backing link of `bs` leads to the new backing node, or nowhere, and everything
    below `bs` has permissions that fit; or nothing has changed.
    */
    method SetBacking(bs: NodeId, backing: Option<NodeId>, e: EdgeId)
      returns (ok: bool, ghost detached: Graph, ghost mid: Graph, ghost f: Graph)
      requires Valid() && bs in l.g.nodes && e !in l.g.edges
      requires backing.Some? ==> Live(l, backing.value) && (l.g.nodes[bs].drv.Some? ==> CanHaveBacking(l.g.nodes[bs]))
      modifies this`l, this`x, this`saved
      ensures Valid()
      ensures
        var can := CanUnlink(old(l.g), bs) && CanRelink(detached, old(x), bs, backing, e);
        && (CanUnlink(old(l.g), bs) ==> Unlinked(old(l.g), bs, detached))
        && (ok <==> can && Satisfiable(mid, d, ReachFrom(mid, [bs])))
        && (can ==> Relinking(detached, d, bs, backing, e, mid))
      ensures if ok then Settled(mid, f, [bs]) && l.g == Without(f, LinkEdges(old(l.g).nodes[bs].backing))
              else Restored(l, old(l))
      ensures if ok then Relocated(detached, old(x), bs, backing, x) else x == old(x)
    {
      ghost var l0, x0, cs := l, x, [];
      ok, cs, detached := SetBackingNoperm(bs, backing, e);
      mid := l.g;
      ok, f := Conclude(ok, [bs], l0, cs, x0);
    }

    ghost predicate CanRelink(g: Graph, x: AioContexts.Contexts, n: NodeId, backing: Option<NodeId>, e: EdgeId) {
      n in g.nodes && x.nodes.Keys == g.nodes.Keys &&
        (backing.Some? ==> backing.value in g.nodes && CanBack(g, x, n, backing.value, e))
    }

    /** Both ends of the new backing link, if any, have been brought into one context. */
    ghost predicate Relocated(
        g: Graph, x: AioContexts.Contexts, n: NodeId, backing: Option<NodeId>, x2: AioContexts.Contexts) {
      if backing.Some? then n in x.nodes && backing.value in x.nodes && Met(g, movable, x, n, backing.value, x2)
      else x2 == x
    }

    /** bdrv_refresh_perms in a transaction of its own, whose failure is ignored */
    method RefreshAlone(n: NodeId)
      requires Valid() && n in l.g.nodes
      modifies this`l, this`x, this`saved
      ensures Valid() && l.held == old(l.held) && l.deleted == old(l.deleted) && x == old(x) && n in l.g.nodes
      ensures DroppedAndSettled(old(l.g), l.g, n)
    {
      ghost var f, ok;
      ok, f := RefreshAndFinalize([n], l, [], x);
    }

    /** bdrv_replace_child_noperm and bdrv_child_free; for now the reference of the edge is the caller's. */
    method DropEdge(e: EdgeId)
      requires Valid() && CanRepoint(l.g, e, None)
      modifies this`l
      ensures Valid() && l == Dropped(old(l), e) && old(l.g).edges[e].bs.value in l.g.nodes
    {
      ghost var l1 := l;
      l := Dropped(l, e);
      DropDone(l1, e, x, l);
    }

    /** bdrv_root_unref_child up to the unref: until that is scheduled, the reference of the edge is the caller's. */
    method DropEdgeAndRefresh(e: EdgeId)
      requires Valid() && CanRepoint(l.g, e, None)
      modifies this`l, this`x, this`saved
      ensures Valid() && l.deleted == old(l.deleted) && x == old(x)
      ensures
        var n := old(l.g).edges[e].bs.value;
        && n in l.g.nodes && l.held == old(l.held) + multiset{n}
        && DroppedAndSettled(FreeEdge(Repoint(old(l.g), e, None), e), l.g, n)
    {
      var n := l.g.edges[e].bs;
      DropEdge(e);
      RefreshAlone(n.value);
    }

    /** The permissions below `n` are settled if they can be; otherwise they are as they were. */
    ghost predicate DroppedAndSettled(g: Graph, g2: Graph, n: NodeId) {
      if Satisfiable(g, d, ReachFrom(g, [n])) then Settled(g, g2, [n]) else g2 == g
    }

    /** Node `n` is in the main context with all that has to move with it, unless one of the users does not accept. */
    ghost predicate SentHome(g: Graph, x: AioContexts.Contexts, n: NodeId, x2: AioContexts.Contexts) {
      if CanShift(g, movable, x, n, main) then Shifted(g, movable, x, n, main, x2) else x2 == x
    }

    method MoveHome(n: NodeId)
      requires Valid() && n in l.g.nodes
      modifies this`x
      ensures Valid() && SentHome(l.g, old(x), n, x)
    {
      var ok := TryMove(n, main);
    }

    /** bdrv_root_unref_child without the unref */
    method DropAndMoveHome(e: EdgeId)
      requires Valid() && CanRepoint(l.g, e, None)
      modifies this`l, this`x, this`saved
      ensures Valid() && l.deleted == old(l.deleted)
      ensures
        var n := old(l.g).edges[e].bs.value;
        && l.held == old(l.held) + multiset{n} && SentHome(l.g, old(x), n, x)
        && DroppedAndSettled(FreeEdge(Repoint(old(l.g), e, None), e), l.g, n)
    {
      var n := l.g.edges[e].bs;
      DropEdgeAndRefresh(e);
      MoveHome(n.value);
    }

    /**
    bdrv_root_unref_child: the edge is gone, whether or not its node's permissions could be refreshed; the node
    moves back to the main context if all users of what moves with it accept that; the reference it held is dropped
    later.
    */
    method RootUnrefChild(e: EdgeId)
      requires Valid() && CanRepoint(l.g, e, None)
      modifies this`l, this`x, this`saved
      ensures Valid() && l.held == old(l.held) && l.deleted == old(l.deleted)
      ensures DroppedAndSettled(FreeEdge(Repoint(old(l.g), e, None), e), l.g, old(l.g).edges[e].bs.value)
      ensures SentHome(l.g, old(x), old(l.g).edges[e].bs.value, x)
    {
      var n := l.g.edges[e].bs;
      DropAndMoveHome(e);
      HandOverRef(n.value);
    }
  }

  lemma UnlinkedIsReady(g: Graph, n: NodeId, g2: Graph)
    requires n in g.nodes && Unlinked(g, n, g2) && CanHaveBacking(g.nodes[n]) && NodeOk(g, n)
    ensures n in g2.nodes && Derives(g2.nodes[n])
    ensures SlotReady(g2.nodes[n], BackingRole(g2.nodes[n].drv)) && g2.edges.Keys == g.edges.Keys
  {
    if g.nodes[n].backing.Some? {
      var c := g.nodes[n].backing.value;
      assert c in EdgesFrom(g, n);
      assert g2.nodes[n] == Relinked(g.nodes[n], n, c, g.edges[c], None);
    }
  }

  lemma AfterMore(l0: Layer, cs: seq<Change>, l1: Layer, more: seq<Change>, l: Layer)
    requires After(l0, cs, l1) && After(l1, more, l) && RemovedBy(more) == {}
    ensures After(l0, cs + more, l) && RemovedBy(cs + more) == RemovedBy(cs)
  {
    AfterChain(l0, cs, l1, more, l);
    assert forall x :: x in more && x.Remove? ==> x.edge in RemovedBy(more);
    forall y ensures y in RemovedBy(cs + more) <==> y in RemovedBy(cs) {
      if y in RemovedBy(cs) {
        var x :| x in cs && x.Remove? && x.edge == y;
        assert x in cs + more;
      }
    }
  }

  /** The layer between the removal of an edge and the unref it schedules. */
  function Dropped(l: Layer, e: EdgeId): Layer
    requires e in l.g.edges && l.g.edges[e].bs.Some?
  {
    l.(g := FreeEdge(Repoint(l.g, e, None), e), held := l.held + multiset{l.g.edges[e].bs.value})
  }

  lemma DroppedIsCounted(l: Layer, e: EdgeId, n: NodeId)
    requires Linked(l.g) && n in l.g.nodes && n in l.refs && Counted(l, n) && CanRepoint(l.g, e, None)
    ensures Counted(Dropped(l, e), n)
  {
    var l1, was := Dropped(l, e), l.g.edges[e].bs == Some(n);
    assert |l1.g.nodes[n].parents| == |l.g.nodes[n].parents| - (if was then 1 else 0) by {
      RepointParents(l.g, e, None, n);
    }
    assert l1.held[n] == l.held[n] + (if was then 1 else 0);
  }

  lemma DroppedIsConserved(l: Layer, e: EdgeId)
    requires Conserved(l) && l.log == [] && CanRepoint(l.g, e, None)
    ensures Conserved(Dropped(l, e))
  {
    DropEdgeLinked(l.g, e);
    forall n | n in l.g.nodes
      ensures Counted(Dropped(l, e), n)
    {
      assert Counted(l, n);
      DroppedIsCounted(l, e, n);
    }
  }

  lemma UnrefStep(l: Layer, e: EdgeId)
    requires Quiet(l) && CanRepoint(l.g, e, None)
    ensures l.g.edges[e].bs.value in Dropped(l, e).g.nodes && Quiet(Dropped(l, e))
  {
    assert EdgeOk(l.g, e);
    DroppedIsConserved(l, e);
    DetachKeepsAcyclic(l.g, e);
    FewerEdgesKeepAcyclic(Repoint(l.g, e, None), Dropped(l, e).g);
    UnrefIsPeaceful(l.g, e);
  }

  lemma UnrefIsPeaceful(g: Graph, e: EdgeId)
    requires AllPeaceful(g) && e in g.edges
    ensures AllPeaceful(FreeEdge(Repoint(g, e, None), e))
  {
    var g2 := FreeEdge(Repoint(g, e, None), e);
    forall n | n in g2.nodes
      ensures Peaceful(g2, n)
    {
      FewerUsersKeepPeace(g, g2, n);
    }
  }

  ghost predicate BackingAttached(g: Graph, d: Drivers, bs: NodeId, top: NodeId, e: EdgeId, joined: Graph)
    requires bs in g.nodes && top in g.nodes
  {
    Attached(g, joined, e, NewEdge(g, d, bs, top, e, BackingRole(g.nodes[bs].drv)), top)
  }

  /**
  `mid` is `joined` with the users of `top` that may move on `bs`; the edge `e` from `bs` to `top` is not among them.
  */
  ghost predicate Appended(joined: Graph, mid: Graph, bs: NodeId, top: NodeId, e: EdgeId)
  {
    && top in joined.nodes && Moved(joined, mid, Movers(joined, top, bs), bs) && Acyclic(mid) && bs in mid.nodes
    && e in mid.edges && mid.edges[e].owner == OfNode(bs) && mid.edges[e].bs == Some(top)
  }

  lemma AttachedIsReady(g: Graph, g2: Graph, e: EdgeId, made: Edge, child: NodeId, parent: NodeId)
    requires Linked(g) && AllPeaceful(g) && e !in g.edges && child in g.nodes && parent in g.nodes
    requires Attached(g, g2, e, made, child) && made.owner == OfNode(parent)
    ensures parent in g2.nodes
    ensures forall n {:trigger Peaceful(g2, n)} :: n in g2.nodes && n !in ReachFrom(g2, [parent]) ==> Peaceful(g2, n)
  {
    AttachedIsPeaceful(g, g2, e, made, child);
    AttachedChild(g, g2, e, made, child);
  }

  /** Node `top` is a child of `bs` by edge `e`, and only its users can be in conflict. */
  ghost predicate Joined(l: Layer, bs: NodeId, top: NodeId, e: EdgeId) {
    && Conserved(l) && top in l.g.nodes && bs in l.g.nodes && top != bs && Live(l, bs)
    && e in l.g.edges && e in l.g.nodes[bs].children
    && l.g.edges[e].bs == Some(top) && l.g.edges[e].owner == OfNode(bs)
    && forall n :: n in l.g.nodes && n != top ==> Peaceful(l.g, n)
  }

  /** After the attach in bdrv_append the users of `top` can move to `bs`. */
  lemma JoinedIsReady(l0: Layer, cs: seq<Change>, l: Layer, d: Drivers, bs: NodeId, top: NodeId, e: EdgeId)
    requires Quiet(l0) && Open(l0, cs, l) && bs in l0.g.nodes && top in l0.g.nodes && e !in l0.g.edges
    requires BackingAttached(l0.g, d, bs, top, e, l.g) && !Reaches(l0.g, top, bs) && Live(l, bs)
    ensures Joined(l, bs, top, e)
  {
    var made := NewEdge(l0.g, d, bs, top, e, BackingRole(l0.g.nodes[bs].drv));
    ChangesConserve(l0, cs);
    AttachedIsPeaceful(l0.g, l.g, e, made, top);
    AttachedChild(l0.g, l.g, e, made, top);
    ReachesSelf(l0.g, bs);
  }

  lemma AfterBoth(l0: Layer, cs: seq<Change>, l1: Layer, more: seq<Change>, l: Layer)
    requires After(l0, cs, l1) && RemovedBy(cs) == {} && After(l1, more, l) && RemovedBy(more) == {}
    ensures After(l0, cs + more, l) && RemovedBy(cs + more) == {}
  {
    AfterChain(l0, cs, l1, more, l);
    assert forall x :: x in cs && x.Remove? ==> x.edge in RemovedBy(cs);
    assert forall x :: x in more && x.Remove? ==> x.edge in RemovedBy(more);
  }

  lemma AttachStep(l: Layer, e: EdgeId, made: Edge, child: NodeId)
    requires Conserved(l) && Acyclic(l.g) && Possible(l, Attach(e, made, child))
    requires made.owner.OfNode? && !Reaches(l.g, child, made.owner.node)
    ensures
      var c := Attach(e, made, child);
      var l2 := Do(l, c);
      && Open(l, [c], l2) && Attached(l.g, l2.g, e, made, child)
      && (forall n :: Live(l, n) ==> Live(l2, n))
  {
    AfterOne(l, Attach(e, made, child));
    AttachIs(l, e, made, child);
    AttachKeepsAcyclic(l.g, e, made, child);
    forall n | Live(l, n)
      ensures Live(Do(l, Attach(e, made, child)), n)
    {
      AttachKeepsLive(l, Attach(e, made, child), n);
    }
  }

  lemma AttachKeepsLive(l: Layer, c: Change, n: NodeId)
    requires c.Attach? && Possible(l, c) && Live(l, n)
    ensures Live(Do(l, c), n)
  {
  }

  lemma AppendedIsPeaceful(l1: Layer, cs: seq<Change>, l: Layer, top: NodeId, bs: NodeId, e: EdgeId)
    requires Conserved(l1) && After(l1, cs, l) && top in l1.g.nodes && bs in l1.g.nodes
    requires Moved(l1.g, l.g, Movers(l1.g, top, bs), bs)
    requires forall n :: n in l1.g.nodes && n != top ==> Peaceful(l1.g, n)
    requires e in l1.g.edges && e in l1.g.nodes[bs].children
    requires l1.g.edges[e].bs == Some(top) && l1.g.edges[e].owner == OfNode(bs)
    ensures e in l.g.edges && l.g.edges[e] == l1.g.edges[e] && bs in l.g.nodes
    ensures forall n {:trigger Peaceful(l.g, n)} :: n in l.g.nodes && n !in ReachFrom(l.g, [bs]) ==> Peaceful(l.g, n)
  {
    ChangesConserve(l1, cs);
    NewEdgeStays(l1.g, l.g, top, bs, e);
    AppendIsPeaceful(l1.g, l.g, top, bs);
  }

  /** A reference that a user gives up becomes a scheduled unref. */
  lemma HandOver(l: Layer, n: NodeId)
    requires Quiet(l) && n in l.held
    ensures Quiet(Schedule(l.(held := l.held - multiset{n}), Some(n)))
  {
    var l2 := Schedule(l.(held := l.held - multiset{n}), Some(n));
    forall m | m in l2.g.nodes
      ensures Counted(l2, m)
    {
      assert Counted(l, m);
    }
  }

  /** No users are in conflict, except perhaps those of `to`. */
  ghost predicate PeacefulBut(g: Graph, to: NodeId) {
    forall n {:trigger Peaceful(g, n)} :: n in g.nodes && n != to ==> Peaceful(g, n)
  }

  lemma MovedIsPeaceful(l0: Layer, cs: seq<Change>, l: Layer, from: NodeId, to: NodeId)
    requires Conserved(l0) && AllPeaceful(l0.g) && After(l0, cs, l)
    requires from in l0.g.nodes && Moved(l0.g, l.g, Movers(l0.g, from, to), to)
    ensures PeacefulBut(l.g, to)
  {
    ChangesConserve(l0, cs);
    forall n | n in l.g.nodes && n != to
      ensures Peaceful(l.g, n)
    {
      MovedKeepsPeace(l0.g, l.g, Movers(l0.g, from, to), to, n);
    }
  }

  // ---------------------------------------------------------------------------------------------
  // Detaching a subchain

  /** The link of the chain of `from` to `to` is frozen. */
  ghost predicate LinkFrozen(g: Graph, from: NodeId, to: NodeId)
    requires ChainContains(g, from, to) && from != to
  {
    var e := SubchainLink(g, from, to);
    e in g.edges && g.edges[e].frozen
  }

  /** Parents that move stay hooked into the nodes that hold them. */
  lemma MovedKeepsLinks(g: Graph, g2: Graph, moved: set<EdgeId>, to: NodeId, n: NodeId)
    requires Linked(g) && Linked(g2) && Moved(g, g2, moved, to) && n in g.nodes
    requires forall e :: e in moved && e in g.edges ==> g.edges[e].bs.Some?
    ensures ChainChild(g2.nodes[n]) == ChainChild(g.nodes[n])
  {
    assert NodeOk(g, n) && NodeOk(g2, n) && SameNode(g2.nodes[n], g.nodes[n]);
    assert EdgesFrom(g2, n) == EdgesFrom(g, n);
    assert g2.nodes[n].file == g.nodes[n].file;
    assert g2.nodes[n].backing == g.nodes[n].backing;
  }

  lemma ChainLinkStays(l0: Layer, cs: seq<Change>, l: Layer, from: NodeId, to: NodeId, p: NodeId)
    requires Conserved(l0) && After(l0, cs, l) && from in l0.g.nodes && from != to
    requires Moved(l0.g, l.g, Movers(l0.g, from, to), to) && CowParent(l0.g, from, to, p)
    ensures p in l.g.nodes && ChainChild(l.g.nodes[p]) == ChainChild(l0.g.nodes[p])
    ensures
      var e := ChainChild(l0.g.nodes[p]).value;
      e in l0.g.edges && e in l.g.edges && l.g.edges[e] == l0.g.edges[e] && l.g.edges[e].bs == Some(to)
  {
    ChangesConserve(l0, cs);
    assert NodeOk(l0.g, from);
    MovedKeepsLinks(l0.g, l.g, Movers(l0.g, from, to), to, p);
  }

  lemma DetachStep(l0: Layer, cs: seq<Change>, l: Layer, e: EdgeId, to: NodeId)
    requires Quiet(l0) && Open(l0, cs, l) && e in l.g.edges && l.g.edges[e].bs.Some? && !l.g.edges[e].frozen
    requires PeacefulBut(l.g, to)
    ensures
      && Possible(l, Remove(e)) && RemovedBy(cs + [Remove(e)]) == {e}
      && var l2 := Do(l, Remove(e));
         After(l0, cs + [Remove(e)], l2) && Acyclic(l2.g) && PeacefulBut(l2.g, to) && Detached(l.g, l2.g, e)
  {
    ChangesConserve(l0, cs);
    RemovedOne(l0, cs, l, e);
    AfterAppend(l0, cs, l, Remove(e));
    RemoveIs(l, e);
    DetachKeepsAcyclic(l.g, e);
    RepointDetaches(l.g, e);
    forall n | n in Repoint(l.g, e, None).nodes && n != to
      ensures Peaceful(Repoint(l.g, e, None), n)
    {
      DetachKeepsPeace(l.g, Repoint(l.g, e, None), e, n);
    }
  }

  lemma RemovedOne(l0: Layer, cs: seq<Change>, l: Layer, e: EdgeId)
    requires l0.log == [] && After(l0, cs, l) && RemovedBy(cs) == {}
    ensures FreeOnCommit(e) !in l.log && RemovedBy(cs + [Remove(e)]) == {e}
  {
    assert forall x :: x in cs && x.Remove? ==> x.edge in RemovedBy(cs);
    if FreeOnCommit(e) in l.log {
      FreedAreRemoved(l0, cs, e);
    }
    assert Remove(e) in cs + [Remove(e)];
  }

  /** The parents of `from` outside `rest` have been dealt with, and those of them that move are `moved`. */
  ghost predicate Replaced(g: Graph, from: NodeId, to: NodeId, autoSkip: bool, rest: set<EdgeId>, moved: set<EdgeId>)
    requires from in g.nodes
  {
    && rest <= g.nodes[from].parents && moved == Movers(g, from, to) - rest
    && forall c :: c in g.nodes[from].parents && c !in rest && c in g.edges ==>
      if Moves(g, c, to) then !g.edges[c].frozen else autoSkip
  }

  lemma NoneReplaced(g: Graph, from: NodeId, to: NodeId, autoSkip: bool)
    requires from in g.nodes
    ensures Replaced(g, from, to, autoSkip, g.nodes[from].parents, {}) && Redirected(g, g, {}, to)
  {
  }

  lemma NextReplaced(
      g: Graph, from: NodeId, to: NodeId, autoSkip: bool, rest: set<EdgeId>, moved: set<EdgeId>, c: EdgeId)
    requires Linked(g) && from in g.nodes && Replaced(g, from, to, autoSkip, rest, moved) && c in rest
    ensures c in g.edges && g.edges[c].bs == Some(from) && c !in moved
    ensures if Moves(g, c, to) then
        if g.edges[c].frozen then !CanReplace(g, from, to, autoSkip)
        else Replaced(g, from, to, autoSkip, rest - {c}, moved + {c})
      else if !autoSkip then !CanReplace(g, from, to, autoSkip)
      else Replaced(g, from, to, autoSkip, rest - {c}, moved)
  {
    assert NodeOk(g, from);
    TakeOut(Movers(g, from, to), rest, c);
  }

  lemma AllReplaced(g: Graph, from: NodeId, to: NodeId, autoSkip: bool, moved: set<EdgeId>)
    requires from in g.nodes && Replaced(g, from, to, autoSkip, {}, moved)
    ensures CanReplace(g, from, to, autoSkip) && moved == Movers(g, from, to)
  {
  }

  /** The changes `cs` of an open transaction have removed no edge and made no cycle. */
  ghost predicate Open(l0: Layer, cs: seq<Change>, l: Layer) {
    After(l0, cs, l) && RemovedBy(cs) == {} && Acyclic(l.g)
  }

  /** The edges of `moved` point to `to`, and nothing below `to` has changed. */
  ghost predicate Redirected(g0: Graph, g: Graph, moved: set<EdgeId>, to: NodeId) {
    SameBelow(g0, g, to) && Moved(g0, g, moved, to)
  }

  lemma ReplaceStep(l0: Layer, cs: seq<Change>, l: Layer, to: NodeId, c: EdgeId)
    requires Conserved(l0) && Open(l0, cs, l) && Live(l, to) && c in l.g.edges
    requires l.g.edges[c].bs.Some? && l.g.edges[c].bs != Some(to) && !l.g.edges[c].frozen && !EdgeBelow(l.g, to, c)
    ensures Possible(l, Replace(c, Some(to)))
    ensures
      var l2 := Do(l, Replace(c, Some(to)));
      Open(l0, cs + [Replace(c, Some(to))], l2) && Live(l2, to)
  {
    ChangesConserve(l0, cs);
    AfterReplace(l0, cs, l, to, c);
    RedirectKeepsAcyclic(l.g, c, to);
  }

  /** The parents not dealt with yet look as they did before the replacement began. */
  lemma LooksTheSame(l0: Layer, cs: seq<Change>, l: Layer, moved: set<EdgeId>, to: NodeId, c: EdgeId)
    requires Conserved(l0) && After(l0, cs, l) && Redirected(l0.g, l.g, moved, to) && c in l0.g.edges && c !in moved
    ensures Closed(l.g) && c in l.g.edges && l.g.edges[c] == l0.g.edges[c]
    ensures Moves(l.g, c, to) <==> Moves(l0.g, c, to)
  {
    ChangesConserve(l0, cs);
    LinkedIsClosed(l.g);
    SameBelowSameEdges(l0.g, l.g, to, c);
  }

  lemma ReplaceAndRedirect(l0: Layer, cs: seq<Change>, l: Layer, moved: set<EdgeId>, to: NodeId, c: EdgeId)
    requires Conserved(l0) && Open(l0, cs, l) && Live(l, to) && Redirected(l0.g, l.g, moved, to) && c in l.g.edges
    requires l.g.edges[c].bs.Some? && l.g.edges[c].bs != Some(to) && !l.g.edges[c].frozen && Moves(l.g, c, to)
    ensures Possible(l, Replace(c, Some(to)))
    ensures
      var l2 := Do(l, Replace(c, Some(to)));
      Open(l0, cs + [Replace(c, Some(to))], l2) && Live(l2, to) && Redirected(l0.g, l2.g, moved + {c}, to)
  {
    ReplaceStep(l0, cs, l, to, c);
    ChangesConserve(l0, cs);
    RedirectStep(l0.g, l.g, moved, to, c);
  }

  lemma AfterReplace(l0: Layer, cs: seq<Change>, l: Layer, to: NodeId, c: EdgeId)
    requires After(l0, cs, l) && RemovedBy(cs) == {} && Possible(l, Replace(c, Some(to)))
    ensures After(l0, cs + [Replace(c, Some(to))], Do(l, Replace(c, Some(to))))
    ensures RemovedBy(cs + [Replace(c, Some(to))]) == {}
  {
    AfterAppend(l0, cs, l, Replace(c, Some(to)));
  }

  /** Going through a set one element at a time. */
  lemma TakeOut<T>(s: set<T>, rest: set<T>, x: T)
    requires x in rest
    ensures x in s ==> s - (rest - {x}) == s - rest + {x}
    ensures x !in s ==> s - (rest - {x}) == s - rest
  {
  }

  lemma RedirectStep(g0: Graph, g: Graph, moved: set<EdgeId>, to: NodeId, c: EdgeId)
    requires Linked(g) && CanRepoint(g, c, Some(to)) && g.edges[c].bs.Some? && !EdgeBelow(g, to, c)
    requires Redirected(g0, g, moved, to)
    ensures Redirected(g0, Repoint(g, c, Some(to)), moved + {c}, to)
  {
    RedirectKeepsBelow(g, c, to);
    SameBelowTransitive(g0, g, Repoint(g, c, Some(to)), to);
    MoveOne(g0, g, moved, c, to);
  }

  lemma MoveOne(g: Graph, g1: Graph, moved: set<EdgeId>, c: EdgeId, to: NodeId)
    requires Moved(g, g1, moved, to) && c in g1.edges
    ensures Moved(g, Repoint(g1, c, Some(to)), moved + {c}, to)
  {
    RepointSameNodes(g, g1, c, Some(to));
  }

  lemma RepointSameNodes(g: Graph, g1: Graph, c: EdgeId, to: Option<NodeId>)
    requires SameNodes(g, g1) && c in g1.edges
    ensures SameNodes(g, Repoint(g1, c, to))
  {
    forall n | n in g.nodes
      ensures SameNode(Repoint(g1, c, to).nodes[n], g.nodes[n])
    {
      assert SameNode(g1.nodes[n], g.nodes[n]);
    }
  }
}
