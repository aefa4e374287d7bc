/** Operations on the block graph: each a transaction of changes followed by a refresh of permissions. */
module GraphOperations {
  import opened BlockGraph
  import opened Topology
  import opened GraphChanges
  import opened Permissions
  import opened Transactions

  // ---------------------------------------------------------------------------------------------
  // Moving an edge and reachability

  /** Moving edge `c` to node `t` adds no edge between nodes other than one from its holder to `t`. */
  lemma RepointChildren(g: Graph, c: EdgeId, t: Option<NodeId>, a: NodeId, b: NodeId)
    requires Linked(g) && CanRepoint(g, c, t) && HasChild(Repoint(g, c, t), a, b)
    ensures HasChild(g, a, b) || (g.edges[c].owner == OfNode(a) && t == Some(b))
  {
    var g2 := Repoint(g, c, t);
    var e :| e in g2.nodes[a].children && e in g2.edges && g2.edges[e].bs == Some(b);
    assert NodeOk(g, a);
    if e != c { assert e in g.nodes[a].children; }
  }

  /** A node that does not hold edge `c` keeps its children when `c` moves. */
  lemma RepointKeepsChildren(g: Graph, c: EdgeId, t: Option<NodeId>, a: NodeId)
    requires Linked(g) && CanRepoint(g, c, t) && a in g.nodes
    requires c !in g.nodes[a].children && g.edges[c].owner != OfNode(a)
    ensures Repoint(g, c, t).nodes[a].children == g.nodes[a].children
    ensures forall b :: HasChild(Repoint(g, c, t), a, b) <==> HasChild(g, a, b)
  {
  }

  /** If the nodes reachable from `a` keep their children, the same nodes are reachable from it. */
  lemma {:induction false} PathStays(g: Graph, g2: Graph, p: seq<NodeId>, a: NodeId, v: NodeId)
    requires g2.nodes.Keys == g.nodes.Keys && IsPath(g, p, a, v)
    requires forall x, b :: Reaches(g, a, x) && HasChild(g, x, b) ==> HasChild(g2, x, b)
    ensures IsPath(g2, p, a, v)
  {
    forall i | 0 <= i < |p| - 1
      ensures HasChild(g2, p[i], p[i + 1])
    {
      assert IsPath(g, p[..i + 1], a, p[i]);
    }
  }

  lemma {:induction false} PathWas(g: Graph, g2: Graph, p: seq<NodeId>, a: NodeId, v: NodeId)
    requires g2.nodes.Keys == g.nodes.Keys && IsPath(g2, p, a, v)
    requires forall x, b :: Reaches(g, a, x) && HasChild(g2, x, b) ==> HasChild(g, x, b)
    ensures Reaches(g, a, v)
    decreases |p|
  {
    if |p| == 1 {
      ReachesSelf(g, a);
    } else {
      var q, x := p[..|p| - 1], p[|p| - 2];
      assert IsPath(g2, q, a, x);
      PathWas(g, g2, q, a, x);
      assert HasChild(g2, p[|p| - 2], p[|p| - 2 + 1]);
      ReachesChild(g, x, v);
      ReachesTransitive(g, a, x, v);
    }
  }

  /** The subgraph below `to` is the same in both graphs. */
  ghost predicate SameBelow(g: Graph, g2: Graph, to: NodeId) {
    && g2.nodes.Keys == g.nodes.Keys
    && (forall v :: Reaches(g2, to, v) <==> Reaches(g, to, v))
    && (forall v :: v in g.nodes && Reaches(g, to, v) ==> g2.nodes[v].children == g.nodes[v].children)
  }

  /** No node below `to` holds an edge that is not below `to`. */
  lemma BelowKeepsChildren(g: Graph, c: EdgeId, to: NodeId, v: NodeId)
    requires Linked(g) && CanRepoint(g, c, Some(to)) && !EdgeBelow(g, to, c) && g.edges[c].bs.Some?
    requires v in g.nodes && Reaches(g, to, v)
    ensures g.edges[c].owner != OfNode(v) && Repoint(g, c, Some(to)).nodes[v].children == g.nodes[v].children
    ensures forall b :: HasChild(Repoint(g, c, Some(to)), v, b) <==> HasChild(g, v, b)
  {
    assert NodeOk(g, v);
    assert c !in g.nodes[v].children;
    RepointKeepsChildren(g, c, Some(to), v);
  }

  lemma RedirectKeepsBelow(g: Graph, c: EdgeId, to: NodeId)
    requires Linked(g) && CanRepoint(g, c, Some(to)) && !EdgeBelow(g, to, c) && g.edges[c].bs.Some?
    ensures SameBelow(g, Repoint(g, c, Some(to)), to)
  {
    LinkedIsClosed(g);
    forall v | v in g.nodes && Reaches(g, to, v)
      ensures Repoint(g, c, Some(to)).nodes[v].children == g.nodes[v].children
      ensures forall b :: HasChild(Repoint(g, c, Some(to)), v, b) <==> HasChild(g, v, b)
    {
      BelowKeepsChildren(g, c, to, v);
    }
    RedirectReach(g, Repoint(g, c, Some(to)), to);
  }

  /**
  Moving to `to` an edge that is not in the subgraph below `to` leaves that subgraph as it is and keeps the
  graph acyclic.
  */
  lemma RedirectKeepsAcyclic(g: Graph, c: EdgeId, to: NodeId)
    requires Linked(g) && Acyclic(g) && CanRepoint(g, c, Some(to)) && !EdgeBelow(g, to, c) && g.edges[c].bs.Some?
    ensures Acyclic(Repoint(g, c, Some(to))) && SameBelow(g, Repoint(g, c, Some(to)), to)
  {
    var g2 := Repoint(g, c, Some(to));
    RedirectKeepsBelow(g, c, to);
    LinkedIsClosed(g);
    forall a, b | HasChild(g2, a, b)
      ensures HasChild(g, a, b) || (g.edges[c].owner == OfNode(a) && b == to)
    {
      RepointChildren(g, c, Some(to), a, b);
    }
    if g.edges[c].owner.OfNode? {
      var p := g.edges[c].owner.node;
      assert EdgeOk(g, c);
      if Reaches(g, to, p) { BelowKeepsChildren(g, c, to, p); }
      NewEdgeKeepsAcyclic(g, g2, p, to);
    } else {
      FewerEdgesKeepAcyclic(g, g2);
    }
  }

  lemma RedirectReach(g: Graph, g2: Graph, to: NodeId)
    requires Closed(g) && g2.nodes.Keys == g.nodes.Keys && to in g.nodes
    requires forall v, b :: v in g.nodes && Reaches(g, to, v) ==> (HasChild(g2, v, b) <==> HasChild(g, v, b))
    ensures forall v :: Reaches(g2, to, v) <==> Reaches(g, to, v)
  {
    forall v | Reaches(g, to, v)
      ensures Reaches(g2, to, v)
    {
      var p :| IsPath(g, p, to, v);
      PathStays(g, g2, p, to, v);
    }
    forall v | Reaches(g2, to, v)
      ensures Reaches(g, to, v)
    {
      var p :| IsPath(g2, p, to, v);
      PathWas(g, g2, p, to, v);
    }
  }

  lemma SameBelowSameEdges(g: Graph, g2: Graph, to: NodeId, c: EdgeId)
    requires SameBelow(g, g2, to)
    ensures EdgeBelow(g2, to, c) <==> EdgeBelow(g, to, c)
  {
  }

  lemma SameBelowTransitive(g: Graph, g1: Graph, g2: Graph, to: NodeId)
    requires SameBelow(g, g1, to) && SameBelow(g1, g2, to)
    ensures SameBelow(g, g2, to)
  {
  }

  /** A new edge from a node that its target does not reach keeps the graph acyclic; a new root edge always does. */
  lemma AttachKeepsAcyclic(g: Graph, e: EdgeId, made: Edge, child: NodeId)
    requires Linked(g) && Acyclic(g) && e !in g.edges && made.bs.None? && !made.frozen && child in g.nodes
    requires (made.owner.OfNode? ==> made.owner.node in g.nodes) && SlotFree(AddEdge(g, e, made), e)
    requires made.owner.OfNode? ==> !Reaches(g, child, made.owner.node)
    ensures Acyclic(Repoint(AddEdge(g, e, made), e, Some(child)))
  {
    var g2 := Repoint(AddEdge(g, e, made), e, Some(child));
    LinkedIsClosed(g);
    forall a, b | HasChild(g2, a, b)
      ensures HasChild(g, a, b) || (made.owner == OfNode(a) && b == child)
    {
      AttachChildren(g, e, made, child, a, b);
    }
    if made.owner.OfNode? {
      NewEdgeKeepsAcyclic(g, g2, made.owner.node, child);
    } else {
      FewerEdgesKeepAcyclic(g, g2);
    }
  }

  lemma AttachChildren(g: Graph, e: EdgeId, made: Edge, child: NodeId, a: NodeId, b: NodeId)
    requires Linked(g) && e !in g.edges && made.bs.None? && !made.frozen && child in g.nodes
    requires (made.owner.OfNode? ==> made.owner.node in g.nodes) && SlotFree(AddEdge(g, e, made), e)
    requires HasChild(Repoint(AddEdge(g, e, made), e, Some(child)), a, b)
    ensures HasChild(g, a, b) || (made.owner == OfNode(a) && b == child)
  {
    var g1 := AddEdge(g, e, made);
    assert HasChild(g1, a, b) || (made.owner == OfNode(a) && b == child) by {
      AddEdgeKeepsLinked(g, e, made);
      RepointChildren(g1, e, Some(child), a, b);
    }
    if HasChild(g1, a, b) {
      var x :| x in g1.nodes[a].children && x in g1.edges && g1.edges[x].bs == Some(b);
      assert NodeOk(g, a);
    }
  }

  lemma DetachKeepsAcyclic(g: Graph, e: EdgeId)
    requires Linked(g) && Acyclic(g) && CanRepoint(g, e, None)
    ensures Acyclic(Repoint(g, e, None))
  {
    var g2 := Repoint(g, e, None);
    forall a, b | HasChild(g2, a, b)
      ensures HasChild(g, a, b)
    {
      RepointChildren(g, e, None, a, b);
    }
    FewerEdgesKeepAcyclic(g, g2);
  }

  // ---------------------------------------------------------------------------------------------
  // Sequences of changes

  /** `l` is what the changes `cs` make of `l0`. */
  ghost predicate After(l0: Layer, cs: seq<Change>, l: Layer) {
    CanDoAll(l0, cs) && l == DoAll(l0, cs)
  }

  lemma {:induction false} AfterAppend(l0: Layer, cs: seq<Change>, l: Layer, c: Change)
    requires After(l0, cs, l) && Possible(l, c)
    ensures After(l0, cs + [c], Do(l, c))
    decreases |cs|
  {
    if cs == [] {
      assert [] + [c] == [c];
      assert CanDoAll(Do(l0, c), [c][1..]);
    } else {
      AfterAppend(Do(l0, cs[0]), cs[1..], l, c);
      assert (cs + [c])[1..] == cs[1..] + [c];
    }
  }

  lemma {:induction false} AfterChain(l0: Layer, cs: seq<Change>, l: Layer, ds: seq<Change>, l2: Layer)
    requires After(l0, cs, l) && After(l, ds, l2)
    ensures After(l0, cs + ds, l2)
    decreases |cs|
  {
    if cs == [] {
      assert cs + ds == ds;
    } else {
      AfterChain(Do(l0, cs[0]), cs[1..], l, ds, l2);
      assert (cs + ds)[1..] == cs[1..] + ds;
    }
  }

  /** Committing frees the removed edges and leaves the rest of the graph alone. */
  lemma {:induction false} CommitKeepsGraph(l: Layer)
    ensures Commit(l).g.nodes == l.g.nodes
    ensures forall e :: e in Commit(l).g.edges <==> e in l.g.edges && FreeOnCommit(e) !in l.log
    ensures forall e :: e in Commit(l).g.edges ==> Commit(l).g.edges[e] == l.g.edges[e]
    decreases |l.log|
  {
    if l.log != [] {
      CommitKeepsGraph(CommitLast(l));
      assert l.log == CommitLast(l).log + [l.log[|l.log| - 1]];
    }
  }

  /** Only a removal makes an edge go on commit. */
  lemma {:induction false} FreedAreRemoved(l: Layer, cs: seq<Change>, e: EdgeId)
    requires CanDoAll(l, cs) && FreeOnCommit(e) in DoAll(l, cs).log
    ensures FreeOnCommit(e) in l.log || Remove(e) in cs
    decreases |cs|
  {
    if cs != [] {
      FreedAreRemoved(Do(l, cs[0]), cs[1..], e);
    }
  }

  // ---------------------------------------------------------------------------------------------
  // What a refresh of a set of nodes achieves

  /** `f` is `g` with the permissions below the nodes of `s` derived anew, and only those. */
  ghost predicate Fixpoint(g: Graph, f: Graph, d: Drivers, s: set<NodeId>) {
    && f.nodes == g.nodes && f.edges.Keys == g.edges.Keys
    && (forall e :: e in g.edges ==>
         && f.edges[e] == g.edges[e].(perm := f.edges[e].perm, shared := f.edges[e].shared)
         && (f.edges[e] == g.edges[e] || exists n ::
              n in s && n in g.nodes && Derives(g.nodes[n]) && e in g.nodes[n].children))
    && (forall n {:trigger Derived(f, d, n)} :: n in s && n in f.nodes ==> Derived(f, d, n))
  }

  ghost predicate AllPermitted(f: Graph, d: Drivers, s: set<NodeId>) {
    forall n {:trigger Permitted(f, d, n)} :: n in s && n in f.nodes ==> Permitted(f, d, n)
  }

  /** Permissions can be assigned below `s` so that they follow from each other and every node accepts its users. */
  ghost predicate Satisfiable(g: Graph, d: Drivers, s: set<NodeId>) {
    exists f :: Fixpoint(g, f, d, s) && AllPermitted(f, d, s)
  }

  /** Refreshing in any sorted order succeeds exactly if there is an assignment at all, and then finds it. */
  lemma RefreshMeets(g: Graph, d: Drivers, list: seq<NodeId>, s: set<NodeId>)
    requires Linked(g) && Sorted(g, list) && Elements(list) == s
    ensures Refresh(g, d, list).Done? <==> Satisfiable(g, d, s)
    ensures Refresh(g, d, list).Done? ==>
      Fixpoint(g, Refresh(g, d, list).g, d, s) && AllPermitted(Refresh(g, d, list).g, d, s)
  {
    var f := Propagate(g, d, list);
    RefreshDecides(g, d, list);
    PropagateFrame(g, d, list);
    assert forall n :: n in list <==> n in s;
    forall n | n in list
      ensures Derived(f, d, n)
    {
      PropagateIsFixpoint(g, d, list, n);
    }
    assert Fixpoint(g, f, d, s);
    forall f2 | Fixpoint(g, f2, d, s) && AllPermitted(f2, d, s)
      ensures f2 == f
    {
      assert SameButPerms(g, f2, list);
      FixpointIsUnique(g, d, list, f2);
    }
  }

  // ---------------------------------------------------------------------------------------------
  // Loosening

  lemma {:induction false} HighestNode(rank: map<NodeId, nat>, s: set<NodeId>) returns (n: NodeId)
    requires s != {} && s <= rank.Keys
    ensures n in s && forall m :: m in s ==> rank[m] <= rank[n]
  {
    n :| n in s;
    var rest := s - {n};
    if rest != {} {
      var m := HighestNode(rank, rest);
      if rank[m] > rank[n] { n := m; }
    }
  }

  /** Any set of nodes that contains the children of its nodes can be listed parents first. */
  lemma {:induction false} SortedListOf(g: Graph, s: set<NodeId>) returns (list: seq<NodeId>)
    requires Closed(g) && Acyclic(g) && s <= g.nodes.Keys && forall a, b :: a in s && HasChild(g, a, b) ==> b in s
    ensures Sorted(g, list) && Elements(list) == s
  {
    if s == {} { return []; }
    AcyclicIsRanked(g);
    var n := HighestNode(RankOf(g), s);
    forall a, b | a in s - {n} && HasChild(g, a, b)
      ensures b in s - {n}
    {
      assert RankOf(g)[b] < RankOf(g)[a];
    }
    var rest := SortedListOf(g, s - {n});
    forall c: NodeId | HasChild(g, n, c)
      ensures c in rest
    {
      assert RankOf(g)[c] < RankOf(g)[n];
      assert c in Elements(rest);
    }
    assert n !in Elements(rest);
    PrependSorted(g, rest, n);
    list := [n] + rest;
    assert Elements(list) == {n} + Elements(rest);
  }

  /** The users of every node of `s` are accepted, its image size is aligned, and its children have what follows. */
  ghost predicate InOrder(g: Graph, d: Drivers, s: set<NodeId>) {
    forall n {:trigger Derived(g, d, n)} :: n in s && n in g.nodes ==>
      Derived(g, d, n) && UsersOk(g, d, n) && g.nodes[n].sizeAligned
  }

  /** Loosening a graph that is in order never fails: the new permissions exist. */
  lemma LooseningSatisfies(g0: Graph, g: Graph, d: Drivers, starts: seq<NodeId>)
    requires Linked(g) && Acyclic(g) && LooserGraph(g, g0) && Monotone(d) && InOrder(g0, d, ReachFrom(g, starts))
    ensures Satisfiable(g, d, ReachFrom(g, starts))
  {
    var s := ReachFrom(g, starts);
    LinkedIsClosed(g);
    ReachFromIsClosed(g, starts);
    var list := SortedListOf(g, s);
    forall n | n in list
      ensures UsersOk(g0, d, n) && Derived(g0, d, n) && g.nodes[n].sizeAligned
    {
      assert n in Elements(list);
      assert Derived(g0, d, n) ==> g0.nodes[n].sizeAligned == g.nodes[n].sizeAligned;
    }
    LooseningRefresh(g0, g, d, list);
    RefreshMeets(g, d, list, s);
  }

  /** bdrv_child_try_set_perm with permissions that ask for no more can be satisfied, if the nodes were in order. */
  lemma LooserPermsSatisfy(g: Graph, d: Drivers, c: EdgeId, p: Perms, starts: seq<NodeId>)
    requires Linked(g) && Acyclic(g) && c in g.edges && Looser(p, EdgePerms(g, c)) && Monotone(d)
    requires InOrder(g, d, ReachFrom(WithPerms(g, c, p), starts))
    ensures Satisfiable(WithPerms(g, c, p), d, ReachFrom(WithPerms(g, c, p), starts))
  {
    SameStructure(g, WithPerms(g, c, p));
    FewerEdgesKeepAcyclic(g, WithPerms(g, c, p));
    LooseningSatisfies(g, WithPerms(g, c, p), d, starts);
  }

  /** So can the refresh of bdrv_root_unref_child after the edge is gone. */
  lemma RemovalSatisfies(g: Graph, d: Drivers, e: EdgeId, starts: seq<NodeId>)
    requires Linked(g) && Acyclic(g) && CanRepoint(g, e, None) && Monotone(d)
    requires InOrder(g, d, ReachFrom(FreeEdge(Repoint(g, e, None), e), starts))
    ensures Satisfiable(FreeEdge(Repoint(g, e, None), e), d, ReachFrom(FreeEdge(Repoint(g, e, None), e), starts))
  {
    var g2 := FreeEdge(Repoint(g, e, None), e);
    assert Linked(g2) by { DropEdgeLinked(g, e); }
    assert Acyclic(g2) by {
      DetachKeepsAcyclic(g, e);
      FewerEdgesKeepAcyclic(Repoint(g, e, None), g2);
    }
    RemovalLoosens(g, e);
    LooseningSatisfies(g, g2, d, starts);
  }

  lemma RemovalLoosens(g: Graph, e: EdgeId)
    requires e in g.edges
    ensures LooserGraph(FreeEdge(Repoint(g, e, None), e), g)
  {
  }

  /** No two users of the node conflict, and nobody writes to it unless it is writable. */
  ghost predicate Peaceful(g: Graph, n: NodeId)
    requires n in g.nodes
  {
    NoConflict(g, n) && (NeedsWrite(Cumulative(g, n)) ==> g.nodes[n].writable)
  }

  ghost predicate AllPeaceful(g: Graph) {
    forall n {:trigger Peaceful(g, n)} :: n in g.nodes ==> Peaceful(g, n)
  }

  /** Users that only go away, or only change places with nobody, leave a node peaceful. */
  lemma FewerUsersKeepPeace(g: Graph, g2: Graph, n: NodeId)
    requires n in g.nodes && n in g2.nodes && Peaceful(g, n) && g2.nodes[n].writable == g.nodes[n].writable
    requires forall e :: e in g2.nodes[n].parents && e in g2.edges ==>
      e in g.nodes[n].parents && e in g.edges && EdgePerms(g2, e) == EdgePerms(g, e)
    ensures Peaceful(g2, n)
  {
    forall e | e in g2.nodes[n].parents && e in g2.edges
      ensures g2.edges[e].perm == g.edges[e].perm && g2.edges[e].shared == g.edges[e].shared
    {
      assert EdgePerms(g2, e) == EdgePerms(g, e);
    }
    forall a, b | a in g2.nodes[n].parents && b in g2.nodes[n].parents && a != b && a in g2.edges && b in g2.edges
      ensures Allows(g2, a, b)
    {
      assert Allows(g, a, b);
    }
    assert Cumulative(g2, n).perm <= Cumulative(g, n).perm;
  }

  /** A refresh that settles everything below the nodes with new users makes the whole graph peaceful. */
  lemma RefreshKeepsPeace(g: Graph, f: Graph, d: Drivers, s: set<NodeId>)
    requires Linked(g) && Fixpoint(g, f, d, s) && AllPermitted(f, d, s)
    requires forall a, b :: a in s && HasChild(g, a, b) ==> b in s
    requires forall n :: n in g.nodes && n !in s ==> Peaceful(g, n)
    ensures AllPeaceful(f)
  {
    forall n | n in f.nodes
      ensures Peaceful(f, n)
    {
      if n in s {
        assert Permitted(f, d, n);
      } else {
        forall e | e in f.nodes[n].parents && e in f.edges
          ensures EdgePerms(f, e) == EdgePerms(g, e)
        {
          OutsideIsUntouched(g, f, d, s, n, e);
        }
        FewerUsersKeepPeace(g, f, n);
      }
    }
  }

  lemma OutsideIsUntouched(g: Graph, f: Graph, d: Drivers, s: set<NodeId>, n: NodeId, e: EdgeId)
    requires Linked(g) && Fixpoint(g, f, d, s)
    requires forall a, b :: a in s && HasChild(g, a, b) ==> b in s
    requires n in g.nodes && n !in s && e in g.nodes[n].parents && e in g.edges
    ensures f.edges[e] == g.edges[e]
  {
    assert NodeOk(g, n);
    forall m | m in s && m in g.nodes && e in g.nodes[m].children
      ensures false
    {
      assert NodeOk(g, m);
      assert HasChild(g, m, n);
    }
  }

  lemma ReachFromIsClosed(g: Graph, starts: seq<NodeId>)
    requires Closed(g)
    ensures forall a, b :: a in ReachFrom(g, starts) && HasChild(g, a, b) ==> b in ReachFrom(g, starts)
  {
    forall a, b | a in ReachFrom(g, starts) && HasChild(g, a, b)
      ensures b in ReachFrom(g, starts)
    {
      var x :| x in starts && Reaches(g, x, a);
      ReachesChild(g, a, b);
      ReachesTransitive(g, x, a, b);
    }
  }
}
