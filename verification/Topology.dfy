/** Reachability in the block graph, acyclicity, and the traversals that depend on them. */
module Topology {
  import opened BlockGraph

  // ---------------------------------------------------------------------------------------------
  // Paths

  /** `p` is a path of child edges from `a` to `b`. */
  ghost predicate IsPath(g: Graph, p: seq<NodeId>, a: NodeId, b: NodeId) {
    && |p| > 0 && p[0] == a && p[|p| - 1] == b && a in g.nodes
    && forall i :: 0 <= i < |p| - 1 ==> HasChild(g, p[i], p[i + 1])
  }

  ghost predicate Reaches(g: Graph, a: NodeId, b: NodeId) {
    exists p :: IsPath(g, p, a, b)
  }

  /** No node has a path of at least one edge to itself. */
  ghost predicate Acyclic(g: Graph) {
    forall a, p :: IsPath(g, p, a, a) ==> |p| == 1
  }

  lemma ReachesSelf(g: Graph, a: NodeId)
    requires a in g.nodes
    ensures Reaches(g, a, a)
  {
    assert IsPath(g, [a], a, a);
  }

  lemma ReachesChild(g: Graph, a: NodeId, b: NodeId)
    requires HasChild(g, a, b)
    ensures Reaches(g, a, b)
  {
    assert IsPath(g, [a, b], a, b);
  }

  lemma JoinPaths(g: Graph, p: seq<NodeId>, q: seq<NodeId>, a: NodeId, b: NodeId, c: NodeId)
    requires IsPath(g, p, a, b) && IsPath(g, q, b, c)
    ensures IsPath(g, p + q[1..], a, c)
  {
  }

  lemma ReachesTransitive(g: Graph, a: NodeId, b: NodeId, c: NodeId)
    requires Reaches(g, a, b) && Reaches(g, b, c)
    ensures Reaches(g, a, c)
  {
    var p :| IsPath(g, p, a, b);
    var q :| IsPath(g, q, b, c);
    JoinPaths(g, p, q, a, b, c);
  }

  /** A path that leaves its start leaves it through a child. */
  lemma FirstStep(g: Graph, a: NodeId, b: NodeId) returns (c: NodeId)
    requires Closed(g) && Reaches(g, a, b) && a != b
    ensures HasChild(g, a, c) && Reaches(g, c, b)
  {
    var p :| IsPath(g, p, a, b);
    c := p[1];
    assert HasChild(g, p[0], p[1]);
    assert IsPath(g, p[1..], c, b);
  }

  /** A set of nodes that is closed under children contains everything reachable from a member. */
  lemma {:induction false} ClosedSetReach(g: Graph, s: set<NodeId>, p: seq<NodeId>, a: NodeId, b: NodeId)
    requires Closed(g) && IsPath(g, p, a, b) && a in s
    requires forall x, y :: x in s && HasChild(g, x, y) ==> y in s
    ensures b in s
    decreases |p|
  {
    if |p| > 1 {
      assert HasChild(g, p[0], p[1]);
      assert IsPath(g, p[1..], p[1], b);
      ClosedSetReach(g, s, p[1..], p[1], b);
    }
  }

  // ---------------------------------------------------------------------------------------------
  // Ranks: numbers that fall along every edge

  ghost predicate Ranked(g: Graph, rank: map<NodeId, nat>) {
    && g.nodes.Keys <= rank.Keys
    && forall a, b :: HasChild(g, a, b) ==> b in rank && rank[b] < rank[a]
  }

  lemma {:induction false} RankFalls(g: Graph, rank: map<NodeId, nat>, p: seq<NodeId>, a: NodeId, b: NodeId)
    requires Ranked(g, rank) && IsPath(g, p, a, b)
    ensures b in rank && rank[b] + (|p| - 1) <= rank[a]
    decreases |p|
  {
    if |p| > 1 {
      assert HasChild(g, p[0], p[1]);
      var q := p[..|p| - 1];
      var c := p[|p| - 2];
      assert IsPath(g, q, a, c);
      RankFalls(g, rank, q, a, c);
      assert HasChild(g, p[|p| - 2], p[|p| - 2 + 1]);
    }
  }

  lemma RankedIsAcyclic(g: Graph, rank: map<NodeId, nat>)
    requires Ranked(g, rank)
    ensures Acyclic(g)
  {
    forall a, p | IsPath(g, p, a, a)
      ensures |p| == 1
    {
      RankFalls(g, rank, p, a, a);
    }
  }

  ghost function ReachSet(g: Graph, a: NodeId): set<NodeId> {
    set b | b in g.nodes && Reaches(g, a, b)
  }

  ghost function RankOf(g: Graph): map<NodeId, nat> {
    map n | n in g.nodes :: |ReachSet(g, n)|
  }

  lemma SubsetSize<T>(a: set<T>, b: set<T>)
    requires a < b
    ensures |a| < |b|
  {
    var x :| x in b && x !in a;
    assert |b - {x}| == |b| - 1;
    SubsetSizeWeak(a, b - {x});
  }

  lemma {:induction false} SubsetSizeWeak<T>(a: set<T>, b: set<T>)
    requires a <= b
    ensures |a| <= |b|
    decreases a
  {
    if a != {} {
      var x :| x in a;
      SubsetSizeWeak(a - {x}, b - {x});
    }
  }

  lemma NoWayBack(g: Graph, a: NodeId, b: NodeId)
    requires Acyclic(g) && HasChild(g, a, b)
    ensures !Reaches(g, b, a)
  {
    forall p | IsPath(g, p, b, a)
      ensures false
    {
      assert IsPath(g, [a, b], a, b);
      JoinPaths(g, [a, b], p, a, b, a);
    }
  }

  /** In an acyclic graph the number of reachable nodes is a rank. */
  lemma AcyclicIsRanked(g: Graph)
    requires Closed(g) && Acyclic(g)
    ensures Ranked(g, RankOf(g))
  {
    forall a, b | HasChild(g, a, b)
      ensures b in g.nodes && |ReachSet(g, b)| < |ReachSet(g, a)|
    {
      ReachesChild(g, a, b);
      ReachesSelf(g, a);
      forall x | x in ReachSet(g, b)
        ensures x in ReachSet(g, a)
      {
        ReachesTransitive(g, a, b, x);
      }
      NoWayBack(g, a, b);
      assert a in ReachSet(g, a) && a !in ReachSet(g, b);
      SubsetSize(ReachSet(g, b), ReachSet(g, a));
    }
  }

  /**
  One new edge keeps a graph acyclic if it closes no path: whatever else `g2` leaves out, its only edge
  that `g` lacks leads from `p` to `t`, and `t` does not reach `p`.
  */
  lemma NewEdgeKeepsAcyclic(g: Graph, g2: Graph, p: NodeId, t: NodeId)
    requires Closed(g) && Acyclic(g) && t in g.nodes && p in g.nodes && !Reaches(g, t, p)
    requires g2.nodes.Keys == g.nodes.Keys
    requires forall a, b :: HasChild(g2, a, b) ==> HasChild(g, a, b) || (a == p && b == t)
    ensures Acyclic(g2)
  {
    AcyclicIsRanked(g);
    var rank := RankOf(g);
    var lift := rank[t] + 1;
    var rank2 := map n | n in g.nodes :: if Reaches(g, n, p) then rank[n] + lift else rank[n];
    ReachesSelf(g, p);
    forall a, b | HasChild(g2, a, b)
      ensures b in rank2 && rank2[b] < rank2[a]
    {
      if HasChild(g, a, b) && Reaches(g, b, p) {
        ReachesChild(g, a, b);
        ReachesTransitive(g, a, b, p);
      }
    }
    RankedIsAcyclic(g2, rank2);
  }

  /** A graph with fewer edges stays acyclic. */
  lemma FewerEdgesKeepAcyclic(g: Graph, g2: Graph)
    requires Acyclic(g) && g2.nodes.Keys == g.nodes.Keys
    requires forall a, b :: HasChild(g2, a, b) ==> HasChild(g, a, b)
    ensures Acyclic(g2)
  {
    forall a, p | IsPath(g2, p, a, a)
      ensures |p| == 1
    {
      assert IsPath(g, p, a, a);
    }
  }

  // ---------------------------------------------------------------------------------------------
  // Topological sorting

  function Target(g: Graph, e: EdgeId): NodeId
    requires e in g.edges && g.edges[e].bs.Some?
  {
    g.edges[e].bs.value
  }

  predicate NoDuplicates<T(==)>(s: seq<T>) {
    forall i, j :: 0 <= i < j < |s| ==> s[i] != s[j]
  }

  function Elements<T>(s: seq<T>): set<T> {
    set x | x in s
  }

  /** Every child of a listed node is listed after it. */
  ghost predicate ParentsFirst(g: Graph, list: seq<NodeId>) {
    forall i, c :: 0 <= i < |list| && HasChild(g, list[i], c) ==> c in list[i + 1..]
  }

  ghost predicate Sorted(g: Graph, list: seq<NodeId>) {
    NoDuplicates(list) && ParentsFirst(g, list) && forall n :: n in list ==> n in g.nodes
  }

  lemma PrependSorted(g: Graph, list: seq<NodeId>, n: NodeId)
    requires Sorted(g, list) && n in g.nodes && n !in list
    requires forall c :: HasChild(g, n, c) ==> c in list
    ensures Sorted(g, [n] + list)
  {
    var l := [n] + list;
    forall i, c | 0 <= i < |l| && HasChild(g, l[i], c)
      ensures c in l[i + 1..]
    {
      if i == 0 {
        assert l[1..] == list;
      } else {
        assert l[i + 1..] == list[i..];
        assert c in list[(i - 1) + 1..];
      }
    }
  }

  /**
  bdrv_topological_dfs.  `stack` holds the nodes whose own call has begun and not ended: they are found
  but not listed yet.
  */
  method TopologicalDfs(g: Graph, list: seq<NodeId>, found: set<NodeId>, bs: NodeId, ghost stack: set<NodeId>)
    returns (list2: seq<NodeId>, found2: set<NodeId>)
    requires Closed(g) && Acyclic(g) && bs in g.nodes
    requires Sorted(g, list) && found <= g.nodes.Keys && found == Elements(list) + stack && Elements(list) !! stack
    requires forall s :: s in stack ==> s != bs && Reaches(g, s, bs)
    ensures Sorted(g, list2) && found2 <= g.nodes.Keys && found2 == Elements(list2) + stack && Elements(list2) !! stack
    ensures bs in list2 && found <= found2 && Elements(list) <= Elements(list2)
    ensures forall n :: n in list2 ==> n in list || Reaches(g, bs, n)
    decreases g.nodes.Keys - found
  {
    list2, found2 := list, found;
    if bs in found {
      return;
    }
    found2 := found2 + {bs};
    var rest := g.nodes[bs].children;
    while rest != {}
      invariant rest <= g.nodes[bs].children
      invariant Sorted(g, list2) && found2 <= g.nodes.Keys && found + {bs} <= found2
      invariant found2 == Elements(list2) + stack + {bs} && Elements(list2) !! stack + {bs}
      invariant Elements(list) <= Elements(list2)
      invariant forall n :: n in list2 ==> n in list || Reaches(g, bs, n)
      invariant forall e :: e in g.nodes[bs].children && e !in rest ==> Target(g, e) in list2
    {
      var child :| child in rest;
      rest := rest - {child};
      var c := Target(g, child);
      assert HasChild(g, bs, c);
      ReachesChild(g, bs, c);
      ghost var before := list2;
      StackReaches(g, stack, bs, c);
      list2, found2 := TopologicalDfs(g, list2, found2, c, stack + {bs});
      forall n | n in list2 && n !in before
        ensures Reaches(g, bs, n)
      {
        ReachesTransitive(g, bs, c, n);
      }
      assert forall n :: n in before ==> n in Elements(before) && n in Elements(list2);
    }
    ReachesSelf(g, bs);
    PrependSorted(g, list2, bs);
    list2 := [bs] + list2;
  }

  /** What is above `bs` is above its children too. */
  lemma StackReaches(g: Graph, stack: set<NodeId>, bs: NodeId, c: NodeId)
    requires Acyclic(g) && HasChild(g, bs, c)
    requires forall s :: s in stack ==> s != bs && Reaches(g, s, bs)
    ensures forall s :: s in stack + {bs} ==> s != c && Reaches(g, s, c)
  {
    NoWayBack(g, bs, c);
    ReachesChild(g, bs, c);
    forall s | s in stack + {bs}
      ensures s != c && Reaches(g, s, c)
    {
      if s != bs { ReachesTransitive(g, s, bs, c); }
    }
  }

  /** The nodes reachable from some node of `starts`. */
  ghost function ReachFrom(g: Graph, starts: seq<NodeId>): set<NodeId> {
    set n | n in g.nodes && exists a :: a in starts && Reaches(g, a, n)
  }

  /**
  The sorting loop of bdrv_list_refresh_perms; with one start it is what bdrv_refresh_perms does.  The
  result lists exactly the nodes reachable from the starts, each once, and every parent before its children.
  */
  method SortFrom(g: Graph, starts: seq<NodeId>) returns (list: seq<NodeId>)
    requires Closed(g) && Acyclic(g) && forall n :: n in starts ==> n in g.nodes
    ensures Sorted(g, list)
    ensures Elements(list) == ReachFrom(g, starts)
  {
    list := [];
    var found: set<NodeId> := {};
    for i := 0 to |starts|
      invariant Sorted(g, list) && found == Elements(list)
      invariant forall n :: n in list ==> n in ReachFrom(g, starts)
      invariant forall k :: 0 <= k < i ==> starts[k] in Elements(list)
    {
      ghost var before := list;
      list, found := TopologicalDfs(g, list, found, starts[i], {});
      assert forall n :: n in list && n !in before ==> Reaches(g, starts[i], n);
    }
    forall n | n in ReachFrom(g, starts)
      ensures n in list
    {
      var a :| a in starts && Reaches(g, a, n);
      var p :| IsPath(g, p, a, n);
      SortedIsClosed(g, list);
      ClosedSetReach(g, Elements(list), p, a, n);
    }
  }

  lemma SortedIsClosed(g: Graph, list: seq<NodeId>)
    requires Sorted(g, list)
    ensures forall x, y :: x in Elements(list) && HasChild(g, x, y) ==> y in Elements(list)
  {
  }

  // ---------------------------------------------------------------------------------------------
  // bdrv_recurse_has_child

  /** bdrv_recurse_has_child; the recursion ends because the graph has no cycle. */
  method RecurseHasChild(g: Graph, bs: NodeId, child: NodeId) returns (has: bool)
    requires Closed(g) && Acyclic(g) && bs in g.nodes
    ensures has <==> Reaches(g, bs, child)
    decreases RankOf(g)[bs]
  {
    if bs == child {
      ReachesSelf(g, bs);
      return true;
    }
    var rest := g.nodes[bs].children;
    while rest != {}
      invariant rest <= g.nodes[bs].children
      invariant forall e :: e in g.nodes[bs].children && e !in rest ==> !Reaches(g, Target(g, e), child)
    {
      var c :| c in rest;
      rest := rest - {c};
      var t := Target(g, c);
      assert HasChild(g, bs, t);
      AcyclicIsRanked(g);
      has := RecurseHasChild(g, t, child);
      if has {
        ReachesChild(g, bs, t);
        ReachesTransitive(g, bs, t, child);
        return;
      }
    }
    NoChildReaches(g, bs, child);
    has := false;
  }

  lemma NoChildReaches(g: Graph, bs: NodeId, child: NodeId)
    requires Closed(g) && bs in g.nodes && bs != child
    requires forall e :: e in g.nodes[bs].children ==> !Reaches(g, Target(g, e), child)
    ensures !Reaches(g, bs, child)
  {
    if Reaches(g, bs, child) {
      var t := FirstStep(g, bs, child);
    }
  }

  // ---------------------------------------------------------------------------------------------
  // should_update_child

  /** The edge `c` belongs to the subgraph below `to`: some node reachable from `to` holds it. */
  ghost predicate EdgeBelow(g: Graph, to: NodeId, c: EdgeId) {
    exists v :: v in g.nodes && Reaches(g, to, v) && c in g.nodes[v].children
  }

  /** The scan of one node's children in the breadth-first search, up to the edge `c`. */
  method ScanChildren(g: Graph, v: NodeId, c: EdgeId, queue: seq<NodeId>, found: set<NodeId>)
    returns (hit: bool, queue2: seq<NodeId>, found2: set<NodeId>)
    requires Closed(g) && v in g.nodes && found <= g.nodes.Keys && forall q :: q in queue ==> q in found
    requires NoDuplicates(queue)
    ensures hit <==> c in g.nodes[v].children
    ensures found <= found2 <= g.nodes.Keys && forall q :: q in queue2 ==> q in found2
    ensures forall n :: n in found2 && n !in found ==> HasChild(g, v, n)
    ensures forall q :: q in queue2 <==> q in queue || (q in found2 && q !in found)
    ensures !hit ==> forall n :: HasChild(g, v, n) ==> n in found2
    ensures NoDuplicates(queue2)
  {
    hit, queue2, found2 := false, queue, found;
    var rest := g.nodes[v].children;
    while rest != {}
      invariant rest <= g.nodes[v].children && c !in g.nodes[v].children - rest
      invariant found <= found2 <= g.nodes.Keys && forall q :: q in queue2 ==> q in found2
      invariant forall n :: n in found2 && n !in found ==> HasChild(g, v, n)
      invariant forall q :: q in queue2 <==> q in queue || (q in found2 && q !in found)
      invariant forall e :: e in g.nodes[v].children && e !in rest ==> Target(g, e) in found2
      invariant NoDuplicates(queue2)
    {
      var c2 :| c2 in rest;
      rest := rest - {c2};
      if c2 == c {
        hit := true;
        return;
      }
      var t := Target(g, c2);
      if t !in found2 {
        assert HasChild(g, v, t);
        queue2 := queue2 + [t];
        found2 := found2 + {t};
      }
    }
  }

  /** should_update_child: the breadth-first search below `to` for the edge `c`. */
  method ShouldUpdateChild(g: Graph, c: EdgeId, to: NodeId) returns (ret: bool)
    requires Closed(g) && c in g.edges && to in g.nodes
    ensures ret <==> !g.edges[c].stayAtNode && !EdgeBelow(g, to, c)
  {
    if g.edges[c].stayAtNode {
      return false;
    }
    ret := true;
    var found, queue := {to}, [to];
    ghost var visited: set<NodeId> := {};
    ReachesSelf(g, to);
    while |queue| > 0
      invariant found <= g.nodes.Keys && to in found
      invariant forall q :: q in queue ==> q in found && q !in visited
      invariant forall n :: n in found ==> n in visited || n in queue
      invariant visited <= found && forall n :: n in found ==> Reaches(g, to, n)
      invariant !ret ==> EdgeBelow(g, to, c)
      invariant ret ==> forall x, y :: x in visited && HasChild(g, x, y) ==> y in found
      invariant ret ==> forall x :: x in visited ==> c !in g.nodes[x].children
      invariant NoDuplicates(queue)
      decreases g.nodes.Keys - visited
    {
      var v := queue[0];
      queue := queue[1..];
      var hit, queue2, found2 := ScanChildren(g, v, c, queue, found);
      forall n | n in found2 && n !in found
        ensures Reaches(g, to, n)
      {
        ReachesChild(g, v, n);
        ReachesTransitive(g, to, v, n);
      }
      if hit {
        ret := false;
      }
      visited := visited + {v};
      queue, found := queue2, found2;
    }
    if ret {
      assert visited == found;
      NotBelow(g, to, c, found);
    }
  }

  lemma NotBelow(g: Graph, to: NodeId, c: EdgeId, found: set<NodeId>)
    requires Closed(g) && to in found && found <= g.nodes.Keys
    requires forall x, y :: x in found && HasChild(g, x, y) ==> y in found
    requires forall x :: x in found ==> c !in g.nodes[x].children
    ensures !EdgeBelow(g, to, c)
  {
    forall v | v in g.nodes && Reaches(g, to, v)
      ensures c !in g.nodes[v].children
    {
      var p :| IsPath(g, p, to, v);
      ClosedSetReach(g, found, p, to, v);
    }
  }
}
