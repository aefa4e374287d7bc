/** What changes of the graph need from AioContexts: nodes tied together, their jobs and their users share one. */
module Placement {
  import opened BlockGraph
  import opened AioContexts

  /** Every node has a context, and whatever is tied together shares one. */
  ghost predicate Placed(g: Graph, x: Contexts) {
    x.nodes.Keys == g.nodes.Keys && Uniform(g, x)
  }

  /** The request to move node `n` to `ctx`. */
  function Request(g: Graph, movable: set<EdgeId>, x: Contexts, ctx: Ctx): Setting {
    Setting(g, x.nodes, movable, ctx, {})
  }

  /** All users of what would have to move together with `n` accept the move to `ctx`. */
  ghost predicate CanShift(g: Graph, movable: set<EdgeId>, x: Contexts, n: NodeId, ctx: Ctx) {
    var s := Request(g, movable, x, ctx);
    !Stuck(s, Component(s, n))
  }

  /** `x2` is `x` with `n`, and exactly what has to move with it, in `ctx`. */
  ghost predicate Shifted(g: Graph, movable: set<EdgeId>, x: Contexts, n: NodeId, ctx: Ctx, x2: Contexts) {
    var s := Request(g, movable, x, ctx);
    Moved(s, Component(s, n), x, x2)
  }

  /** Two nodes can be brought into one context: that of the parent, or else that of the child. */
  ghost predicate CanMeet(g: Graph, movable: set<EdgeId>, x: Contexts, parent: NodeId, child: NodeId)
    requires parent in x.nodes && child in x.nodes
  {
    || x.nodes[parent] == x.nodes[child]
    || CanShift(g, movable, x, child, x.nodes[parent]) || CanShift(g, movable, x, parent, x.nodes[child])
  }

  ghost predicate Met(g: Graph, movable: set<EdgeId>, x: Contexts, parent: NodeId, child: NodeId, x2: Contexts)
    requires parent in x.nodes && child in x.nodes
  {
    if x.nodes[parent] == x.nodes[child] then x2 == x
    else if CanShift(g, movable, x, child, x.nodes[parent]) then Shifted(g, movable, x, child, x.nodes[parent], x2)
    else Shifted(g, movable, x, parent, x.nodes[child], x2)
  }

  // ---------------------------------------------------------------------------------------------
  // Changes of the graph

  /** The edges of `g2` are edges of `g`, with the same ends or with none. */
  ghost predicate Fewer(g: Graph, g2: Graph) {
    && g2.nodes.Keys == g.nodes.Keys
    && forall e {:trigger g2.edges[e]} :: e in g2.edges && g2.edges[e].bs.Some? ==>
         e in g.edges && g2.edges[e].owner == g.edges[e].owner && g2.edges[e].bs == g.edges[e].bs
  }

  lemma FewerIsPlaced(g: Graph, g2: Graph, x: Contexts)
    requires Placed(g, x) && Fewer(g, g2)
    ensures Placed(g2, x)
  {
    forall e | e in g2.edges
      ensures Agrees(g2, x, e)
    {
      if g2.edges[e].bs.Some? { assert Agrees(g, x, e); }
    }
  }

  /** Edges may move between nodes of one context. */
  lemma RedirectedIsPlaced(g: Graph, g2: Graph, x: Contexts, from: NodeId, to: NodeId)
    requires Placed(g, x) && from in x.nodes && to in x.nodes && x.nodes[from] == x.nodes[to]
    requires g2.nodes.Keys == g.nodes.Keys
    requires forall e {:trigger g2.edges[e]} :: e in g2.edges ==>
      e in g.edges && g2.edges[e].owner == g.edges[e].owner &&
      (g2.edges[e].bs == g.edges[e].bs || (g.edges[e].bs == Some(from) && g2.edges[e].bs == Some(to)))
    ensures Placed(g2, x)
  {
    forall e | e in g2.edges
      ensures Agrees(g2, x, e)
    {
      assert Agrees(g, x, e);
    }
  }

  // ---------------------------------------------------------------------------------------------
  // Moving there and back

  lemma SameContexts(x: Contexts, x2: Contexts)
    requires forall m :: Get(x2, m) == Get(x, m)
    ensures x2 == x
  {
    forall n ensures (n in x2.nodes <==> n in x.nodes) && (n in x.nodes ==> x2.nodes[n] == x.nodes[n]) {
      assert Get(x2, MoveNode(n)) == Get(x, MoveNode(n));
    }
    forall j ensures (j in x2.jobs <==> j in x.jobs) && (j in x.jobs ==> x2.jobs[j] == x.jobs[j]) {
      assert Get(x2, MoveJob(j)) == Get(x, MoveJob(j));
    }
    forall e ensures (e in x2.roots <==> e in x.roots) && (e in x.roots ==> x2.roots[e] == x.roots[e]) {
      assert Get(x2, MoveRoot(e)) == Get(x, MoveRoot(e));
    }
    assert x2.nodes == x.nodes && x2.jobs == x.jobs && x2.roots == x.roots;
  }

  lemma ShiftedIsPlaced(g: Graph, movable: set<EdgeId>, x: Contexts, n: NodeId, ctx: Ctx, x2: Contexts)
    requires Linked(g) && Placed(g, x) && n in g.nodes && Shifted(g, movable, x, n, ctx, x2)
    ensures Placed(g, x2) && x2.nodes[n] == ctx
    ensures forall k :: k in g.nodes && x.nodes[k] == ctx ==> x2.nodes[k] == ctx
  {
    var s := Request(g, movable, x, ctx);
    ComponentIsWhole(s, n);
    UniformStays(s, n, x, x2);
    forall k
      ensures k in x2.nodes <==> k in x.nodes
      ensures k in x.nodes ==> x2.nodes[k] == x.nodes[k] || x2.nodes[k] == ctx
    {
      assert Get(x2, MoveNode(k)) == if Wanted(s, Component(s, n), MoveNode(k)) then Some(ctx) else Get(x, MoveNode(k));
    }
    assert Get(x2, MoveNode(n)) == Some(ctx);
  }

  /** The ties are those of the graph, whatever the contexts. */
  lemma SameTies(s: Setting, s2: Setting, a: NodeId, b: NodeId)
    requires s2.g == s.g && s2.ignored == s.ignored
    ensures Connected(s, a, b) <==> Connected(s2, a, b)
  {
    forall p, q ensures Tied(s, p, q) <==> Tied(s2, p, q) {
      forall e, n ensures Points(s, e, n) <==> Points(s2, e, n) { }
    }
    if Connected(s, a, b) {
      var path :| IsPath(s, path, a, b);
      assert IsPath(s2, path, a, b);
    }
    if Connected(s2, a, b) {
      var path :| IsPath(s2, path, a, b);
      assert IsPath(s, path, a, b);
    }
  }

  /** What has to move with `n` is the same on the way back, and none of it is there yet, both times. */
  lemma SameComponent(g: Graph, movable: set<EdgeId>, x: Contexts, n: NodeId, ctx: Ctx, x2: Contexts)
    requires Linked(g) && Placed(g, x) && n in g.nodes && x.nodes[n] != ctx && Shifted(g, movable, x, n, ctx, x2)
    requires Placed(g, x2) && x2.nodes[n] == ctx
    ensures
      var s, s2 := Request(g, movable, x, ctx), Request(g, movable, x2, x.nodes[n]);
      && Component(s2, n) == Component(s, n)
      && forall k :: k in Component(s, n) ==> k in g.nodes && !There(s, k) && !There(s2, k)
  {
    var s, s2 := Request(g, movable, x, ctx), Request(g, movable, x2, x.nodes[n]);
    forall k | k in g.nodes
      ensures k in Component(s2, n) <==> k in Component(s, n)
      ensures k in Component(s, n) ==> !There(s, k) && !There(s2, k)
    {
      ComponentIsConnected(s, x, n, k);
      ComponentIsConnected(s2, x2, n, k);
      SameTies(s, s2, n, k);
    }
  }

  /** The same moves are wanted on the way back. */
  lemma SameMoves(s: Setting, s2: Setting, c: set<NodeId>, m: Move)
    requires s2.g == s.g && s2.ignored == s.ignored && s2.movable == s.movable
    requires forall k :: k in c ==> !There(s, k) && !There(s2, k)
    ensures Wanted(s2, c, m) <==> Wanted(s, c, m)
    ensures Stuck(s2, c) <==> Stuck(s, c)
  {
    forall e, n ensures Points(s, e, n) <==> Points(s2, e, n) { }
    forall e, n ensures Blocked(s, e, n) <==> Blocked(s2, e, n) { }
  }

  /** What has to move with `n` is in its context. */
  lemma {:induction false} PathIsUniform(s: Setting, x: Contexts, path: seq<NodeId>, a: NodeId, b: NodeId)
    requires Sensible(s) && s.nodeCtx == x.nodes && Uniform(s.g, x) && IsPath(s, path, a, b)
    ensures x.nodes[b] == x.nodes[a]
    decreases |path|
  {
    if |path| > 1 {
      var k := |path| - 1;
      assert IsPath(s, path[..k], a, path[k - 1]);
      PathIsUniform(s, x, path[..k], a, path[k - 1]);
      assert Tied(s, path[k - 1], b);
      TiedIsUniform(s, x, path[k - 1], b);
    }
  }

  lemma WantedIsThere(g: Graph, movable: set<EdgeId>, x: Contexts, n: NodeId, ctx: Ctx, m: Move)
    requires Linked(g) && Placed(g, x) && n in g.nodes && x.nodes[n] != ctx
    requires var s := Request(g, movable, x, ctx); Wanted(s, Component(s, n), m)
    ensures Get(x, m) == Some(x.nodes[n])
  {
    var s := Request(g, movable, x, ctx);
    var c := Component(s, n);
    forall k | k in c
      ensures Get(x, MoveNode(k)) == Some(x.nodes[n])
    {
      ComponentIsConnected(s, x, n, k);
      var path :| IsPath(s, path, n, k);
      PathIsUniform(s, x, path, n, k);
    }
    match m
    case MoveNode(_) =>
    case MoveJob(j) =>
      var e, k :| k in c && !There(s, k) && Points(s, e, k) && g.edges[e].owner == OfJob(j);
      assert Agrees(g, x, e);
    case MoveRoot(e) =>
      var k :| k in c && !There(s, k) && Points(s, e, k) && g.edges[e].owner.OfRoot?;
      assert Agrees(g, x, e);
  }

  /** A move can be taken back: nobody objects, and everything is where it was. */
  lemma ShiftBack(g: Graph, movable: set<EdgeId>, x: Contexts, n: NodeId, ctx: Ctx, x2: Contexts)
    requires Linked(g) && Placed(g, x) && n in g.nodes && x.nodes[n] != ctx
    requires CanShift(g, movable, x, n, ctx) && Shifted(g, movable, x, n, ctx, x2)
    ensures Placed(g, x2) && x2.nodes[n] == ctx && CanShift(g, movable, x2, n, x.nodes[n])
    ensures forall x3 :: Shifted(g, movable, x2, n, x.nodes[n], x3) ==> x3 == x
  {
    var s, s2 := Request(g, movable, x, ctx), Request(g, movable, x2, x.nodes[n]);
    var c := Component(s, n);
    ShiftedIsPlaced(g, movable, x, n, ctx, x2);
    SameComponent(g, movable, x, n, ctx, x2);
    SameMoves(s, s2, c, MoveNode(n));
    forall x3 | Shifted(g, movable, x2, n, x.nodes[n], x3)
      ensures x3 == x
    {
      forall m
        ensures Get(x3, m) == Get(x, m)
      {
        SameMoves(s, s2, c, m);
        if Wanted(s, c, m) { WantedIsThere(g, movable, x, n, ctx, m); }
      }
      SameContexts(x, x3);
    }
  }

  /** Two nodes of a graph that was in order have been brought into one context. */
  ghost predicate Meeting(g: Graph, movable: set<EdgeId>, x0: Contexts, parent: NodeId, child: NodeId, x: Contexts) {
    && Linked(g) && Placed(g, x0) && parent in g.nodes && child in g.nodes
    && CanMeet(g, movable, x0, parent, child) && Met(g, movable, x0, parent, child, x)
  }

  lemma MeetingIsPlaced(g: Graph, movable: set<EdgeId>, x0: Contexts, parent: NodeId, child: NodeId, x: Contexts)
    requires Meeting(g, movable, x0, parent, child, x)
    ensures Placed(g, x) && x.nodes[parent] == x.nodes[child]
  {
    if x0.nodes[parent] != x0.nodes[child] {
      if CanShift(g, movable, x0, child, x0.nodes[parent]) {
        ShiftedIsPlaced(g, movable, x0, child, x0.nodes[parent], x);
      } else {
        ShiftedIsPlaced(g, movable, x0, parent, x0.nodes[child], x);
      }
    }
  }

  /** Moving node `n` to `ctx` is possible and leads from `x` to `x0`. */
  ghost predicate LeadsBack(g: Graph, movable: set<EdgeId>, x: Contexts, n: NodeId, ctx: Ctx, x0: Contexts) {
    CanShift(g, movable, x, n, ctx) && forall x3 :: Shifted(g, movable, x, n, ctx, x3) ==> x3 == x0
  }

  /** Exactly one of two nodes has moved, if they were not in one context already, and it can move back. */
  lemma MeetingEnds(g: Graph, movable: set<EdgeId>, x0: Contexts, parent: NodeId, child: NodeId, x: Contexts)
    requires Meeting(g, movable, x0, parent, child, x) && x.nodes.Keys == g.nodes.Keys
    ensures x.nodes[child] != x0.nodes[child] ==> LeadsBack(g, movable, x, child, x0.nodes[child], x0)
    ensures x.nodes[child] == x0.nodes[child] && x.nodes[parent] != x0.nodes[parent] ==>
      LeadsBack(g, movable, x, parent, x0.nodes[parent], x0)
    ensures x.nodes[child] == x0.nodes[child] && x.nodes[parent] == x0.nodes[parent] ==> x == x0
  {
    if x0.nodes[parent] != x0.nodes[child] {
      if CanShift(g, movable, x0, child, x0.nodes[parent]) {
        ShiftBack(g, movable, x0, child, x0.nodes[parent], x);
      } else {
        ShiftBack(g, movable, x0, parent, x0.nodes[child], x);
        ShiftedIsPlaced(g, movable, x0, parent, x0.nodes[child], x);
      }
    }
  }
}
