/** The changes of the block graph that transactions are made of, each with the change that undoes it. */
module GraphChanges {
  import opened BlockGraph
  import opened Maps

  // ---------------------------------------------------------------------------------------------
  // bdrv_replace_child_noperm

  /** A list after edge `e`, in it if `was`, is taken out and then put in if `now`. */
  function Listed(list: set<EdgeId>, e: EdgeId, was: bool, now: bool): set<EdgeId> {
    (if was then list - {e} else list) + (if now then {e} else {})
  }

  /** A `file` or `backing` link after edge `e` is detached if `was` and then attached to it if `now`. */
  function Hooked(link: Option<EdgeId>, e: EdgeId, was: bool, now: bool): Option<EdgeId> {
    if now then Some(e) else if was && link == Some(e) then None else link
  }

  /**
  Node `n` after edge `e` is moved to `to`: bdrv_child_cb_detach and QLIST_REMOVE take it out of the old
  place, QLIST_INSERT_HEAD and bdrv_child_cb_attach put it into the new one.
  */
  function Relinked(node: Node, n: NodeId, e: EdgeId, edge: Edge, to: Option<NodeId>): Node {
    var slot := SlotOf(node.drv, edge.role);
    var was := edge.owner == OfNode(n) && edge.bs.Some?;
    var now := edge.owner == OfNode(n) && to.Some?;
    node.(parents := Listed(node.parents, e, edge.bs == Some(n), to == Some(n)),
          children := Listed(node.children, e, was, now),
          backing := Hooked(node.backing, e, was, now && slot == BackingSlot),
          file := Hooked(node.file, e, was, now && slot == FileSlot))
  }

  /** bdrv_replace_child_noperm: edge `e` points to `to` instead. */
  function Repoint(g: Graph, e: EdgeId, to: Option<NodeId>): Graph
    requires e in g.edges
  {
    Graph(map n | n in g.nodes :: Relinked(g.nodes[n], n, e, g.edges[e], to), g.edges[e := g.edges[e].(bs := to)])
  }

  /** An unattached edge of a node finds its `file` or `backing` link free. */
  predicate SlotFree(g: Graph, e: EdgeId)
    requires e in g.edges
  {
    var edge := g.edges[e];
    edge.owner.OfNode? && edge.owner.node in g.nodes && edge.bs.None? ==>
      var p := g.nodes[edge.owner.node];
      match SlotOf(p.drv, edge.role)
      case FileSlot => p.file.None?
      case BackingSlot => p.backing.None?
      case NoSlot => true
  }

  /** What bdrv_replace_child_noperm and bdrv_child_cb_attach assert, apart from the draining of nodes. */
  predicate CanRepoint(g: Graph, e: EdgeId, to: Option<NodeId>) {
    && e in g.edges && !g.edges[e].frozen && g.edges[e].bs != to
    && (to.Some? ==> to.value in g.nodes && SlotFree(g, e))
  }

  lemma RepointKeepsLinked(g: Graph, e: EdgeId, to: Option<NodeId>)
    requires Linked(g) && CanRepoint(g, e, to)
    ensures Linked(Repoint(g, e, to))
  {
    var g2 := Repoint(g, e, to);
    forall x | x in g2.edges ensures EdgeOk(g2, x) { assert EdgeOk(g, x); }
    forall n | n in g2.nodes
      ensures NodeOk(g2, n)
    {
      RepointNode(g, e, to, n);
    }
  }

  lemma RepointLists(g: Graph, e: EdgeId, to: Option<NodeId>, n: NodeId)
    requires n in g.nodes && e in g.edges && NodeOk(g, n)
    ensures
      var g2 := Repoint(g, e, to);
      EdgesTo(g2, n) == g2.nodes[n].parents && EdgesFrom(g2, n) == g2.nodes[n].children
  {
    var g2 := Repoint(g, e, to);
    forall x
      ensures x in EdgesTo(g2, n) <==> x in g2.nodes[n].parents
      ensures x in EdgesFrom(g2, n) <==> x in g2.nodes[n].children
    {
      assert x in EdgesTo(g, n) <==> x in g.nodes[n].parents;
      assert x in EdgesFrom(g, n) <==> x in g.nodes[n].children;
    }
  }

  lemma RepointNode(g: Graph, e: EdgeId, to: Option<NodeId>, n: NodeId)
    requires n in g.nodes && NodeOk(g, n) && CanRepoint(g, e, to)
    ensures NodeOk(Repoint(g, e, to), n)
  {
    RepointLists(g, e, to, n);
    var g2 := Repoint(g, e, to);
    var was, now := g.nodes[n], g2.nodes[n];
    assert e in was.children <==> e in EdgesFrom(g, n);
    forall x | x in now.children
      ensures now.file == Some(x) <==> SlotOf(now.drv, g2.edges[x].role) == FileSlot
      ensures now.backing == Some(x) <==> SlotOf(now.drv, g2.edges[x].role) == BackingSlot
    {
      if x != e { assert x in was.children; }
    }
  }

  /** What a linked-up node says about one edge. */
  predicate Agrees(node: Node, n: NodeId, e: EdgeId, edge: Edge) {
    var child := edge.owner == OfNode(n) && edge.bs.Some?;
    var slot := SlotOf(node.drv, edge.role);
    && (e in node.parents <==> edge.bs == Some(n))
    && (e in node.children <==> child)
    && (node.file == Some(e) <==> child && slot == FileSlot)
    && (node.backing == Some(e) <==> child && slot == BackingSlot)
  }

  lemma RelinkBack(node: Node, n: NodeId, e: EdgeId, edge: Edge, to: Option<NodeId>)
    requires Agrees(node, n, e, edge)
    requires edge.owner == OfNode(n) && edge.bs.None? && to.Some? ==>
      match SlotOf(node.drv, edge.role)
      case FileSlot => node.file.None?
      case BackingSlot => node.backing.None?
      case NoSlot => true
    ensures Relinked(Relinked(node, n, e, edge, to), n, e, edge.(bs := to), edge.bs) == node
  {
  }

  /** Every node says about edge `e` what `e` says. */
  ghost predicate AllAgree(g: Graph, e: EdgeId)
    requires e in g.edges
  {
    forall n :: n in g.nodes ==> Agrees(g.nodes[n], n, e, g.edges[e])
  }

  lemma AgreeingRepointBack(g: Graph, e: EdgeId, to: Option<NodeId>)
    requires CanRepoint(g, e, to) && AllAgree(g, e)
    ensures Repoint(Repoint(g, e, to), e, g.edges[e].bs) == g
  {
    var g3 := Repoint(Repoint(g, e, to), e, g.edges[e].bs);
    forall n | n in g.nodes
      ensures g3.nodes[n] == g.nodes[n]
    {
      assert Agrees(g.nodes[n], n, e, g.edges[e]);
      RelinkBack(g.nodes[n], n, e, g.edges[e], to);
    }
    SameMap(g3.nodes, g.nodes);
    SameMap(g3.edges, g.edges);
  }

  /** Moving an edge back undoes the move, links and lists included. */
  lemma RepointBack(g: Graph, e: EdgeId, to: Option<NodeId>)
    requires Linked(g) && CanRepoint(g, e, to)
    ensures Repoint(Repoint(g, e, to), e, g.edges[e].bs) == g
  {
    forall n | n in g.nodes
      ensures Agrees(g.nodes[n], n, e, g.edges[e])
    {
      NodeAgrees(g, n, e);
    }
    AgreeingRepointBack(g, e, to);
  }

  lemma NodeAgrees(g: Graph, n: NodeId, e: EdgeId)
    requires Linked(g) && n in g.nodes && e in g.edges
    ensures Agrees(g.nodes[n], n, e, g.edges[e])
  {
    assert NodeOk(g, n);
    assert e in g.nodes[n].parents <==> e in EdgesTo(g, n);
    assert e in g.nodes[n].children <==> e in EdgesFrom(g, n);
  }

  // ---------------------------------------------------------------------------------------------
  // Creating and freeing edges

  function AddEdge(g: Graph, e: EdgeId, edge: Edge): Graph {
    g.(edges := g.edges[e := edge])
  }

  /** bdrv_child_free */
  function FreeEdge(g: Graph, e: EdgeId): Graph {
    g.(edges := g.edges - {e})
  }

  lemma AddEdgeKeepsLinked(g: Graph, e: EdgeId, edge: Edge)
    requires Linked(g) && e !in g.edges && edge.bs.None? && (edge.owner.OfNode? ==> edge.owner.node in g.nodes)
    ensures Linked(AddEdge(g, e, edge))
  {
    var g2 := AddEdge(g, e, edge);
    forall x | x in g2.edges ensures EdgeOk(g2, x) { if x != e { assert EdgeOk(g, x); } }
    forall n | n in g2.nodes
      ensures NodeOk(g2, n)
    {
      assert NodeOk(g, n);
      assert EdgesTo(g2, n) == EdgesTo(g, n) && EdgesFrom(g2, n) == EdgesFrom(g, n);
    }
  }

  lemma FreeEdgeKeepsLinked(g: Graph, e: EdgeId)
    requires Linked(g) && e in g.edges && g.edges[e].bs.None?
    ensures Linked(FreeEdge(g, e))
  {
    var g2 := FreeEdge(g, e);
    forall x | x in g2.edges ensures EdgeOk(g2, x) { assert EdgeOk(g, x); }
    forall n | n in g2.nodes
      ensures NodeOk(g2, n)
    {
      assert NodeOk(g, n);
      assert EdgesTo(g2, n) == EdgesTo(g, n) && EdgesFrom(g2, n) == EdgesFrom(g, n);
    }
  }
}
