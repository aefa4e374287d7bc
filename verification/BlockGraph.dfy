/**
The block graph: nodes (`BlockDriverState`) and the edges between users and nodes (`BdrvChild`).

The sibling lists `parents` and `children` are sets: no operation depends on their order, and undoing
a change puts an edge back at the head of its lists rather than where it was.
*/
module BlockGraph {

  datatype Option<+T> = None | Some(value: T)

  type NodeId = nat
  type EdgeId = nat

  /** The permission bits BLK_PERM_*. */
  datatype Perm = ConsistentRead | Write | WriteUnchanged | Resize

  const ALL_PERMS: set<Perm> := {ConsistentRead, Write, WriteUnchanged, Resize}

  /** The role bits BDRV_CHILD_*. */
  datatype Role = Role(data: bool, metadata: bool, filtered: bool, cow: bool, primary: bool)

  /** Who holds an edge: another node, a block job, or some other user such as a block backend. */
  datatype Owner = OfNode(node: NodeId) | OfJob(job: nat) | OfRoot

  datatype Edge = Edge(
    owner: Owner, role: Role, bs: Option<NodeId>, perm: set<Perm>, shared: set<Perm>, frozen: bool, stayAtNode: bool)

  /** The properties of a node's driver and of how it was opened. */
  datatype Driver = Driver(
    isFilter: bool,            // drv->is_filter
    filteredIsBacking: bool,   // drv->filtered_child_is_backing
    hasChildPerm: bool,        // drv->bdrv_child_perm is there
    supportsBacking: bool)     // drv->supports_backing

  datatype Node = Node(
    drv: Option<Driver>,
    writable: bool,            // BDRV_O_RDWR without BDRV_O_INACTIVE
    inactive: bool,            // BDRV_O_INACTIVE
    noIo: bool,                // BDRV_O_NO_IO
    forceShare: bool,
    sizeAligned: bool,         // the image size is a multiple of bl.request_alignment
    parents: set<EdgeId>,
    children: set<EdgeId>,
    file: Option<EdgeId>,
    backing: Option<EdgeId>)

  datatype Graph = Graph(nodes: map<NodeId, Node>, edges: map<EdgeId, Edge>)

  /** Where bdrv_child_cb_attach hooks an edge into its parent. */
  datatype Slot = NoSlot | FileSlot | BackingSlot

  function SlotOf(drv: Option<Driver>, role: Role): Slot {
    var filter := drv.Some? && drv.value.isFilter;
    if filter || role.filtered then
      if !role.primary then NoSlot
      else if drv.Some? && drv.value.filteredIsBacking then BackingSlot
      else FileSlot
    else if role.cow then BackingSlot
    else if role.primary then FileSlot
    else NoSlot
  }

  /** The edges that point at node `n`. */
  function EdgesTo(g: Graph, n: NodeId): set<EdgeId> {
    set e | e in g.edges && g.edges[e].bs == Some(n)
  }

  /** The edges held by node `n` that point somewhere. */
  function EdgesFrom(g: Graph, n: NodeId): set<EdgeId> {
    set e | e in g.edges && g.edges[e].owner == OfNode(n) && g.edges[e].bs.Some?
  }

  predicate EdgeOk(g: Graph, e: EdgeId)
    requires e in g.edges
  {
    && (g.edges[e].bs.Some? ==> g.edges[e].bs.value in g.nodes)
    && (g.edges[e].owner.OfNode? ==> g.edges[e].owner.node in g.nodes)
  }

  /** The lists and the `file` and `backing` links of node `n` say what the edges say. */
  predicate NodeOk(g: Graph, n: NodeId)
    requires n in g.nodes
  {
    var node := g.nodes[n];
    && node.parents == EdgesTo(g, n)
    && node.children == EdgesFrom(g, n)
    && (node.file.Some? ==> node.file.value in node.children)
    && (node.backing.Some? ==> node.backing.value in node.children)
    && (forall e :: e in node.children ==>
          && (node.file == Some(e) <==> SlotOf(node.drv, g.edges[e].role) == FileSlot)
          && (node.backing == Some(e) <==> SlotOf(node.drv, g.edges[e].role) == BackingSlot))
  }

  /** The graph is linked up: every list and link agrees with the edges. */
  ghost predicate Linked(g: Graph) {
    && (forall e {:trigger EdgeOk(g, e)} :: e in g.edges ==> EdgeOk(g, e))
    && (forall n {:trigger NodeOk(g, n)} :: n in g.nodes ==> NodeOk(g, n))
  }

  /** Node `a` has an edge to node `b`. */
  ghost predicate HasChild(g: Graph, a: NodeId, b: NodeId) {
    a in g.nodes && exists e :: e in g.nodes[a].children && e in g.edges && g.edges[e].bs == Some(b)
  }

  /** Every child edge of a node leads to a node. */
  ghost predicate Closed(g: Graph) {
    forall n, e :: n in g.nodes && e in g.nodes[n].children ==>
      e in g.edges && g.edges[e].bs.Some? && g.edges[e].bs.value in g.nodes
  }

  lemma LinkedIsClosed(g: Graph)
    requires Linked(g)
    ensures Closed(g)
  {
    forall n, e | n in g.nodes && e in g.nodes[n].children
      ensures e in g.edges && g.edges[e].bs.Some? && g.edges[e].bs.value in g.nodes
    {
      assert NodeOk(g, n);
      assert EdgeOk(g, e);
    }
  }
}
