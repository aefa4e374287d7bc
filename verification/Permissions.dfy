/** Permissions of edges, and how they are derived anew after a change of the graph. */
module Permissions {
  import opened BlockGraph
  import opened Topology

  /** What a user needs of a node, and what it lets other users of the node do. */
  datatype Perms = Perms(perm: set<Perm>, shared: set<Perm>)

  /** The drivers' callbacks: bdrv_child_perm for an edge of a node, and whether bdrv_check_perm accepts. */
  datatype Drivers = Drivers(childPerm: (NodeId, EdgeId, Role, Perms) -> Perms, accepts: (NodeId, Perms) -> bool)

  function EdgePerms(g: Graph, e: EdgeId): Perms
    requires e in g.edges
  {
    Perms(g.edges[e].perm, g.edges[e].shared)
  }

  /** What the parents of `n` need of it together, and what all of them share. */
  ghost function Cumulative(g: Graph, n: NodeId): Perms
    requires n in g.nodes
  {
    Perms(set p | p in ALL_PERMS && exists e :: e in g.nodes[n].parents && e in g.edges && p in g.edges[e].perm,
          set p | p in ALL_PERMS && forall e :: e in g.nodes[n].parents && e in g.edges ==> p in g.edges[e].shared)
  }

  lemma AllPerms(p: Perm)
    ensures p in ALL_PERMS
  {
  }

  /** bdrv_get_cumulative_perm */
  method GetCumulativePerm(g: Graph, n: NodeId) returns (r: Perms)
    requires n in g.nodes && g.nodes[n].parents <= g.edges.Keys
    ensures r == Cumulative(g, n)
  {
    var perm: set<Perm>, shared := {}, ALL_PERMS;
    var rest := g.nodes[n].parents;
    while rest != {}
      invariant rest <= g.nodes[n].parents
      invariant forall p :: p in perm <==> exists e :: e in g.nodes[n].parents - rest && p in g.edges[e].perm
      invariant forall p :: p in shared <==> p in ALL_PERMS && forall e :: e in g.nodes[n].parents - rest ==>
        p in g.edges[e].shared
    {
      var c :| c in rest;
      ghost var seen := g.nodes[n].parents - rest;
      rest := rest - {c};
      assert g.nodes[n].parents - rest == seen + {c};
      perm := perm + g.edges[c].perm;
      shared := shared * g.edges[c].shared;
    }
    assert g.nodes[n].parents - rest == g.nodes[n].parents;
    forall p: Perm { AllPerms(p); }
    r := Perms(perm, shared);
  }

  // ---------------------------------------------------------------------------------------------
  // Checks on one node

  /** bdrv_a_allow_b: user `a` shares everything user `b` needs. */
  predicate Allows(g: Graph, a: EdgeId, b: EdgeId)
    requires a in g.edges && b in g.edges
  {
    g.edges[b].perm <= g.edges[a].shared
  }

  ghost predicate NoConflict(g: Graph, n: NodeId)
    requires n in g.nodes
  {
    forall a, b {:trigger Allows(g, a, b)} ::
      a in g.nodes[n].parents && b in g.nodes[n].parents && a != b && a in g.edges && b in g.edges ==> Allows(g, a, b)
  }

  /** bdrv_parent_perms_conflict */
  method ParentPermsConflict(g: Graph, n: NodeId) returns (conflict: bool)
    requires n in g.nodes && g.nodes[n].parents <= g.edges.Keys
    ensures conflict <==> !NoConflict(g, n)
  {
    var all := g.nodes[n].parents;
    var restA := all;
    while restA != {}
      invariant restA <= all
      invariant forall a, b :: a in all - restA && b in all && a != b ==> Allows(g, a, b)
    {
      var a :| a in restA;
      restA := restA - {a};
      var restB := all;
      while restB != {}
        invariant restB <= all
        invariant forall b :: b in all - restB && b != a ==> Allows(g, a, b)
      {
        var b :| b in restB;
        restB := restB - {b};
        if a != b && !Allows(g, a, b) {
          return true;
        }
      }
    }
    conflict := false;
  }

  predicate NeedsWrite(p: Perms) {
    Write in p.perm || WriteUnchanged in p.perm
  }

  /** The check of the image size in bdrv_node_refresh_perm. */
  predicate SizeOk(node: Node, cum: Perms) {
    NeedsWrite(cum) && Resize !in cum.perm ==> node.sizeAligned
  }

  /** Everything bdrv_do_refresh_perms checks at node `n`, apart from the image size. */
  ghost predicate UsersOk(g: Graph, d: Drivers, n: NodeId)
    requires n in g.nodes
  {
    && NoConflict(g, n)
    && (NeedsWrite(Cumulative(g, n)) ==> g.nodes[n].writable)
    && (g.nodes[n].drv.Some? ==> d.accepts(n, Cumulative(g, n)))
  }

  ghost predicate Permitted(g: Graph, d: Drivers, n: NodeId)
    requires n in g.nodes
  {
    UsersOk(g, d, n) && SizeOk(g.nodes[n], Cumulative(g, n))
  }

  // ---------------------------------------------------------------------------------------------
  // Passing permissions on to the children

  /** The node's driver derives its children's permissions. */
  predicate Derives(node: Node) {
    node.drv.Some? && node.drv.value.hasChildPerm
  }

  /** bdrv_child_perm for the child edge `e` of `n`, when the users of `n` have the permissions `cum`. */
  function ChildPerm(g: Graph, d: Drivers, n: NodeId, e: EdgeId, cum: Perms): Perms
    requires e in g.edges
  {
    var r := d.childPerm(n, e, g.edges[e].role, cum);
    var t := g.edges[e].bs;
    if t.Some? && t.value in g.nodes && g.nodes[t.value].forceShare then r.(shared := ALL_PERMS) else r
  }

  /** The graph after bdrv_child_set_perm on edge `e`. */
  function WithPerms(g: Graph, e: EdgeId, p: Perms): Graph
    requires e in g.edges
  {
    g.(edges := g.edges[e := g.edges[e].(perm := p.perm, shared := p.shared)])
  }

  /** The graph after the loop of bdrv_node_refresh_perm over the children of `n`. */
  ghost function Derive(g: Graph, d: Drivers, n: NodeId): Graph
    requires n in g.nodes
  {
    if !Derives(g.nodes[n]) then g else
    g.(edges := map e | e in g.edges ::
         if e in g.nodes[n].children then
           var p := ChildPerm(g, d, n, e, Cumulative(g, n));
           g.edges[e].(perm := p.perm, shared := p.shared)
         else g.edges[e])
  }

  /** Permissions passed on by each node of the list in turn, without any check. */
  ghost function Propagate(g: Graph, d: Drivers, list: seq<NodeId>): Graph
    requires forall n :: n in list ==> n in g.nodes
    decreases |list|
  {
    if list == [] then g else Propagate(Derive(g, d, list[0]), d, list[1..])
  }

  datatype Refreshed = Done(g: Graph) | Refused(g: Graph)

  /** bdrv_do_refresh_perms: check a node, pass its permissions on, go to the next. */
  ghost function Refresh(g: Graph, d: Drivers, list: seq<NodeId>): Refreshed
    requires forall n :: n in list ==> n in g.nodes
    decreases |list|
  {
    if list == [] then Done(g)
    else if !Permitted(g, d, list[0]) then Refused(g)
    else Refresh(Derive(g, d, list[0]), d, list[1..])
  }

  // ---------------------------------------------------------------------------------------------
  // What refreshing leaves alone

  /** The graphs differ in permissions only, and only on child edges of listed nodes that derive them. */
  ghost predicate SameButPerms(g: Graph, g2: Graph, list: seq<NodeId>) {
    && g2.nodes == g.nodes && g2.edges.Keys == g.edges.Keys
    && forall e :: e in g.edges ==>
      && g2.edges[e] == g.edges[e].(perm := g2.edges[e].perm, shared := g2.edges[e].shared)
      && (g2.edges[e] == g.edges[e] || exists n ::
           n in list && n in g.nodes && Derives(g.nodes[n]) && e in g.nodes[n].children)
  }

  lemma DeriveFrame(g: Graph, d: Drivers, n: NodeId)
    requires n in g.nodes
    ensures SameButPerms(g, Derive(g, d, n), [n])
  {
    assert n in [n];
  }

  lemma FrameJoins(g: Graph, g1: Graph, g2: Graph, list: seq<NodeId>)
    requires list != [] && SameButPerms(g, g1, [list[0]]) && SameButPerms(g1, g2, list[1..])
    ensures SameButPerms(g, g2, list)
  {
    forall e | e in g.edges
      ensures g2.edges[e] == g.edges[e].(perm := g2.edges[e].perm, shared := g2.edges[e].shared)
      ensures g2.edges[e] == g.edges[e] ||
        exists n :: n in list && n in g.nodes && Derives(g.nodes[n]) && e in g.nodes[n].children
    {
      if g1.edges[e] != g.edges[e] {
        assert list[0] in list;
      } else if g2.edges[e] != g1.edges[e] {
        var n :| n in list[1..] && n in g1.nodes && Derives(g1.nodes[n]) && e in g1.nodes[n].children;
        assert n in list;
      }
    }
  }

  lemma {:induction false} PropagateFrame(g: Graph, d: Drivers, list: seq<NodeId>)
    requires forall n :: n in list ==> n in g.nodes
    ensures SameButPerms(g, Propagate(g, d, list), list)
    decreases |list|
  {
    if list != [] {
      DeriveFrame(g, d, list[0]);
      PropagateFrame(Derive(g, d, list[0]), d, list[1..]);
      FrameJoins(g, Derive(g, d, list[0]), Propagate(g, d, list), list);
    }
  }

  /** Node `n` sees the same users in both graphs. */
  lemma SameUsers(g: Graph, g2: Graph, d: Drivers, n: NodeId)
    requires n in g.nodes && g2.nodes == g.nodes && g2.edges.Keys == g.edges.Keys
    requires forall e :: e in g.nodes[n].parents && e in g.edges ==> EdgePerms(g2, e) == EdgePerms(g, e)
    ensures Cumulative(g2, n) == Cumulative(g, n) && NoConflict(g2, n) == NoConflict(g, n)
    ensures Permitted(g2, d, n) == Permitted(g, d, n) && UsersOk(g2, d, n) == UsersOk(g, d, n)
  {
    assert forall e :: e in g.nodes[n].parents && e in g.edges ==>
      EdgePerms(g2, e) == EdgePerms(g, e) && g2.edges[e].perm == g.edges[e].perm &&
        g2.edges[e].shared == g.edges[e].shared;
    assert Cumulative(g2, n).perm == Cumulative(g, n).perm;
    assert Cumulative(g2, n).shared == Cumulative(g, n).shared;
    assert forall a, b :: a in g.nodes[n].parents && b in g.nodes[n].parents && a in g.edges && b in g.edges ==>
      Allows(g2, a, b) == Allows(g, a, b);
  }

  /** Permissions have no part in how the graph is linked up. */
  lemma SameStructure(g: Graph, g2: Graph)
    requires g2.nodes == g.nodes && g2.edges.Keys == g.edges.Keys
    requires forall e :: e in g.edges ==>
      g2.edges[e] == g.edges[e].(perm := g2.edges[e].perm, shared := g2.edges[e].shared)
    ensures Linked(g) ==> Linked(g2)
    ensures forall a, b :: HasChild(g2, a, b) <==> HasChild(g, a, b)
    ensures forall list :: Sorted(g, list) ==> Sorted(g2, list)
    ensures Closed(g) ==> Closed(g2)
  {
    if Linked(g) {
      forall e | e in g2.edges ensures EdgeOk(g2, e) { assert EdgeOk(g, e); }
      forall n | n in g2.nodes
        ensures NodeOk(g2, n)
      {
        assert NodeOk(g, n);
        assert EdgesTo(g2, n) == EdgesTo(g, n);
        assert EdgesFrom(g2, n) == EdgesFrom(g, n);
      }
    }
  }

  /** In a sorted list, no other node after the first holds an edge to the first or an edge of the first. */
  lemma FirstIsSettled(g: Graph, list: seq<NodeId>, m: NodeId, e: EdgeId)
    requires Linked(g) && Sorted(g, list) && list != [] && m in list && e in g.nodes[m].children
    ensures e !in g.nodes[list[0]].parents
    ensures m != list[0] ==> e !in g.nodes[list[0]].children
  {
    var n := list[0];
    assert NodeOk(g, m) && NodeOk(g, n);
    if e in g.nodes[n].parents {
      assert HasChild(g, m, n);
    }
  }

  /** Passing on the permissions of later nodes leaves the first node's users and children alone. */
  lemma FirstStays(g: Graph, d: Drivers, list: seq<NodeId>)
    requires Linked(g) && Sorted(g, list) && list != []
    ensures
      var n, g1, final := list[0], Derive(g, d, list[0]), Propagate(g, d, list);
      && final.nodes == g1.nodes == g.nodes && final.edges.Keys == g1.edges.Keys == g.edges.Keys
      && (forall e :: e in g.nodes[n].parents && e in g.edges ==> EdgePerms(final, e) == EdgePerms(g, e))
      && (forall e :: e in g.nodes[n].children && e in g.edges ==> final.edges[e] == g1.edges[e])
  {
    var n, g1, final, rest := list[0], Derive(g, d, list[0]), Propagate(g, d, list), list[1..];
    PropagateFrame(g1, d, rest);
    forall e | e in g.edges && (e in g.nodes[n].parents || e in g.nodes[n].children)
      ensures final.edges[e] == g1.edges[e]
      ensures e in g.nodes[n].parents ==> g1.edges[e] == g.edges[e]
    {
      forall m | m in rest && e in g.nodes[m].children
        ensures false
      {
        FirstIsSettled(g, list, m, e);
      }
      if e in g.nodes[n].children { FirstIsSettled(g, list, n, e); }
    }
  }

  lemma TailSorted(g: Graph, list: seq<NodeId>)
    requires Sorted(g, list) && list != []
    ensures Sorted(g, list[1..])
  {
  }

  // ---------------------------------------------------------------------------------------------
  // The fixpoint

  /** The children of `n` have exactly the permissions that follow from the permissions on `n`. */
  ghost predicate Derived(g: Graph, d: Drivers, n: NodeId)
    requires n in g.nodes
  {
    Derives(g.nodes[n]) ==>
      forall e :: e in g.nodes[n].children && e in g.edges ==>
        EdgePerms(g, e) == ChildPerm(g, d, n, e, Cumulative(g, n))
  }

  /** Passing permissions on once, parents first, reaches a fixpoint at every listed node. */
  lemma {:induction false} PropagateIsFixpoint(g: Graph, d: Drivers, list: seq<NodeId>, n: NodeId)
    requires Linked(g) && Sorted(g, list) && n in list
    ensures Propagate(g, d, list).nodes == g.nodes
    ensures Derived(Propagate(g, d, list), d, n)
    decreases |list|
  {
    var g1, final := Derive(g, d, list[0]), Propagate(g, d, list);
    PropagateFrame(g, d, list);
    if n == list[0] {
      FirstIsDerived(g, d, list);
    } else {
      SameStructure(g, g1);
      TailSorted(g1, list);
      PropagateIsFixpoint(g1, d, list[1..], n);
    }
  }

  lemma FirstIsDerived(g: Graph, d: Drivers, list: seq<NodeId>)
    requires Linked(g) && Sorted(g, list) && list != []
    ensures Propagate(g, d, list).nodes == g.nodes
    ensures Derived(Propagate(g, d, list), d, list[0])
  {
    var n, g1, final := list[0], Derive(g, d, list[0]), Propagate(g, d, list);
    PropagateFrame(g, d, list);
    FirstStays(g, d, list);
    SameUsers(g, final, d, n);
    if Derives(g.nodes[n]) {
      forall e | e in g.nodes[n].children && e in g.edges
        ensures EdgePerms(final, e) == ChildPerm(final, d, n, e, Cumulative(final, n))
      {
        assert final.edges[e] == g1.edges[e];
        assert ChildPerm(final, d, n, e, Cumulative(g, n)) == ChildPerm(g, d, n, e, Cumulative(g, n));
      }
    }
  }

  /**
  Checking each node right before passing its permissions on decides the same as passing all permissions
  on first and then checking every node: later visits never invalidate an earlier check.
  */
  lemma {:induction false} RefreshDecides(g: Graph, d: Drivers, list: seq<NodeId>)
    requires Linked(g) && Sorted(g, list)
    ensures Propagate(g, d, list).nodes == g.nodes
    ensures Refresh(g, d, list).Done? <==> forall n :: n in list ==> Permitted(Propagate(g, d, list), d, n)
    ensures Refresh(g, d, list).Done? ==> Refresh(g, d, list).g == Propagate(g, d, list)
    decreases |list|
  {
    PropagateFrame(g, d, list);
    if list != [] {
      var g1, final := Derive(g, d, list[0]), Propagate(g, d, list);
      FirstStays(g, d, list);
      SameUsers(g, final, d, list[0]);
      SameStructure(g, g1);
      TailSorted(g1, list);
      RefreshDecides(g1, d, list[1..]);
      assert forall n :: n in list <==> n == list[0] || n in list[1..];
    }
  }

  /** There is only one fixpoint: whatever satisfies the equations at the listed nodes is what `Propagate` computes. */
  lemma {:induction false} FixpointIsUnique(g: Graph, d: Drivers, list: seq<NodeId>, f: Graph)
    requires Linked(g) && Sorted(g, list) && SameButPerms(g, f, list)
    requires forall n :: n in list ==> Derived(f, d, n)
    ensures f == Propagate(g, d, list)
    decreases |list|
  {
    if list == [] {
      assert f.edges == g.edges;
    } else {
      var n, g1, rest := list[0], Derive(g, d, list[0]), list[1..];
      FirstAgrees(g, d, list, f);
      SameStructure(g, g1);
      TailSorted(g1, list);
      FixpointIsUnique(g1, d, rest, f);
    }
  }

  lemma FirstUsersAgree(g: Graph, d: Drivers, list: seq<NodeId>, f: Graph)
    requires Linked(g) && Sorted(g, list) && list != [] && SameButPerms(g, f, list)
    ensures Cumulative(f, list[0]) == Cumulative(g, list[0])
  {
    forall e | e in g.nodes[list[0]].parents && e in g.edges
      ensures EdgePerms(f, e) == EdgePerms(g, e)
    {
      forall m | m in list && m in g.nodes && e in g.nodes[m].children
        ensures false
      {
        FirstIsSettled(g, list, m, e);
      }
    }
    SameUsers(g, f, d, list[0]);
  }

  /** At the first node a fixpoint agrees with one round of passing permissions on. */
  lemma FirstAgrees(g: Graph, d: Drivers, list: seq<NodeId>, f: Graph)
    requires Linked(g) && Sorted(g, list) && list != [] && SameButPerms(g, f, list) && Derived(f, d, list[0])
    ensures SameButPerms(Derive(g, d, list[0]), f, list[1..])
  {
    var n, g1, rest := list[0], Derive(g, d, list[0]), list[1..];
    FirstUsersAgree(g, d, list, f);
    forall e | e in g1.edges
      ensures f.edges[e] == g1.edges[e].(perm := f.edges[e].perm, shared := f.edges[e].shared)
      ensures f.edges[e] == g1.edges[e] || exists m ::
        m in rest && m in g.nodes && Derives(g.nodes[m]) && e in g.nodes[m].children
    {
      if Derives(g.nodes[n]) && e in g.nodes[n].children {
        assert ChildPerm(f, d, n, e, Cumulative(g, n)) == ChildPerm(g, d, n, e, Cumulative(g, n));
        assert EdgePerms(f, e) == EdgePerms(g1, e);
      } else if f.edges[e] != g.edges[e] {
        var m :| m in list && m in g.nodes && Derives(g.nodes[m]) && e in g.nodes[m].children;
        assert m in rest;
      }
    }
  }

  // ---------------------------------------------------------------------------------------------
  // The default permission functions

  const WRITE_RESIZE: set<Perm> := {Write, Resize}

  /** bdrv_filter_default_perms: DEFAULT_PERM_PASSTHROUGH is every permission. */
  function FilterDefault(p: Perms): Perms {
    Perms(p.perm * ALL_PERMS, p.shared * ALL_PERMS)
  }

  /** bdrv_default_perms_for_cow */
  function CowDefault(node: Node, p: Perms): Perms {
    var shared := (if Write in p.shared then WRITE_RESIZE else {}) + {ConsistentRead, WriteUnchanged};
    Perms(p.perm * {ConsistentRead}, if node.inactive then shared + WRITE_RESIZE else shared)
  }

  /** bdrv_default_perms_for_storage */
  function StorageDefault(node: Node, role: Role, p: Perms): Perms {
    var q := FilterDefault(p);
    var r := if !role.metadata then q else
      Perms(q.perm + (if node.writable then WRITE_RESIZE else {}) + (if !node.noIo then {ConsistentRead} else {}),
            q.shared - WRITE_RESIZE);
    var s := if !role.data then r else
      var perm1 := if WriteUnchanged in r.perm then r.perm + {Write} else r.perm;
      Perms(if Write in perm1 then perm1 + {Resize} else perm1, r.shared - {Resize});
    if node.inactive then s.(shared := s.shared + WRITE_RESIZE) else s
  }

  /** bdrv_default_perms; the roles it does not accept get nothing. */
  function DefaultPerms(node: Node, role: Role, p: Perms): Perms {
    if role.filtered then FilterDefault(p)
    else if role.cow then CowDefault(node, p)
    else if role.metadata || role.data then StorageDefault(node, role, p)
    else p
  }

  /** `p` asks for no more and shares no less than `q`. */
  predicate Looser(p: Perms, q: Perms) {
    p.perm <= q.perm && q.shared <= p.shared
  }

  lemma DefaultPermsMonotone(node: Node, role: Role, p: Perms, q: Perms)
    requires Looser(p, q)
    ensures Looser(DefaultPerms(node, role, p), DefaultPerms(node, role, q))
  {
  }

  /**
  Outside migration, a metadata child is never shared for writing or resizing, and a backing child is never written.
  */
  lemma DefaultPermsProtect(node: Node, role: Role, p: Perms)
    requires role.filtered ==> !role.cow && !role.metadata && !role.data
    requires role.cow ==> !role.metadata && !role.data
    ensures
      var r := DefaultPerms(node, role, p);
      && (role.metadata && !node.inactive ==> r.shared !! WRITE_RESIZE)
      && (role.metadata && node.writable ==> WRITE_RESIZE <= r.perm)
      && (role.metadata && !node.noIo ==> ConsistentRead in r.perm)
      && (role.data && !node.inactive ==> Resize !in r.shared)
      && (role.data && NeedsWrite(p) ==> WRITE_RESIZE <= r.perm)
      && (role.cow ==> r.perm == p.perm * {ConsistentRead} && {ConsistentRead, WriteUnchanged} <= r.shared)
      && (role.cow && !node.inactive ==> (WRITE_RESIZE <= r.shared <==> Write in p.shared))
      && (role.filtered ==> r == p)
      && (!role.cow ==> p.perm <= r.perm)
      && (!role.cow && !node.inactive ==> r.shared <= p.shared)
  {
    forall x: Perm { AllPerms(x); }
  }

  // ---------------------------------------------------------------------------------------------
  // Loosening

  /** `g` is `g0` with some users gone and others asking for no more and sharing no less. */
  ghost predicate LooserGraph(g: Graph, g0: Graph) {
    && g.nodes.Keys == g0.nodes.Keys && g.edges.Keys <= g0.edges.Keys
    && (forall n :: n in g.nodes ==>
          var x, y := g.nodes[n], g0.nodes[n];
          x.parents <= y.parents && x.children <= y.children &&
          x == y.(parents := x.parents, children := x.children, file := x.file, backing := x.backing))
    && (forall e :: e in g.edges ==>
          g.edges[e] == g0.edges[e].(perm := g.edges[e].perm, shared := g.edges[e].shared) &&
          Looser(EdgePerms(g, e), EdgePerms(g0, e)))
  }

  /** The callbacks ask for no more when their users do not, and accept less when they accept more. */
  ghost predicate Monotone(d: Drivers) {
    && (forall n, e, role, p, q :: Looser(p, q) ==> Looser(d.childPerm(n, e, role, p), d.childPerm(n, e, role, q)))
    && (forall n, p, q :: Looser(p, q) && d.accepts(n, q) ==> d.accepts(n, p))
  }

  /** The default permission functions, with drivers that accept everything. */
  ghost function DefaultDrivers(g: Graph): Drivers {
    Drivers((n, e, role, p) => if n in g.nodes then DefaultPerms(g.nodes[n], role, p) else p, (n, p) => true)
  }

  lemma DefaultDriversMonotone(g: Graph)
    ensures Monotone(DefaultDrivers(g))
  {
    var d := DefaultDrivers(g);
    forall n, e, role, p, q | Looser(p, q)
      ensures Looser(d.childPerm(n, e, role, p), d.childPerm(n, e, role, q))
    {
      if n in g.nodes { DefaultPermsMonotone(g.nodes[n], role, p, q); }
    }
  }

  lemma LooserUsers(g: Graph, g0: Graph, d: Drivers, n: NodeId)
    requires LooserGraph(g, g0) && n in g.nodes && Monotone(d)
    requires g.nodes[n].parents <= g.edges.Keys
    ensures Looser(Cumulative(g, n), Cumulative(g0, n))
    ensures UsersOk(g0, d, n) ==> UsersOk(g, d, n)
  {
    forall e | e in g.edges
      ensures g.edges[e].perm <= g0.edges[e].perm && g0.edges[e].shared <= g.edges[e].shared
    {
      assert Looser(EdgePerms(g, e), EdgePerms(g0, e));
    }
    if UsersOk(g0, d, n) {
      forall a, b | a in g.nodes[n].parents && b in g.nodes[n].parents && a != b
        ensures Allows(g, a, b)
      {
        assert Allows(g0, a, b);
      }
    }
  }

  lemma LooserDerive(g: Graph, g0: Graph, d: Drivers, n: NodeId)
    requires LooserGraph(g, g0) && n in g.nodes && Monotone(d)
    requires g.nodes[n].parents <= g.edges.Keys && Derived(g0, d, n)
    ensures LooserGraph(Derive(g, d, n), g0)
  {
    LooserUsers(g, g0, d, n);
    var g1 := Derive(g, d, n);
    forall e | e in g1.edges
      ensures Looser(EdgePerms(g1, e), EdgePerms(g0, e))
    {
      if Derives(g.nodes[n]) && e in g.nodes[n].children {
        assert EdgePerms(g0, e) == ChildPerm(g0, d, n, e, Cumulative(g0, n));
        assert Looser(d.childPerm(n, e, g.edges[e].role, Cumulative(g, n)),
                      d.childPerm(n, e, g.edges[e].role, Cumulative(g0, n)));
      }
    }
  }

  lemma {:induction false} LooserPropagate(g: Graph, g0: Graph, d: Drivers, list: seq<NodeId>)
    requires LooserGraph(g, g0) && Monotone(d) && Linked(g)
    requires forall n :: n in list ==> n in g.nodes && Derived(g0, d, n)
    ensures LooserGraph(Propagate(g, d, list), g0)
    decreases |list|
  {
    if list != [] {
      var g1 := Derive(g, d, list[0]);
      assert NodeOk(g, list[0]);
      LooserDerive(g, g0, d, list[0]);
      SameStructure(g, g1);
      LooserPropagate(g1, g0, d, list[1..]);
    }
  }

  /**
  Loosening a graph whose permissions were in order makes every edge below looser, and raises no conflict,
  no read-only error and no refusal of a driver.  It goes through whenever the sizes of the images are aligned;
  in general it goes through if and only if no image whose size is not aligned is left with writers none of
  which may resize it.
  */
  lemma LooseningRefresh(g0: Graph, g: Graph, d: Drivers, list: seq<NodeId>)
    requires Linked(g) && Sorted(g, list) && LooserGraph(g, g0) && Monotone(d)
    requires forall n :: n in list ==> UsersOk(g0, d, n) && Derived(g0, d, n)
    ensures LooserGraph(Propagate(g, d, list), g0)
    ensures forall n :: n in list ==> UsersOk(Propagate(g, d, list), d, n)
    ensures (forall n :: n in list ==> g.nodes[n].sizeAligned) ==> Refresh(g, d, list) == Done(Propagate(g, d, list))
    ensures Refresh(g, d, list).Done? <==>
            forall n :: n in list ==> SizeOk(g.nodes[n], Cumulative(Propagate(g, d, list), n))
  {
    var final := Propagate(g, d, list);
    PropagateFrame(g, d, list);
    LooserPropagate(g, g0, d, list);
    RefreshDecides(g, d, list);
    forall n | n in list
      ensures UsersOk(final, d, n)
    {
      assert NodeOk(g, n);
      LooserUsers(final, g0, d, n);
    }
  }

  /** The size check is the one check that loosening can fail: taking away the only user that may resize. */
  lemma UnalignedLooseningFails()
    ensures
      var rw := Edge(OfRoot, Role(false, false, false, false, false), Some(0), {Write}, ALL_PERMS, false, false);
      var rs := rw.(perm := {Resize});
      var node := Node(None, true, false, false, false, false, {1, 2}, {}, None, None);
      var g0 := Graph(map[0 := node], map[1 := rw, 2 := rs]);
      var g := Graph(map[0 := node.(parents := {1})], map[1 := rw]);
      var d := DefaultDrivers(g0);
      LooserGraph(g, g0) && Permitted(g0, d, 0) && Derived(g0, d, 0) && Refresh(g, d, [0]).Refused?
  {
    var rw := Edge(OfRoot, Role(false, false, false, false, false), Some(0), {Write}, ALL_PERMS, false, false);
    var rs := rw.(perm := {Resize});
    var node := Node(None, true, false, false, false, false, {1, 2}, {}, None, None);
    var g0 := Graph(map[0 := node], map[1 := rw, 2 := rs]);
    var g := Graph(map[0 := node.(parents := {1})], map[1 := rw]);
    forall x: Perm { AllPerms(x); }
    assert 2 in g0.nodes[0].parents && Resize in g0.edges[2].perm;
    assert Resize in Cumulative(g0, 0).perm;
    assert 1 in g.nodes[0].parents && Write in g.edges[1].perm;
    assert Write in Cumulative(g, 0).perm && Resize !in Cumulative(g, 0).perm;
    assert !SizeOk(g.nodes[0], Cumulative(g, 0));
  }
}
