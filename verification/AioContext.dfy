/**
Moving nodes to another AioContext: a recursion over the edges of the graph that collects what has to
move, and a transaction that moves all of it or nothing.
*/
module AioContexts {
  import opened BlockGraph
  import Topology

  type Ctx = nat

  /** A request to move: the graph, the contexts so far, the users that accept a move, the edges not to follow. */
  datatype Setting = Setting(
    g: Graph, nodeCtx: map<NodeId, Ctx>, movable: set<EdgeId>, target: Ctx, ignored: set<EdgeId>)

  /** The actions in the transaction: bdrv_set_aio_context, child_job_set_aio_ctx and blk_root_set_aio_ctx. */
  datatype Move = MoveNode(node: NodeId) | MoveJob(job: nat) | MoveRoot(edge: EdgeId)

  /** The contexts of nodes, of jobs and of users other than nodes and jobs. */
  datatype Contexts = Contexts(nodes: map<NodeId, Ctx>, jobs: map<nat, Ctx>, roots: map<EdgeId, Ctx>)

  function Get(x: Contexts, m: Move): Option<Ctx> {
    match m
    case MoveNode(n) => if n in x.nodes then Some(x.nodes[n]) else None
    case MoveJob(j) => if j in x.jobs then Some(x.jobs[j]) else None
    case MoveRoot(e) => if e in x.roots then Some(x.roots[e]) else None
  }

  /** The commit callback of a move. */
  function Apply(x: Contexts, m: Move, ctx: Ctx): Contexts {
    match m
    case MoveNode(n) => x.(nodes := x.nodes[n := ctx])
    case MoveJob(j) => x.(jobs := x.jobs[j := ctx])
    case MoveRoot(e) => x.(roots := x.roots[e := ctx])
  }

  /** tran_commit, which walks the moves from the last to the first. */
  function ApplyAll(x: Contexts, moves: seq<Move>, ctx: Ctx): Contexts
    decreases |moves|
  {
    if moves == [] then x else ApplyAll(Apply(x, moves[|moves| - 1], ctx), moves[..|moves| - 1], ctx)
  }

  lemma {:induction false} ApplyAllMoves(x: Contexts, moves: seq<Move>, ctx: Ctx, m: Move)
    ensures Get(ApplyAll(x, moves, ctx), m) == if m in moves then Some(ctx) else Get(x, m)
    decreases |moves|
  {
    if moves != [] {
      ApplyAllMoves(Apply(x, moves[|moves| - 1], ctx), moves[..|moves| - 1], ctx, m);
      assert moves == moves[..|moves| - 1] + [moves[|moves| - 1]];
    }
  }

  ghost predicate Sensible(s: Setting) {
    Linked(s.g) && s.nodeCtx.Keys == s.g.nodes.Keys && s.ignored <= s.g.edges.Keys
  }

  predicate There(s: Setting, n: NodeId) {
    n in s.nodeCtx && s.nodeCtx[n] == s.target
  }

  /** Edge `e` exists, is not to be ignored and points to node `n`. */
  predicate Points(s: Setting, e: EdgeId, n: NodeId) {
    e in s.g.edges && e !in s.ignored && s.g.edges[e].bs == Some(n)
  }

  /** The nodes are tied together by an edge between them or by a job that uses both. */
  ghost predicate Tied(s: Setting, a: NodeId, b: NodeId) {
    || (exists e :: Points(s, e, b) && s.g.edges[e].owner == OfNode(a))
    || (exists e :: Points(s, e, a) && s.g.edges[e].owner == OfNode(b))
    || (exists e, f ::
         Points(s, e, a) && Points(s, f, b) && s.g.edges[e].owner.OfJob? && s.g.edges[f].owner == s.g.edges[e].owner)
  }

  /** Every node tied to a node of `c` that is not in the target context yet is in `c`. */
  ghost predicate Whole(s: Setting, c: set<NodeId>) {
    forall a, b {:trigger Tied(s, a, b)} ::
      a in c && a in s.g.nodes && !There(s, a) && b in s.g.nodes && Tied(s, a, b) ==> b in c
  }

  /** The nodes that have to be in the target context once `n` is: the least whole set that contains it. */
  ghost function Component(s: Setting, n: NodeId): set<NodeId> {
    set m | m in s.g.nodes && forall c: set<NodeId> {:trigger Whole(s, c)} :: Whole(s, c) && n in c ==> m in c
  }

  lemma ComponentIsWhole(s: Setting, n: NodeId)
    requires n in s.g.nodes
    ensures n in Component(s, n) && Whole(s, Component(s, n))
  {
  }

  /** A user on node `n` does not accept the move. */
  ghost predicate Blocked(s: Setting, e: EdgeId, n: NodeId) {
    Points(s, e, n) && s.g.edges[e].owner.OfRoot? && e !in s.movable
  }

  /** Some node of `c` that is to move has a user that does not accept it. */
  ghost predicate Stuck(s: Setting, c: set<NodeId>) {
    exists e, n :: n in c && n in s.g.nodes && !There(s, n) && Blocked(s, e, n)
  }

  // ---------------------------------------------------------------------------------------------
  // The recursion's invariant

  /** The node moves, or is being dealt with further up the stack, or is there already. */
  predicate Handled(s: Setting, moves: seq<Move>, active: set<NodeId>, n: NodeId) {
    MoveNode(n) in moves || n in active || There(s, n)
  }

  predicate HandledOwner(s: Setting, moves: seq<Move>, active: set<NodeId>, jobs: set<nat>, e: EdgeId)
    requires e in s.g.edges
  {
    match s.g.edges[e].owner
    case OfNode(p) => Handled(s, moves, active, p)
    case OfJob(j) => MoveJob(j) in moves || j in jobs
    case OfRoot => MoveRoot(e) in moves
  }

  /** Both ends of a visited edge are taken care of. */
  predicate EdgeDone(s: Setting, moves: seq<Move>, active: set<NodeId>, jobs: set<nat>, e: EdgeId)
    requires e in s.g.edges
  {
    && HandledOwner(s, moves, active, jobs, e)
    && (s.g.edges[e].bs.Some? ==> Handled(s, moves, active, s.g.edges[e].bs.value))
  }

  /** A recorded move has its edges visited. */
  ghost predicate MoveDone(s: Setting, visited: set<EdgeId>, m: Move) {
    match m
    case MoveNode(n) => n in s.g.nodes && s.g.nodes[n].parents <= visited && s.g.nodes[n].children <= visited
    case MoveJob(j) => forall e :: e in s.g.edges && s.g.edges[e].owner == OfJob(j) && s.g.edges[e].bs.Some? ==>
      e in visited
    case MoveRoot(_) => true
  }

  /** A node of `c` that is to move, or a job or user of one. */
  ghost predicate Wanted(s: Setting, c: set<NodeId>, m: Move) {
    match m
    case MoveNode(n) => n in c && !There(s, n)
    case MoveJob(j) => exists e, n :: n in c && !There(s, n) && Points(s, e, n) && s.g.edges[e].owner == OfJob(j)
    case MoveRoot(e) => exists n :: n in c && !There(s, n) && Points(s, e, n) && s.g.edges[e].owner.OfRoot?
  }

  /** A recorded move has a reason, and the user concerned accepts it. */
  ghost predicate Justified(s: Setting, c: set<NodeId>, m: Move) {
    Wanted(s, c, m) && (m.MoveRoot? ==> m.edge in s.movable)
  }

  ghost predicate Inv(
      s: Setting, c: set<NodeId>, visited: set<EdgeId>, moves: seq<Move>, active: set<NodeId>, jobs: set<nat>) {
    && s.ignored <= visited <= s.g.edges.Keys && active <= c
    && (forall e {:trigger EdgeDone(s, moves, active, jobs, e)} :: e in visited && e !in s.ignored ==>
         EdgeDone(s, moves, active, jobs, e))
    && (forall m {:trigger MoveDone(s, visited, m)} :: m in moves ==> MoveDone(s, visited, m))
    && (forall m {:trigger Justified(s, c, m)} :: m in moves ==> Justified(s, c, m))
  }

  /** What is done stays done when more is visited and more moves are recorded. */
  lemma MoreIsDone(
      s: Setting, moves: seq<Move>, moves2: seq<Move>, active: set<NodeId>, jobs: set<nat>, active2: set<NodeId>,
      jobs2: set<nat>, e: EdgeId)
    requires e in s.g.edges && EdgeDone(s, moves, active, jobs, e) && (forall m :: m in moves ==> m in moves2)
    requires forall n :: n in active ==> Handled(s, moves2, active2, n)
    requires forall j :: j in jobs ==> MoveJob(j) in moves2 || j in jobs2
    ensures EdgeDone(s, moves2, active2, jobs2, e)
  {
  }

  /** Visiting an edge whose ends are taken care of. */
  lemma VisitKeepsInv(
      s: Setting, c: set<NodeId>, visited: set<EdgeId>, moves: seq<Move>, active: set<NodeId>, jobs: set<nat>,
      e: EdgeId)
    requires Inv(s, c, visited, moves, active, jobs) && e in s.g.edges && EdgeDone(s, moves, active, jobs, e)
    ensures Inv(s, c, visited + {e}, moves, active, jobs)
  {
    forall m | m in moves ensures MoveDone(s, visited + {e}, m) { assert MoveDone(s, visited, m); }
    forall x | x in visited + {e} && x !in s.ignored
      ensures EdgeDone(s, moves, active, jobs, x)
    {
    }
  }

  /** Recording a move, and taking what it settles off the stack. */
  lemma RecordKeepsInv(
      s: Setting, c: set<NodeId>, visited: set<EdgeId>, moves: seq<Move>,
      active: set<NodeId>, jobs: set<nat>, active2: set<NodeId>, jobs2: set<nat>, m: Move)
    requires Inv(s, c, visited, moves, active, jobs) && MoveDone(s, visited, m) && Justified(s, c, m)
    requires active2 <= c
    requires forall n :: n in active ==> n in active2 || m == MoveNode(n)
    requires forall j :: j in jobs ==> j in jobs2 || m == MoveJob(j)
    ensures Inv(s, c, visited, moves + [m], active2, jobs2)
  {
    forall e | e in visited && e !in s.ignored
      ensures EdgeDone(s, moves + [m], active2, jobs2, e)
    {
      assert EdgeDone(s, moves, active, jobs, e);
      MoreIsDone(s, moves, moves + [m], active, jobs, active2, jobs2, e);
    }
    forall x | x in moves + [m] ensures MoveDone(s, visited, x) { }
    forall x | x in moves + [m] ensures Justified(s, c, x) { }
  }

  /** Putting more on the stack, or taking off what is handled anyway. */
  lemma StackKeepsInv(
      s: Setting, c: set<NodeId>, visited: set<EdgeId>, moves: seq<Move>,
      active: set<NodeId>, jobs: set<nat>, active2: set<NodeId>, jobs2: set<nat>)
    requires Inv(s, c, visited, moves, active, jobs) && active2 <= c
    requires forall n :: n in active ==> Handled(s, moves, active2, n)
    requires forall j :: j in jobs ==> MoveJob(j) in moves || j in jobs2
    ensures Inv(s, c, visited, moves, active2, jobs2)
  {
    forall e | e in visited && e !in s.ignored
      ensures EdgeDone(s, moves, active2, jobs2, e)
    {
      assert EdgeDone(s, moves, active, jobs, e);
      MoreIsDone(s, moves, moves, active, jobs, active2, jobs2, e);
    }
  }

  lemma FewerUnvisited(all: set<EdgeId>, visited: set<EdgeId>, visited2: set<EdgeId>)
    requires visited <= visited2
    ensures |all - visited2| <= |all - visited|
    ensures (exists e :: e in all && e in visited2 && e !in visited) ==> |all - visited2| < |all - visited|
  {
    Topology.SubsetSizeWeak(all - visited2, all - visited);
    if e :| e in all && e in visited2 && e !in visited {
      assert e in all - visited && e !in all - visited2;
      Topology.SubsetSize(all - visited2, all - visited);
    }
  }

  lemma TiedIsInside(s: Setting, c: set<NodeId>, a: NodeId, b: NodeId)
    requires Whole(s, c) && a in c && a in s.g.nodes && !There(s, a) && b in s.g.nodes && Tied(s, a, b)
    ensures b in c
  {
  }

  // ---------------------------------------------------------------------------------------------
  // The recursion

  class ContextChange {
    const g: Graph
    const movable: set<EdgeId>      // edges of users whose change_aio_ctx callback is there and accepts
    var x: Contexts
    var visited: set<EdgeId>
    var moves: seq<Move>

    constructor (g: Graph, movable: set<EdgeId>, x: Contexts)
      ensures this.g == g && this.movable == movable && this.x == x
    {
      this.g, this.movable, this.x := g, movable, x;
      visited, moves := {}, [];
    }

    /** The recursion is working on the request `s`, and the nodes it may reach are those of `c`. */
    ghost predicate At(s: Setting, ctx: Ctx, c: set<NodeId>, active: set<NodeId>, jobs: set<nat>)
      reads this
    {
      && s.g == g && s.nodeCtx == x.nodes && s.movable == movable && s.target == ctx
      && Sensible(s) && Whole(s, c) && c <= g.nodes.Keys && Inv(s, c, visited, moves, active, jobs)
    }

    /** bdrv_change_aio_context */
    method ChangeNode(
        bs: NodeId, ctx: Ctx, ghost s: Setting, ghost c: set<NodeId>, ghost active: set<NodeId>, ghost jobs: set<nat>)
      returns (ok: bool)
      requires At(s, ctx, c, active, jobs) && bs in active
      modifies this`visited, this`moves
      ensures old(visited) <= visited && forall m :: m in old(moves) ==> m in moves
      ensures ok ==> At(s, ctx, c, active, jobs) && (MoveNode(bs) in moves || There(s, bs))
      ensures !ok ==> Stuck(s, c)
      decreases |g.edges.Keys - visited|, 1
    {
      if x.nodes[bs] == ctx {
        return true;
      }
      assert NodeOk(g, bs);
      var rest := g.nodes[bs].parents;
      while rest != {}
        invariant rest <= g.nodes[bs].parents && g.nodes[bs].parents - rest <= visited
        invariant At(s, ctx, c, active, jobs) && old(visited) <= visited && forall m :: m in old(moves) ==> m in moves
        decreases rest
      {
        var e :| e in rest;
        rest := rest - {e};
        FewerUnvisited(g.edges.Keys, old(visited), visited);
        ok := ChangeParent(e, bs, ctx, s, c, active, jobs);
        if !ok { return; }
      }
      rest := g.nodes[bs].children;
      while rest != {}
        invariant rest <= g.nodes[bs].children && g.nodes[bs].children - rest <= visited
        invariant g.nodes[bs].parents <= visited
        invariant At(s, ctx, c, active, jobs) && old(visited) <= visited && forall m :: m in old(moves) ==> m in moves
        decreases rest
      {
        var e :| e in rest;
        rest := rest - {e};
        FewerUnvisited(g.edges.Keys, old(visited), visited);
        ChildIsInside(s, c, bs, e);
        ok := ChangeChild(e, ctx, s, c, active, jobs);
        if !ok { return; }
      }
      RecordKeepsInv(s, c, visited, moves, active, jobs, active, jobs, MoveNode(bs));
      moves := moves + [MoveNode(bs)];
      ok := true;
    }

    /** bdrv_child_change_aio_context */
    method ChangeChild(
        e: EdgeId, ctx: Ctx, ghost s: Setting, ghost c: set<NodeId>, ghost active: set<NodeId>, ghost jobs: set<nat>)
      returns (ok: bool)
      requires At(s, ctx, c, active, jobs)
      requires e in g.edges && g.edges[e].bs.Some? && HandledOwner(s, moves, active, jobs, e)
      requires e !in s.ignored ==> g.edges[e].bs.value in c
      modifies this`visited, this`moves
      ensures old(visited) <= visited && e in visited && forall m :: m in old(moves) ==> m in moves
      ensures ok ==> At(s, ctx, c, active, jobs)
      ensures !ok ==> Stuck(s, c)
      decreases |g.edges.Keys - visited|, 0
    {
      if e in visited {
        return true;
      }
      var t := g.edges[e].bs.value;
      StackKeepsInv(s, c, visited, moves, active, jobs, active + {t}, jobs);
      VisitKeepsInv(s, c, visited, moves, active + {t}, jobs, e);
      FewerUnvisited(g.edges.Keys, visited, visited + {e});
      visited := visited + {e};
      ok := ChangeNode(t, ctx, s, c, active + {t}, jobs);
      if ok { StackKeepsInv(s, c, visited, moves, active + {t}, jobs, active, jobs); }
    }

    /** bdrv_parent_change_aio_context with the callbacks of its three kinds of users, for an edge to `bs`. */
    method ChangeParent(
        e: EdgeId, ghost bs: NodeId, ctx: Ctx, ghost s: Setting, ghost c: set<NodeId>, ghost active: set<NodeId>,
        ghost jobs: set<nat>)
      returns (ok: bool)
      requires At(s, ctx, c, active, jobs)
      requires e in g.edges && g.edges[e].bs == Some(bs) && bs in active && !There(s, bs)
      modifies this`visited, this`moves
      ensures old(visited) <= visited && e in visited && forall m :: m in old(moves) ==> m in moves
      ensures ok ==> At(s, ctx, c, active, jobs)
      ensures !ok ==> Stuck(s, c)
      decreases |g.edges.Keys - visited|, 0
    {
      if e in visited {
        return true;
      }
      assert Points(s, e, bs);
      FewerUnvisited(g.edges.Keys, visited, visited + {e});
      match g.edges[e].owner {
        case OfRoot =>
          visited := visited + {e};
          if e !in movable {
            assert Blocked(s, e, bs);
            return false;
          }
          RecordKeepsInv(s, c, old(visited), moves, active, jobs, active, jobs, MoveRoot(e));
          moves := moves + [MoveRoot(e)];
          VisitKeepsInv(s, c, old(visited), moves, active, jobs, e);
          ok := true;
        case OfNode(p) =>
          assert EdgeOk(g, e);
          assert Tied(s, bs, p);
          TiedIsInside(s, c, bs, p);
          StackKeepsInv(s, c, visited, moves, active, jobs, active + {p}, jobs);
          VisitKeepsInv(s, c, visited, moves, active + {p}, jobs, e);
          visited := visited + {e};
          ok := ChangeNode(p, ctx, s, c, active + {p}, jobs);
          if ok { StackKeepsInv(s, c, visited, moves, active + {p}, jobs, active, jobs); }
        case OfJob(j) =>
          StackKeepsInv(s, c, visited, moves, active, jobs, active, jobs + {j});
          VisitKeepsInv(s, c, visited, moves, active, jobs + {j}, e);
          visited := visited + {e};
          ok := ChangeJob(e, j, bs, ctx, s, c, active, jobs + {j});
          if ok { StackKeepsInv(s, c, visited, moves, active, jobs + {j}, active, jobs); }
      }
    }

    /** child_job_change_aio_ctx: the job of edge `e` moves with all the nodes it uses. */
    method ChangeJob(
        ghost e: EdgeId, j: nat, ghost bs: NodeId, ctx: Ctx, ghost s: Setting, ghost c: set<NodeId>,
        ghost active: set<NodeId>, ghost jobs: set<nat>)
      returns (ok: bool)
      requires At(s, ctx, c, active, jobs) && j in jobs
      requires Points(s, e, bs) && g.edges[e].owner == OfJob(j) && bs in c && !There(s, bs)
      modifies this`visited, this`moves
      ensures old(visited) <= visited && forall m :: m in old(moves) ==> m in moves
      ensures ok ==> At(s, ctx, c, active, jobs) && MoveJob(j) in moves
      ensures !ok ==> Stuck(s, c)
      decreases |g.edges.Keys - visited|, 2
    {
      var nodes := set x | x in g.edges && g.edges[x].owner == OfJob(j) && g.edges[x].bs.Some?;
      var rest := nodes;
      while rest != {}
        invariant rest <= nodes && nodes - rest <= visited
        invariant At(s, ctx, c, active, jobs) && old(visited) <= visited && forall m :: m in old(moves) ==> m in moves
        decreases rest
      {
        var sibling :| sibling in rest;
        rest := rest - {sibling};
        FewerUnvisited(g.edges.Keys, old(visited), visited);
        SiblingIsInside(s, c, bs, e, sibling);
        ok := ChangeChild(sibling, ctx, s, c, active, jobs);
        if !ok { return; }
      }
      RecordKeepsInv(s, c, visited, moves, active, jobs, active, jobs, MoveJob(j));
      moves := moves + [MoveJob(j)];
      ok := true;
    }

    /**
    bdrv_try_change_aio_context_locked: moves exactly the nodes that must be in the new context together with
    `bs`, and their jobs and users, or nothing at all if one of these users does not accept it.
    */
    method TryChange(bs: NodeId, ctx: Ctx, ignore: Option<EdgeId>) returns (ok: bool)
      requires Linked(g) && x.nodes.Keys == g.nodes.Keys && bs in g.nodes && (ignore.Some? ==> ignore.value in g.edges)
      modifies this
      ensures
        var s := Setting(g, old(x).nodes, movable, ctx, if ignore.Some? then {ignore.value} else {});
        && (ok <==> !Stuck(s, Component(s, bs)))
        && (if ok then Moved(s, Component(s, bs), old(x), x) else x == old(x))
      ensures ignore.None? && Uniform(g, old(x)) ==> Uniform(g, x)
      ensures
        var s := Setting(g, old(x).nodes, movable, ctx, if ignore.Some? then {ignore.value} else {});
        ok && Uniform(g, old(x)) && old(x).nodes[bs] != ctx ==>
          forall n :: n in g.nodes ==>
            Get(x, MoveNode(n)) == if Connected(s, bs, n) then Some(ctx) else Get(old(x), MoveNode(n))
    {
      visited, moves := {}, [];
      if ignore.Some? { visited := {ignore.value}; }
      ghost var s := Setting(g, x.nodes, movable, ctx, visited);
      ghost var c := Component(s, bs);
      ComponentIsWhole(s, bs);
      ok := ChangeNode(bs, ctx, s, c, {bs}, {});
      if !ok {
        return;
      }
      StackKeepsInv(s, c, visited, moves, {bs}, {}, {}, {});
      Complete(s, bs, visited, moves);
      forall m { ApplyAllMoves(x, moves, ctx, m); }
      label Found:
      while moves != []
        invariant ApplyAll(x, moves, ctx) == ApplyAll(old(x), old@Found(moves), ctx)
        decreases |moves|
      {
        x := Apply(x, moves[|moves| - 1], ctx);
        moves := moves[..|moves| - 1];
      }
      if ignore.None? && Uniform(g, old(x)) {
        UniformStays(s, bs, old(x), x);
      }
      if Uniform(g, old(x)) && !There(s, bs) {
        forall n | n in g.nodes
          ensures Get(x, MoveNode(n)) == if Connected(s, bs, n) then Some(ctx) else Get(old(x), MoveNode(n))
        {
          ComponentIsConnected(s, old(x), bs, n);
        }
      }
    }
  }

  /** Everything in `c` is in the target context together with its jobs and users, and nothing else has moved. */
  ghost predicate Moved(s: Setting, c: set<NodeId>, x0: Contexts, x: Contexts) {
    forall m :: Get(x, m) == if Wanted(s, c, m) then Some(s.target) else Get(x0, m)
  }

  /** Both ends of edge `e` are in one context. */
  predicate Agrees(g: Graph, x: Contexts, e: EdgeId)
    requires e in g.edges
  {
    g.edges[e].bs.Some? ==>
      match g.edges[e].owner
      case OfNode(p) => Get(x, MoveNode(p)) == Get(x, MoveNode(g.edges[e].bs.value))
      case OfJob(j) => Get(x, MoveJob(j)) == Get(x, MoveNode(g.edges[e].bs.value))
      case OfRoot => Get(x, MoveRoot(e)) == Get(x, MoveNode(g.edges[e].bs.value))
  }

  /** Nodes tied together, their jobs and their users are in one context. */
  ghost predicate Uniform(g: Graph, x: Contexts) {
    forall e {:trigger Agrees(g, x, e)} :: e in g.edges ==> Agrees(g, x, e)
  }

  /** When nothing is left on the stack, exactly the component and its users are to move, and all of these accept. */
  lemma Complete(s: Setting, start: NodeId, visited: set<EdgeId>, moves: seq<Move>)
    requires Sensible(s) && start in s.g.nodes && Inv(s, Component(s, start), visited, moves, {}, {})
    requires MoveNode(start) in moves || There(s, start)
    ensures forall m :: m in moves <==> Wanted(s, Component(s, start), m)
    ensures !Stuck(s, Component(s, start))
  {
    var c := Component(s, start);
    ReachedIsWhole(s, c, visited, moves);
    forall n | n in c && !There(s, n)
      ensures MoveNode(n) in moves
    {
      assert n in Reached(s, moves);
    }
    forall n, e | n in c && !There(s, n) && Points(s, e, n)
      ensures EdgeDone(s, moves, {}, {}, e)
    {
      VisitedEdge(s, c, visited, moves, n, e);
    }
    forall m
      ensures m in moves <==> Wanted(s, c, m)
    {
      if m in moves { assert Justified(s, c, m); }
    }
    forall e, n | n in c && !There(s, n) && Points(s, e, n) && s.g.edges[e].owner.OfRoot?
      ensures e in s.movable
    {
      assert MoveRoot(e) in moves;
      assert Justified(s, c, MoveRoot(e));
    }
  }

  ghost function Reached(s: Setting, moves: seq<Move>): set<NodeId> {
    set n | n in s.g.nodes && (MoveNode(n) in moves || There(s, n))
  }

  lemma VisitedEdge(s: Setting, c: set<NodeId>, visited: set<EdgeId>, moves: seq<Move>, n: NodeId, e: EdgeId)
    requires Sensible(s) && Inv(s, c, visited, moves, {}, {})
    requires MoveNode(n) in moves && e in s.g.edges && e !in s.ignored
    requires s.g.edges[e].bs == Some(n) || (s.g.edges[e].owner == OfNode(n) && s.g.edges[e].bs.Some?)
    ensures e in visited && EdgeDone(s, moves, {}, {}, e)
  {
    assert MoveDone(s, visited, MoveNode(n));
    assert NodeOk(s.g, n);
    assert s.g.edges[e].bs == Some(n) ==> e in EdgesTo(s.g, n);
    assert s.g.edges[e].owner == OfNode(n) ==> e in EdgesFrom(s.g, n);
  }

  lemma ReachedIsWhole(s: Setting, c: set<NodeId>, visited: set<EdgeId>, moves: seq<Move>)
    requires Sensible(s) && Inv(s, c, visited, moves, {}, {})
    ensures Whole(s, Reached(s, moves))
  {
    forall a, b | a in Reached(s, moves) && a in s.g.nodes && !There(s, a) && b in s.g.nodes && Tied(s, a, b)
      ensures b in Reached(s, moves)
    {
      if e :| Points(s, e, b) && s.g.edges[e].owner == OfNode(a) {
        VisitedEdge(s, c, visited, moves, a, e);
      } else if e :| Points(s, e, a) && s.g.edges[e].owner == OfNode(b) {
        VisitedEdge(s, c, visited, moves, a, e);
      } else {
        var e, f :|
          Points(s, e, a) && Points(s, f, b) && s.g.edges[e].owner.OfJob? && s.g.edges[f].owner == s.g.edges[e].owner;
        VisitedEdge(s, c, visited, moves, a, e);
        assert MoveDone(s, visited, MoveJob(s.g.edges[e].owner.job));
        assert EdgeDone(s, moves, {}, {}, f);
      }
    }
  }

  /** A move that ignores no edge keeps tied nodes, their jobs and their users together. */
  lemma UniformStays(s: Setting, start: NodeId, x0: Contexts, x: Contexts)
    requires Sensible(s) && s.ignored == {} && s.nodeCtx == x0.nodes && start in s.g.nodes
    requires Moved(s, Component(s, start), x0, x) && Uniform(s.g, x0)
    ensures Uniform(s.g, x)
  {
    var c := Component(s, start);
    ComponentIsWhole(s, start);
    forall e | e in s.g.edges
      ensures Agrees(s.g, x, e)
    {
      if s.g.edges[e].bs.Some? { UniformEdge(s, c, x0, x, e); }
    }
  }

  lemma UniformEdge(s: Setting, c: set<NodeId>, x0: Contexts, x: Contexts, e: EdgeId)
    requires Sensible(s) && s.ignored == {} && s.nodeCtx == x0.nodes && c <= s.g.nodes.Keys && Whole(s, c)
    requires Moved(s, c, x0, x) && Uniform(s.g, x0) && e in s.g.edges && s.g.edges[e].bs.Some?
    ensures Agrees(s.g, x, e)
  {
    var t := s.g.edges[e].bs.value;
    assert EdgeOk(s.g, e) && Points(s, e, t) && Agrees(s.g, x0, e);
    match s.g.edges[e].owner
    case OfNode(p) => assert Tied(s, p, t) && Tied(s, t, p);
    case OfJob(j) =>
      if Wanted(s, c, MoveJob(j)) {
        var e2, n :| n in c && !There(s, n) && Points(s, e2, n) && s.g.edges[e2].owner == OfJob(j);
        assert Tied(s, n, t);
      }
    case OfRoot =>
  }

  /** A way from `a` to `b` over ties. */
  ghost predicate IsPath(s: Setting, path: seq<NodeId>, a: NodeId, b: NodeId) {
    && |path| > 0 && path[0] == a && path[|path| - 1] == b && (forall i :: 0 <= i < |path| ==> path[i] in s.g.nodes)
    && forall i, j {:trigger path[i], path[j]} :: 0 <= i < |path| - 1 && j == i + 1 ==> Tied(s, path[i], path[j])
  }

  ghost predicate Connected(s: Setting, a: NodeId, b: NodeId) {
    exists path :: IsPath(s, path, a, b)
  }

  /** Tied nodes are in one context. */
  lemma TiedIsUniform(s: Setting, x: Contexts, a: NodeId, b: NodeId)
    requires Sensible(s) && s.nodeCtx == x.nodes && Uniform(s.g, x) && a in s.g.nodes && b in s.g.nodes && Tied(s, a, b)
    ensures s.nodeCtx[a] == s.nodeCtx[b]
  {
    if e :| Points(s, e, b) && s.g.edges[e].owner == OfNode(a) {
      assert Agrees(s.g, x, e);
    } else if e :| Points(s, e, a) && s.g.edges[e].owner == OfNode(b) {
      assert Agrees(s.g, x, e);
    } else {
      var e, f :|
        Points(s, e, a) && Points(s, f, b) && s.g.edges[e].owner.OfJob? && s.g.edges[f].owner == s.g.edges[e].owner;
      assert Agrees(s.g, x, e) && Agrees(s.g, x, f);
    }
  }

  /** A path from a node that is to move stays in its component, and all of it is to move. */
  lemma {:induction false} PathIsInside(s: Setting, x: Contexts, path: seq<NodeId>, a: NodeId, b: NodeId)
    requires Sensible(s) && s.nodeCtx == x.nodes && Uniform(s.g, x) && !There(s, a) && IsPath(s, path, a, b)
    ensures b in Component(s, a) && !There(s, b)
    decreases |path|
  {
    ComponentIsWhole(s, a);
    if |path| > 1 {
      var n := |path| - 1;
      var before := path[n - 1];
      assert IsPath(s, path[..n], a, before);
      PathIsInside(s, x, path[..n], a, before);
      assert Tied(s, before, b);
      TiedIsInside(s, Component(s, a), before, b);
      TiedIsUniform(s, x, before, b);
    }
  }

  lemma PathExtends(s: Setting, a: NodeId, b: NodeId, c: NodeId)
    requires Connected(s, a, b) && Tied(s, b, c) && c in s.g.nodes
    ensures Connected(s, a, c)
  {
    var path :| IsPath(s, path, a, b);
    assert IsPath(s, path + [c], a, c);
  }

  /**
  If tied nodes share a context, what has to move together with a node that is not in the target context yet is
  everything connected with it by ties, and none of it is there.
  */
  lemma ComponentIsConnected(s: Setting, x: Contexts, bs: NodeId, n: NodeId)
    requires Sensible(s) && s.nodeCtx == x.nodes && Uniform(s.g, x)
    requires bs in s.g.nodes && n in s.g.nodes && !There(s, bs)
    ensures n in Component(s, bs) <==> Connected(s, bs, n)
    ensures n in Component(s, bs) ==> !There(s, n)
  {
    var c := set m | m in s.g.nodes && Connected(s, bs, m);
    assert IsPath(s, [bs], bs, bs);
    forall a, b | a in c && b in s.g.nodes && Tied(s, a, b) ensures b in c { PathExtends(s, bs, a, b); }
    assert Whole(s, c) && bs in c;
    if Connected(s, bs, n) {
      var path :| IsPath(s, path, bs, n);
      PathIsInside(s, x, path, bs, n);
    }
  }

  lemma ChildIsInside(s: Setting, c: set<NodeId>, n: NodeId, e: EdgeId)
    requires Sensible(s) && Whole(s, c) && n in c && n in s.g.nodes && !There(s, n) && e in s.g.nodes[n].children
    ensures e in s.g.edges && s.g.edges[e].owner == OfNode(n) && s.g.edges[e].bs.Some?
    ensures e !in s.ignored ==> s.g.edges[e].bs.value in c
  {
    assert NodeOk(s.g, n);
    assert e in EdgesFrom(s.g, n);
    assert EdgeOk(s.g, e);
    if e !in s.ignored {
      assert Points(s, e, s.g.edges[e].bs.value);
      TiedIsInside(s, c, n, s.g.edges[e].bs.value);
    }
  }

  lemma SiblingIsInside(s: Setting, c: set<NodeId>, n: NodeId, e: EdgeId, f: EdgeId)
    requires Sensible(s) && Whole(s, c) && n in c && n in s.g.nodes && !There(s, n) && Points(s, e, n)
    requires s.g.edges[e].owner.OfJob? && f in s.g.edges
    requires s.g.edges[f].owner == s.g.edges[e].owner && s.g.edges[f].bs.Some?
    ensures f !in s.ignored ==> s.g.edges[f].bs.value in c
  {
    assert EdgeOk(s.g, f);
    if f !in s.ignored {
      assert Points(s, f, s.g.edges[f].bs.value);
      TiedIsInside(s, c, n, s.g.edges[f].bs.value);
    }
  }
}
