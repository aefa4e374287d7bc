/**
Whole runs: users take and drop references, edges are dropped, scheduled unrefs run, and transactions are opened, make
changes one at a time and are committed or rolled back one log entry at a time.
*/
module TransactionRuns {
  import opened BlockGraph
  import opened GraphChanges
  import opened Transactions

  datatype Phase = Outside | Open | RollingBack | Committing

  /** The layer, and the history of the open transaction: where it started and the changes it has made. */
  datatype Session = Session(l: Layer, phase: Phase, base: Layer, done: seq<Change>)

  datatype Action =
    | Begin                                       // tran_new
    | Make(change: Change)
    | Finish(commit: bool)                        // tran_finalize
    | UndoOne | CommitOne                         // the callback of one log entry
    | End
    | RunUnref(node: NodeId)                      // bdrv_schedule_unref_bh
    | TakeRef(node: NodeId) | DropRef(node: NodeId)
    | DropEdge(edge: EdgeId)                      // bdrv_root_unref_child

  ghost predicate CanDrop(l: Layer, e: EdgeId) {
    e in l.g.edges && CanRepoint(l.g, e, None)
  }

  ghost predicate CanAct(s: Session, a: Action) {
    match a
    case Begin => s.phase.Outside?
    case Make(c) => s.phase.Open? && Possible(s.l, c)
    case Finish(_) => s.phase.Open?
    case UndoOne => s.phase.RollingBack? && s.l.log != []
    case CommitOne => s.phase.Committing? && s.l.log != []
    case End => (s.phase.RollingBack? || s.phase.Committing?) && s.l.log == []
    case RunUnref(n) => s.phase.Outside? && n in s.l.scheduled && n in s.l.g.nodes
    case TakeRef(n) => s.phase.Outside? && Live(s.l, n)
    case DropRef(n) => s.phase.Outside? && n in s.l.held && n in s.l.g.nodes
    case DropEdge(e) => s.phase.Outside? && CanDrop(s.l, e)
  }

  function WithRef(l: Layer, n: NodeId): Layer {
    l.(refs := Ref(l.refs, Some(n)), held := l.held + multiset{n})
  }

  function WithoutEdge(l: Layer, e: EdgeId): Layer
    requires e in l.g.edges
  {
    Schedule(l.(g := FreeEdge(Repoint(l.g, e, None), e)), l.g.edges[e].bs)
  }

  ghost function Act(s: Session, a: Action): Session
    requires CanAct(s, a)
  {
    match a
    case Begin => Session(s.l, Open, s.l, [])
    case Make(c) => s.(l := Do(s.l, c), done := s.done + [c])
    case Finish(commit) => s.(phase := if commit then Committing else RollingBack)
    case UndoOne => s.(l := UndoLast(s.l))
    case CommitOne => s.(l := CommitLast(s.l))
    case End => s.(phase := Outside)
    case RunUnref(n) => s.(l := Unref(s.l.(scheduled := s.l.scheduled - multiset{n}), Some(n)))
    case TakeRef(n) => s.(l := WithRef(s.l, n))
    case DropRef(n) => s.(l := Unref(s.l.(held := s.l.held - multiset{n}), Some(n)))
    case DropEdge(e) => s.(l := WithoutEdge(s.l, e))
  }

  // ---------------------------------------------------------------------------------------------
  // Outside transactions

  /** In `l1` a user or a scheduled unref has given up one reference to `n`, which is still counted. */
  ghost predicate GivesUp(l: Layer, l1: Layer, n: NodeId) {
    && l1.g == l.g && l1.refs == l.refs && l1.log == l.log && l1.deleted == l.deleted
    && forall m: NodeId {:trigger l1.scheduled[m]} ::
      l1.held[m] + l1.scheduled[m] + (if m == n then 1 else 0) == l.held[m] + l.scheduled[m]
  }

  /** Dropping a reference that a user or a scheduled unref held. */
  lemma UnrefCounted(l: Layer, l1: Layer, n: NodeId, m: NodeId)
    requires n in l.refs && m in l.refs && m in l.g.nodes && Counted(l, m)
    requires GivesUp(l, l1, n)
    ensures
      var l2 := Unref(l1, Some(n));
      Counted(l2, m) && l2.refs[m] >= l2.scheduled[m]
  {
  }

  lemma UnrefKeepsBalance(l: Layer, l1: Layer, n: NodeId)
    requires Balanced(l) && n in l.g.nodes && l.log == []
    requires GivesUp(l, l1, n)
    ensures Balanced(Unref(l1, Some(n)))
  {
    var l2 := Unref(l1, Some(n));
    forall m | m in l.g.nodes
      ensures Counted(l2, m)
    {
      assert Counted(l, m);
      UnrefCounted(l, l1, n, m);
    }
    UnrefKeepsDeleted(l, l1, n);
  }

  /** A node that is deleted has no references left, before and after. */
  lemma UnrefKeepsDeleted(l: Layer, l1: Layer, n: NodeId)
    requires n in l.refs && n in l.g.nodes && Counted(l, n) && forall m :: m in l.deleted && m in l.refs ==>
      l.refs[m] == 0
    requires GivesUp(l, l1, n)
    ensures
      var l2 := Unref(l1, Some(n));
      forall m :: m in l2.deleted && m in l2.refs ==> l2.refs[m] == 0
  {
    assert l1.scheduled[n] >= 0;
  }

  lemma DropEdgeCounted(l: Layer, e: EdgeId, n: NodeId)
    requires Linked(l.g) && n in l.refs && n in l.g.nodes && CanDrop(l, e) && Counted(l, n)
    ensures
      var l1 := WithoutEdge(l, e);
      n in l1.refs && n in l1.g.nodes && Counted(l1, n) && l1.refs[n] >= l1.scheduled[n]
  {
    var l1, was := WithoutEdge(l, e), l.g.edges[e].bs == Some(n);
    assert |l1.g.nodes[n].parents| == |l.g.nodes[n].parents| - (if was then 1 else 0) by {
      RepointParents(l.g, e, None, n);
    }
    assert l1.scheduled[n] == l.scheduled[n] + (if was then 1 else 0);
  }

  lemma DropEdgeConserves(l: Layer, e: EdgeId)
    requires Conserved(l) && l.log == [] && CanDrop(l, e)
    ensures Conserved(WithoutEdge(l, e))
  {
    DropEdgeLinked(l.g, e);
    forall n | n in l.g.nodes
      ensures n in WithoutEdge(l, e).refs && n in WithoutEdge(l, e).g.nodes && Counted(WithoutEdge(l, e), n)
    {
      DropEdgeCounted(l, e, n);
    }
    DropEdgeBalanced(l, e);
  }

  lemma DropEdgeBalanced(l: Layer, e: EdgeId)
    requires Balanced(l) && l.log == [] && CanDrop(l, e)
    requires forall n :: n in l.g.nodes ==>
      n in WithoutEdge(l, e).refs && n in WithoutEdge(l, e).g.nodes && Counted(WithoutEdge(l, e), n)
    ensures Balanced(WithoutEdge(l, e))
  {
  }

  lemma TakeRefConserves(l: Layer, n: NodeId)
    requires Conserved(l) && l.log == [] && Live(l, n)
    ensures Conserved(WithRef(l, n))
  {
    forall m | m in l.g.nodes ensures Counted(WithRef(l, n), m) { assert Counted(l, m); }
  }

  // ---------------------------------------------------------------------------------------------
  // Inside transactions

  lemma {:induction false} OneMore(l: Layer, cs: seq<Change>, c: Change)
    requires CanDoAll(l, cs) && Possible(DoAll(l, cs), c)
    ensures CanDoAll(l, cs + [c]) && DoAll(l, cs + [c]) == Do(DoAll(l, cs), c)
    decreases |cs|
  {
    if cs == [] {
      assert [c][1..] == [] && cs + [c] == [c];
    } else {
      assert (cs + [c])[0] == cs[0] && (cs + [c])[1..] == cs[1..] + [c];
      OneMore(Do(l, cs[0]), cs[1..], c);
    }
  }

  /**
  The transaction has made the changes `done` since `base`; in a rollback, some of the last have been undone again.
  */
  ghost predicate HistoryOk(s: Session) {
    && Conserved(s.base) && s.base.log == [] && CanDoAll(s.base, s.done)
    && var last := DoAll(s.base, s.done);
       && (s.phase.Open? ==> s.l == last)
       && (s.phase.RollingBack? ==> |s.l.log| <= |last.log| && s.l == Abort(last, |s.l.log|))
  }

  ghost predicate Inv(s: Session) {
    && Conserved(s.l)
    && (s.phase.Outside? ==> s.l.log == [])
    && (s.phase.Open? || s.phase.RollingBack? ==> HistoryOk(s))
  }

  /** An abort that has got to entry `k` gets to the one before by undoing one more. */
  lemma {:induction false} AbortOneMore(l: Layer, k: nat)
    requires 0 < k <= |l.log|
    ensures |Abort(l, k).log| == k && Abort(l, k - 1) == UndoLast(Abort(l, k))
    decreases |l.log|
  {
    if |l.log| > k {
      AbortOneMore(UndoLast(l), k);
    } else {
      assert Abort(l, k - 1) == Abort(UndoLast(l), k - 1);
    }
  }

  lemma UndoKeepsInv(s: Session)
    requires Inv(s) && CanAct(s, UndoOne)
    ensures Inv(Act(s, UndoOne))
  {
    var last, k := DoAll(s.base, s.done), |s.l.log|;
    AbortOneMore(last, k);
    RollbackConserves(s.base, s.done, k - 1);
  }

  /** Whatever happens keeps every reference accounted for. */
  lemma ActKeepsInv(s: Session, a: Action)
    requires Inv(s) && CanAct(s, a)
    ensures Inv(Act(s, a))
  {
    match a
    case Make(c) =>
      ChangeKeepsConserved(s.l, c);
      OneMore(s.base, s.done, c);
    case UndoOne => UndoKeepsInv(s);
    case CommitOne => CommitLastConserves(s.l);
    case RunUnref(n) => UnrefKeepsBalance(s.l, s.l.(scheduled := s.l.scheduled - multiset{n}), n);
    case TakeRef(n) => TakeRefConserves(s.l, n);
    case DropRef(n) => UnrefKeepsBalance(s.l, s.l.(held := s.l.held - multiset{n}), n);
    case DropEdge(e) => DropEdgeConserves(s.l, e);
    case _ =>
  }

  // ---------------------------------------------------------------------------------------------
  // Runs

  ghost predicate IsRun(states: seq<Session>, actions: seq<Action>) {
    && |states| == |actions| + 1 && states[0].phase.Outside? && Conserved(states[0].l) && states[0].l.log == []
    && forall i :: 0 <= i < |actions| ==> CanAct(states[i], actions[i]) && states[i + 1] == Act(states[i], actions[i])
  }

  lemma {:induction false} RunKeepsInv(states: seq<Session>, actions: seq<Action>, i: nat)
    requires IsRun(states, actions) && i < |states|
    ensures Inv(states[i])
    decreases i
  {
    if i > 0 {
      RunKeepsInv(states, actions, i - 1);
      ActKeepsInv(states[i - 1], actions[i - 1]);
    }
  }

  /**
  In every state of every run, also with a transaction open, half rolled back or half committed, every count is made up
  of users, edges, log entries and scheduled unrefs; so no node goes while any of them names it.
  */
  lemma RunConserves(states: seq<Session>, actions: seq<Action>, i: nat, n: NodeId)
    requires IsRun(states, actions) && i < |states| && n in states[i].l.g.nodes
    ensures n in states[i].l.refs && Counted(states[i].l, n)
    ensures
      var l := states[i].l;
      n in l.deleted ==> EdgesTo(l.g, n) == {} && Named(l.log, n) == 0 && l.held[n] == 0 && l.scheduled[n] == 0
  {
    RunKeepsInv(states, actions, i);
    assert Counted(states[i].l, n);
    if n in states[i].l.deleted { DeletedIsUnnamed(states[i].l, n); }
  }

  /** `base` is the layer in which the transaction was opened. */
  lemma {:induction false} BaseIsStart(states: seq<Session>, actions: seq<Action>, i: nat) returns (b: nat)
    requires IsRun(states, actions) && i < |states| && !states[i].phase.Outside?
    ensures b < i && actions[b].Begin? && states[b].l == states[i].base
    ensures forall k :: b < k <= i ==> !states[k].phase.Outside?
    decreases i
  {
    if actions[i - 1].Begin? {
      b := i - 1;
    } else {
      b := BaseIsStart(states, actions, i - 1);
    }
  }

  /** In every run, a transaction that has been rolled back to the end leaves what was there when it was opened. */
  lemma RunRestores(states: seq<Session>, actions: seq<Action>, i: nat) returns (b: nat)
    requires IsRun(states, actions) && i < |states| && states[i].phase.RollingBack? && states[i].l.log == []
    ensures b < i && actions[b].Begin? && Restored(states[i].l, states[b].l)
    ensures forall k :: b < k <= i ==> !states[k].phase.Outside?
  {
    RunKeepsInv(states, actions, i);
    ConservedIsWellFormed(states[i].base);
    AbortRestores(states[i].base, states[i].done);
    b := BaseIsStart(states, actions, i);
  }
}
