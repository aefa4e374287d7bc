/** The operations on a job transaction as the code runs them, walking the transaction's list of jobs. */
module JobLists {
  import opened Jobs
  import opened JobInvariant
  import opened JobOutcomes
  import opened Maps

  lemma {:induction false} PrepareKeepsMembers(s: State, order: seq<JobId>, prep: map<JobId, int>, t: TxnId)
    requires forall k :: k in order ==> k in s.jobs && k in prep
    ensures Members(PrepareAll(s, order, prep), t) == Members(s, t) && PrepareAll(s, order, prep).txns == s.txns
    ensures forall k :: k in s.jobs ==> PrepareAll(s, order, prep).jobs[k].group == s.jobs[k].group
    decreases |order|
  {
    if order != [] {
      var s1 := PrepareOne(s, order[0], prep[order[0]]);
      assert Members(s1, t) == Members(s, t);
      if s1.jobs[order[0]].ret == 0 { PrepareKeepsMembers(s1, order[1..], prep, t); }
    }
  }

  lemma Listed(s: State, order: seq<JobId>, t: TxnId)
    requires ListOf(order, Members(s, t))
    ensures forall a :: 0 <= a < |order| ==> order[a] in s.jobs && order[a] in Members(s, t)
    ensures forall a, b :: 0 <= a < b < |order| ==> order[a] != order[b]
  {
    forall a | 0 <= a < |order| ensures order[a] in Members(s, t) { assert order[a] in order; }
  }

  /** Job `k` has left its transaction and has been committed or aborted. */
  ghost predicate Gone(s: State, k: JobId) {
    k in s.jobs && s.jobs[k].group in s.txns && !s.jobs[k].inTxn && Fate(s, k) in s.log
  }

  /** One round of the loop that finalizes the jobs of an aborted transaction. */
  lemma AbortOne(s: State, t: TxnId, order: seq<JobId>, n: nat)
    requires Inv(s) && Ended(s) && t in s.txns && s.txns[t].aborting && n < |order|
    requires forall a, b :: 0 <= a < b < |order| ==> order[a] != order[b]
    requires forall k :: k in Members(s, t) <==> k in order[n..]
    requires order[n] in Members(s, t) && IsCompleted(s.jobs[order[n]].status)
    ensures
      var s2 := FinalizeSingle(s, order[n]);
      && Inv(s2) && Ended(s2) && s2.txns == s.txns && Gone(s2, order[n])
      && (forall k :: k in Members(s2, t) <==> k in order[n + 1..])
      && forall m :: m != order[n] && Gone(s, m) ==> Gone(s2, m)
  {
    var k, e, s2 := order[n], AbortStep(order[n]), FinalizeSingle(s, order[n]);
    assert Enabled(s, e) && Next(s, e) == s2;
    assert Inv(s2) by { StepKeepsInv(s, e); }
    assert Ended(s2) by { StepKeepsEnded(s, e); }
    assert Leaves(s, s2, k) by { AbortStepLeaves(s, e); }
    OneLess(s, s2, t, k);
    WithoutFirst(order, n);
  }

  lemma WithoutFirst(order: seq<JobId>, n: nat)
    requires n < |order| && forall a, b :: 0 <= a < b < |order| ==> order[a] != order[b]
    ensures forall k :: k in order[n + 1..] <==> k in order[n..] && k != order[n]
  {
    assert order[n..] == [order[n]] + order[n + 1..];
  }

  lemma OneLess(s: State, s2: State, t: TxnId, k: JobId)
    requires k in Members(s, t) && Leaves(s, s2, k)
    ensures Members(s2, t) == Members(s, t) - {k} && Gone(s2, k)
    ensures forall m :: m != k && Gone(s, m) ==> Gone(s2, m)
  {
    assert s2.log[|s.log|] == Fate(s2, k);
    forall m | m != k && Gone(s, m) ensures Gone(s2, m) { assert Fate(s2, m) == Fate(s, m); }
  }

  class JobList {
    var s: State

    constructor (s: State)
      ensures this.s == s
    {
      this.s := s;
    }

    /** The first part of job_completed_txn_abort_locked */
    method CompletedTxnAbort(j: JobId, order: seq<JobId>)
      requires j in s.jobs && s.jobs[j].group in s.txns && ListOf(order, Members(s, s.jobs[j].group))
      modifies this
      ensures s == TxnAbort(old(s), j)
    {
      var t := s.jobs[j].group;
      if s.txns[t].aborting {
        return;
      }
      Listed(s, order, t);
      var spared := if s.jobs[j].ret == 0 && !s.jobs[j].cancel.forced then {j} else {};
      for i := 0 to |order|
        invariant s.jobs.Keys == old(s.jobs.Keys) && s.txns == old(s.txns) && s.log == old(s.log)
        invariant forall k :: k in s.jobs ==>
          s.jobs[k] == if k in order[..i] && k != j then CancelAsync(old(s.jobs)[k], true) else old(s.jobs)[k]
      {
        assert order[i] !in order[..i];
        if order[i] != j {
          s := s.(jobs := s.jobs[order[i] := CancelAsync(s.jobs[order[i]], true)]);
        }
      }
      assert order[..|order|] == order;
      s := s.(txns := s.txns[t := Txn(true, spared)]);
      SameMap(s.jobs, TxnAbort(old(s), j).jobs);
    }

    /**
    The second part of job_completed_txn_abort_locked: finalizes the jobs at the head of the list, up to one that has
    not completed and has to be waited for; such a job has been cancelled.
    */
    method FinalizeAborted(t: TxnId, order: seq<JobId>) returns (n: nat)
      requires Inv(s) && Ended(s) && t in s.txns && s.txns[t].aborting && ListOf(order, Members(s, t))
      modifies this
      ensures Inv(s) && Ended(s) && s.txns == old(s.txns) && n <= |order|
      ensures forall k :: k in Members(s, t) <==> k in order[n..]
      ensures forall a :: 0 <= a < n ==> Gone(s, order[a])
      ensures n < |order| ==>
        order[n] in s.jobs && !IsCompleted(s.jobs[order[n]].status) && s.jobs[order[n]].cancel.requested
    {
      n := 0;
      while n < |order| && IsCompleted(s.jobs[order[n]].status)
        invariant n <= |order| && Inv(s) && Ended(s) && s.txns == old(s.txns)
        invariant forall k :: k in Members(s, t) <==> k in order[n..]
        invariant forall a :: n <= a < |order| ==> order[a] in Members(s, t)
        invariant forall a :: 0 <= a < n ==> Gone(s, order[a])
      {
        AbortOne(s, t, order, n);
        s := FinalizeSingle(s, order[n]);
        n := n + 1;
      }
      if n < |order| {
        assert TxnOk(s, t) && MemberOk(s.txns[t], order[n], s.jobs[order[n]]) && JobOk(s.jobs[order[n]]);
      }
    }

    /** job_txn_apply_locked with job_transition_to_pending_locked */
    method TransitionToPending(t: TxnId, order: seq<JobId>)
      requires ListOf(order, Members(s, t))
      modifies this
      ensures s == AllPending(old(s), t)
    {
      Listed(s, order, t);
      for i := 0 to |order|
        invariant s.jobs.Keys == old(s.jobs.Keys) && s.txns == old(s.txns) && s.log == old(s.log)
        invariant forall k :: k in s.jobs ==>
          s.jobs[k] == if k in order[..i] then To(old(s.jobs)[k], Pending) else old(s.jobs)[k]
      {
        assert order[i] !in order[..i];
        s := s.(jobs := s.jobs[order[i] := To(s.jobs[order[i]], Pending)]);
      }
      assert order[..|order|] == order;
      SameMap(s.jobs, AllPending(old(s), t).jobs);
    }

    /** job_txn_apply_locked with job_prepare_locked */
    method Prepare(order: seq<JobId>, prep: map<JobId, int>) returns (rc: int)
      requires forall k :: k in order ==> k in s.jobs && k in prep
      requires forall a, b :: 0 <= a < b < |order| ==> order[a] != order[b]
      modifies this
      ensures s == PrepareAll(old(s), order, prep)
      ensures rc != 0 <==> exists k :: k in order && s.jobs[k].ret != 0
    {
      rc := 0;
      for i := 0 to |order|
        invariant s.jobs.Keys == old(s.jobs.Keys)
        invariant PrepareAll(s, order[i..], prep) == PrepareAll(old(s), order, prep)
        invariant forall a :: 0 <= a < i ==> s.jobs[order[a]].ret == 0
      {
        var k := order[i];
        assert order[i..][0] == k && order[i..][1..] == order[i + 1..];
        s := PrepareOne(s, k, prep[k]);
        rc := s.jobs[k].ret;
        if rc != 0 {
          return;
        }
      }
      rc := 0;
    }

    /** job_txn_apply_locked with job_finalize_single_locked */
    method FinalizeJobs(order: seq<JobId>)
      requires forall k :: k in order ==> k in s.jobs
      modifies this
      ensures s == FinalizeAll(old(s), order)
    {
      for i := 0 to |order|
        invariant s.jobs.Keys == old(s.jobs.Keys) && FinalizeAll(s, order[i..]) == FinalizeAll(old(s), order)
      {
        assert order[i..][0] == order[i] && order[i..][1..] == order[i + 1..];
        s := FinalizeSingle(s, order[i]);
      }
    }

    /** job_do_finalize_locked */
    method FinalizeTxn(j: JobId, order: seq<JobId>, prep: map<JobId, int>)
      requires j in s.jobs && s.jobs[j].group in s.txns && ListOf(order, Members(s, s.jobs[j].group))
      requires forall k :: k in order ==> k in prep
      modifies this
      ensures s == DoFinalize(old(s), j, order, prep)
    {
      PrepareKeepsMembers(s, order, prep, s.jobs[j].group);
      var rc := Prepare(order, prep);
      if rc != 0 {
        CompletedTxnAbort(j, order);
      } else {
        FinalizeJobs(order);
      }
    }

    /** job_completed_txn_success_locked */
    method CompletedTxnSuccess(j: JobId, order: seq<JobId>, prep: map<JobId, int>)
      requires j in s.jobs && s.jobs[j].group in s.txns && ListOf(order, Members(s, s.jobs[j].group))
      requires forall k :: k in order ==> k in prep
      modifies this
      ensures s == TxnSuccess(old(s), j, order, prep)
    {
      var t := s.jobs[j].group;
      ghost var s0 := s;
      s := s.(jobs := s.jobs[j := To(s.jobs[j], Waiting)]);
      assert Members(s, t) == Members(s0, t);
      Listed(s, order, t);
      for i := 0 to |order|
        invariant forall a :: 0 <= a < i ==> IsCompleted(s.jobs[order[a]].status)
      {
        if !IsCompleted(s.jobs[order[i]].status) {
          assert order[i] in Members(s, t);
          return;
        }
      }
      ghost var s1 := s;
      TransitionToPending(t, order);
      assert Members(s, t) == Members(s1, t);
      for i := 0 to |order|
        invariant forall a :: 0 <= a < i ==> s.jobs[order[a]].options.autoFinalize
      {
        if !s.jobs[order[i]].options.autoFinalize {
          assert order[i] in Members(s, t);
          return;
        }
      }
      FinalizeTxn(j, order, prep);
    }

    /** job_completed_locked */
    method CompletedJob(j: JobId, order: seq<JobId>, prep: map<JobId, int>)
      requires j in s.jobs && s.jobs[j].group in s.txns && ListOf(order, Members(s, s.jobs[j].group))
      requires forall k :: k in order ==> k in prep
      modifies this
      ensures s == Completed(old(s), j, order, prep)
    {
      ghost var s0 := s;
      s := s.(jobs := s.jobs[j := UpdateRc(s.jobs[j])]);
      assert Members(s, s.jobs[j].group) == Members(s0, s.jobs[j].group);
      if s.jobs[j].ret != 0 {
        CompletedTxnAbort(j, order);
      } else {
        CompletedTxnSuccess(j, order, prep);
      }
    }
  }
}
