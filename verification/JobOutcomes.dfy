/** How jobs come out of their transactions: which of commit and abort is called on each of them, and when. */
module JobOutcomes {
  import opened Jobs
  import opened JobInvariant

  predicate IsFinal(c: Call) {
    c.Commit? || c.Abort?
  }

  /** The creation of the job failed: it went from CREATED to NULL. */
  predicate Abandoned(j: Job) {
    j.co.NotStarted? && j.status.Null? && |j.trace| == 3
  }

  /**
  What is called on a job that leaves its transaction: an abort spares only what is not force-cancelled meanwhile.
  */
  function Fate(s: State, k: JobId): Call
    requires k in s.jobs && s.jobs[k].group in s.txns
  {
    var txn := s.txns[s.jobs[k].group];
    if !txn.aborting || (k in txn.spared && !s.jobs[k].cancel.forced) then Commit(k) else Abort(k)
  }

  /** The call at `c` is a prepare callback that has failed, of another job in the transaction of `j`. */
  predicate FailedOther(s: State, c: nat, j: JobId) {
    && c < |s.log| && s.log[c].Prepare? && s.log[c].ret != 0 && s.log[c].job != j
    && j in s.jobs && s.log[c].job in s.jobs && s.jobs[s.log[c].job].group == s.jobs[j].group
  }

  ghost predicate FailedBefore(s: State, i: nat, j: JobId) {
    exists c :: 0 <= c < i && FailedOther(s, c, j)
  }

  /** A job that has left has got its call. */
  ghost predicate EndOk(s: State, k: JobId)
    requires k in s.jobs && s.jobs[k].group in s.txns
  {
    !s.jobs[k].inTxn ==> Abandoned(s.jobs[k]) || Fate(s, k) in s.log
  }

  /** A call has gone to a job that has left, and was the right one. */
  ghost predicate CallOk(s: State, i: nat)
    requires i < |s.log|
  {
    IsFinal(s.log[i]) ==>
      var k := s.log[i].job;
      && k in s.jobs && s.jobs[k].group in s.txns && !s.jobs[k].inTxn && !Abandoned(s.jobs[k]) && s.log[i] == Fate(s, k)
      && (s.log[i].Commit? && s.txns[s.jobs[k].group].aborting ==> FailedBefore(s, i, k))
  }

  /** Only a job that asked to finalize is spared, and only if the prepare callback of another has failed. */
  ghost predicate SparedOk(s: State, t: TxnId)
    requires t in s.txns
  {
    forall j :: j in s.txns[t].spared ==> FailedBefore(s, |s.log|, j)
  }

  ghost predicate Ended(s: State) {
    && (forall k {:trigger EndOk(s, k)} :: k in s.jobs && s.jobs[k].group in s.txns ==> EndOk(s, k))
    && (forall i {:trigger CallOk(s, i)} :: 0 <= i < |s.log| ==> CallOk(s, i))
    && (forall a, b {:trigger s.log[a], s.log[b]} ::
          0 <= a < b < |s.log| && IsFinal(s.log[a]) && IsFinal(s.log[b]) ==> s.log[a].job != s.log[b].job)
    && (forall t {:trigger SparedOk(s, t)} :: t in s.txns ==> SparedOk(s, t))
  }

  // ---------------------------------------------------------------------------------------------
  // Steps without commit or abort

  predicate JobGoes(j: Job, j2: Job) {
    && j2.group == j.group
    && if j.inTxn then j2.inTxn || Abandoned(j2)
       else !j2.inTxn && j2.cancel.forced == j.cancel.forced && (Abandoned(j2) <==> Abandoned(j))
  }

  ghost predicate Kept(s: State, s2: State, k: JobId)
    requires k in s.jobs
  {
    k in s2.jobs && JobGoes(s.jobs[k], s2.jobs[k])
  }

  ghost predicate TxnGoes(s: State, s2: State, t: TxnId)
    requires t in s.txns
  {
    && t in s2.txns
    && (s2.txns[t] == s.txns[t] ||
         (!s.txns[t].aborting && s2.txns[t].aborting && Members(s, t) != {} && SparedOk(s2, t)))
  }

  /**
  Nobody is committed or aborted; jobs stay in their transactions, and a transaction that has jobs may start to
  abort.
  */
  ghost predicate NoCalls(s: State, s2: State) {
    && MorePrepares(s.log, s2.log)
    && (forall k {:trigger Kept(s, s2, k)} :: k in s.jobs ==> Kept(s, s2, k))
    && (forall k {:trigger s2.jobs[k]} :: k in s2.jobs && k !in s.jobs ==> s2.jobs[k].inTxn)
    && (forall t {:trigger TxnGoes(s, s2, t)} :: t in s.txns ==> TxnGoes(s, s2, t))
    && (forall t {:trigger s2.txns[t]} :: t in s2.txns && t !in s.txns ==> s2.txns[t] == Txn(false, {}))
  }

  ghost predicate InGroup(s: State, s2: State, k: JobId)
    requires k in s.jobs
  {
    k in s2.jobs && s2.jobs[k].group == s.jobs[k].group
  }

  lemma FailedStays(s: State, s2: State, i: nat, j: JobId)
    requires FailedBefore(s, i, j) && i <= |s.log| && s.log <= s2.log
    requires forall k {:trigger InGroup(s, s2, k)} :: k in s.jobs ==> InGroup(s, s2, k)
    ensures FailedBefore(s2, i, j)
  {
    var c: nat :| c < i && FailedOther(s, c, j);
    assert InGroup(s, s2, j) && InGroup(s, s2, s.log[c].job);
    assert FailedOther(s2, c, j);
  }

  /** While a transaction that is not being aborted has jobs, only jobs whose creation failed have left it. */
  lemma NobodyLeft(s: State, k: JobId)
    requires Inv(s) && Ended(s) && k in s.jobs && !s.jobs[k].inTxn && s.jobs[k].group in s.txns
    requires !s.txns[s.jobs[k].group].aborting && Members(s, s.jobs[k].group) != {}
    ensures Abandoned(s.jobs[k])
  {
    var t := s.jobs[k].group;
    assert TxnOk(s, t) && EndOk(s, k);
  }

  lemma GoesKeepsEnd(s: State, s2: State, k: JobId)
    requires Inv(s) && Ended(s) && NoCalls(s, s2) && k in s2.jobs && s2.jobs[k].group in s2.txns
    ensures EndOk(s2, k)
  {
    if k in s.jobs && !s.jobs[k].inTxn {
      var t := s.jobs[k].group;
      assert Kept(s, s2, k);
      assert t in s.txns && TxnGoes(s, s2, t) && EndOk(s, k);
      if s2.txns[t] != s.txns[t] {
        NobodyLeft(s, k);
      } else if !Abandoned(s.jobs[k]) {
        assert Fate(s, k) in s.log && Fate(s2, k) == Fate(s, k);
      }
    } else if k in s.jobs {
      assert Kept(s, s2, k);
    }
  }

  lemma GoesKeepsCall(s: State, s2: State, i: nat)
    requires Inv(s) && Ended(s) && NoCalls(s, s2) && i < |s.log|
    ensures CallOk(s2, i)
  {
    assert s2.log[i] == s.log[i] && CallOk(s, i);
    if IsFinal(s.log[i]) {
      var k := s.log[i].job;
      var t := s.jobs[k].group;
      assert Kept(s, s2, k) && TxnGoes(s, s2, t);
      if s2.txns[t] != s.txns[t] { NobodyLeft(s, k); }
      if s.log[i].Commit? && s.txns[t].aborting { GroupsStay(s, s2); FailedStays(s, s2, i, k); }
    }
  }

  lemma GroupsStay(s: State, s2: State)
    requires NoCalls(s, s2)
    ensures forall k {:trigger InGroup(s, s2, k)} :: k in s.jobs ==> InGroup(s, s2, k)
  {
    forall k | k in s.jobs ensures InGroup(s, s2, k) { assert Kept(s, s2, k); }
  }

  lemma GoesKeepsSpared(s: State, s2: State, t: TxnId)
    requires Ended(s) && NoCalls(s, s2) && t in s2.txns
    ensures SparedOk(s2, t)
  {
    if t in s.txns {
      assert TxnGoes(s, s2, t) && SparedOk(s, t);
      GroupsStay(s, s2);
      if s2.txns[t] == s.txns[t] {
        forall j | j in s2.txns[t].spared
          ensures FailedBefore(s2, |s2.log|, j)
        {
          FailedStays(s, s2, |s.log|, j);
          var c: nat :| c < |s.log| && FailedOther(s2, c, j);
        }
      }
    }
  }

  /** Steps without commit or abort keep it that every job gets what is due to it. */
  lemma GoesKeepsEnded(s: State, s2: State)
    requires Inv(s) && Ended(s) && NoCalls(s, s2)
    ensures Ended(s2)
  {
    forall k | k in s2.jobs && s2.jobs[k].group in s2.txns ensures EndOk(s2, k) { GoesKeepsEnd(s, s2, k); }
    forall i | 0 <= i < |s2.log| ensures CallOk(s2, i) { if i < |s.log| { GoesKeepsCall(s, s2, i); } }
    forall t | t in s2.txns ensures SparedOk(s2, t) { GoesKeepsSpared(s, s2, t); }
    forall a, b | 0 <= a < b < |s2.log| && IsFinal(s2.log[a]) && IsFinal(s2.log[b])
      ensures s2.log[a].job != s2.log[b].job
    {
      assert s2.log[a] == s.log[a] && s2.log[b] == s.log[b];
    }
  }

  // ---------------------------------------------------------------------------------------------
  // A job leaves

  /** In `s2` job `k` has left with the call that was due to it. */
  ghost predicate Leaves(s: State, s2: State, k: JobId) {
    && k in s.jobs && s.jobs[k].inTxn && s.jobs[k].group in s.txns && s2.txns == s.txns && s2.jobs.Keys == s.jobs.Keys
    && (forall m :: m in s.jobs && m != k ==> s2.jobs[m] == s.jobs[m])
    && s2.jobs[k].group == s.jobs[k].group && !s2.jobs[k].inTxn && !Abandoned(s2.jobs[k])
    && s2.log == s.log + [Fate(s2, k)]
  }

  lemma LeavesKeepsCall(s: State, s2: State, k: JobId, i: nat)
    requires Ended(s) && Leaves(s, s2, k) && i < |s2.log|
    ensures CallOk(s2, i)
  {
    var t := s.jobs[k].group;
    if i < |s.log| {
      assert s2.log[i] == s.log[i] && CallOk(s, i);
      if IsFinal(s.log[i]) && FailedBefore(s, i, s.log[i].job) { FailedStays(s, s2, i, s.log[i].job); }
    } else if s.txns[t].aborting && s2.log[i].Commit? {
      assert SparedOk(s, t);
      FailedStays(s, s2, |s.log|, k);
    }
  }

  lemma LeavesKeepsEnded(s: State, s2: State, k: JobId)
    requires Ended(s) && Leaves(s, s2, k)
    ensures Ended(s2)
  {
    forall m | m in s2.jobs && s2.jobs[m].group in s2.txns
      ensures EndOk(s2, m)
    {
      if m == k { assert s2.log[|s.log|] == Fate(s2, k); } else { assert EndOk(s, m) && Fate(s2, m) == Fate(s, m); }
    }
    forall i | 0 <= i < |s2.log| ensures CallOk(s2, i) { LeavesKeepsCall(s, s2, k, i); }
    forall a, b | 0 <= a < b < |s2.log| && IsFinal(s2.log[a]) && IsFinal(s2.log[b])
      ensures s2.log[a].job != s2.log[b].job
    {
      assert s2.log[a] == s.log[a] && CallOk(s, a);
      if b < |s.log| { assert s2.log[b] == s.log[b]; }
    }
    forall t | t in s2.txns ensures SparedOk(s2, t) { LeavesKeepsSpared(s, s2, k, t); }
  }

  lemma LeavesKeepsSpared(s: State, s2: State, k: JobId, t: TxnId)
    requires Ended(s) && Leaves(s, s2, k) && t in s2.txns
    ensures SparedOk(s2, t)
  {
    assert SparedOk(s, t);
    forall j | j in s2.txns[t].spared
      ensures FailedBefore(s2, |s2.log|, j)
    {
      FailedStays(s, s2, |s.log|, j);
      var c: nat :| c < |s.log| && FailedOther(s2, c, j);
    }
  }

  /** Job `k` is in its transaction and has the result that its transaction wants it to have. */
  ghost predicate Due(s: State, k: JobId) {
    && k in s.jobs && s.jobs[k].inTxn && s.jobs[k].group in s.txns && (Started(s.jobs[k]) || |s.jobs[k].trace| > 2)
    && (Fate(s, k).Commit? <==> UpdateRc(s.jobs[k]).ret == 0)
  }

  /** Finalizing one job is leaving, if the job's result is as its transaction has it. */
  lemma FinalizeLeaves(s: State, k: JobId)
    requires Due(s, k)
    ensures Leaves(s, FinalizeSingle(s, k), k)
  {
    FinalizedIs(s.jobs[k]);
  }

  lemma FinalizedIs(j: Job)
    ensures Finalized(j).cancel.forced == j.cancel.forced && |Finalized(j).trace| > |j.trace|
  {
  }

  // ---------------------------------------------------------------------------------------------
  // Finalizing a transaction

  /** The jobs of the list leave one after the other, each with what is due to it. */
  lemma {:induction false} FinalizeAllKeepsEnded(s: State, order: seq<JobId>)
    requires Ended(s) && (forall a, b :: 0 <= a < b < |order| ==> order[a] != order[b])
    requires forall k :: k in order ==> k in s.jobs && Due(s, k)
    ensures
      var s2 := FinalizeAll(s, order);
      && Ended(s2) && s2.txns == s.txns && s2.jobs.Keys == s.jobs.Keys
      && forall k :: k in s.jobs ==> s2.jobs[k] == if k in order then Finalized(s.jobs[k]) else s.jobs[k]
    decreases |order|
  {
    if order != [] {
      var k, rest := order[0], order[1..];
      var s1 := FinalizeSingle(s, k);
      assert k in order && Due(s, k);
      FinalizeLeaves(s, k);
      LeavesKeepsEnded(s, s1, k);
      assert forall m :: m in order <==> m == k || m in rest;
      forall m | m in rest
        ensures m != k && Due(s1, m)
      {
        var a :| 0 <= a < |rest| && rest[a] == m;
        assert order[a + 1] == m && Due(s, m);
      }
      FinalizeAllKeepsEnded(s1, rest);
    }
  }

  /** A prepare callback has failed, and job `j` starts the abort; it is spared if the callback was not its own. */
  lemma FailureGoes(s: State, s1: State, j: JobId, f: JobId, ret: int)
    requires j in s.jobs && j in Members(s, s.jobs[j].group)
    requires f in Members(s, s.jobs[j].group) && s.jobs[j].group in s.txns
    requires !s.txns[s.jobs[j].group].aborting && Set(s.jobs[j]) && ret != 0
    requires s1.txns == s.txns && MorePrepares(s.log, s1.log) && Prepare(f, ret) in s1.log
    requires s1.jobs == s.jobs[f := To(s.jobs[f].(ret := ret), Aborting)]
    ensures NoCalls(s, TxnAbort(s1, j))
    ensures TxnAbort(s1, j).txns[s.jobs[j].group] == Txn(true, if f == j then {} else {j})
  {
    var s2, t := TxnAbort(s1, j), s.jobs[j].group;
    if f != j {
      var c: nat :| c < |s1.log| && s1.log[c] == Prepare(f, ret);
      assert FailedOther(s2, c, j);
    }
    forall k | k in s.jobs ensures Kept(s, s2, k) { AbortJobIs(s1, j, k); }
    forall x | x in s.txns ensures TxnGoes(s, s2, x) { }
  }

  /** What the start of an abort does to a job. */
  lemma AbortJobIs(s: State, j: JobId, k: JobId)
    requires j in s.jobs && k in s.jobs
    ensures
      var s2 := TxnAbort(s, j);
      && k in s2.jobs
      && s2.jobs[k] ==
         if s.jobs[j].group in s.txns && !s.txns[s.jobs[j].group].aborting && k in Members(s, s.jobs[j].group) && k != j
         then CancelAsync(s.jobs[k], true) else s.jobs[k]
  {
  }

  lemma DoFinalizeKeepsEnded(s: State, j: JobId, order: seq<JobId>, prep: map<JobId, int>)
    requires Inv(s) && Ended(s) && CanFinalize(s, j, order, prep)
    ensures Ended(DoFinalize(s, j, order, prep))
  {
    var s1, o := PrepareAll(s, order, prep), FirstFailure(s.jobs, order, prep);
    AllSet(s, j);
    DoFinalizeForm(s, j, order, prep);
    if o.FailedAt? {
      FailureGoes(s, s1, j, o.job, prep[o.job]);
      GoesKeepsEnded(s, TxnAbort(s1, j));
    } else {
      PreparedGoes(s, s1);
      GoesKeepsEnded(s, s1);
      forall k | k in order ensures Due(s1, k) { assert k in Members(s, s.jobs[j].group) && JobOk(s.jobs[k]); }
      FinalizeAllKeepsEnded(s1, order);
    }
  }

  lemma PreparedGoes(s: State, s1: State)
    requires s1.txns == s.txns && s1.jobs == s.jobs && MorePrepares(s.log, s1.log)
    ensures NoCalls(s, s1)
  {
  }

  // ---------------------------------------------------------------------------------------------
  // The other steps

  lemma OneJobGoes(s: State, id: JobId, j2: Job)
    requires id in s.jobs && JobGoes(s.jobs[id], j2)
    ensures NoCalls(s, s.(jobs := s.jobs[id := j2]))
  {
  }

  /** A job that has failed or is force-cancelled starts an abort, if there is none yet. */
  lemma AbortGoes(s: State, id: JobId, j2: Job)
    requires id in s.jobs && s.jobs[id].inTxn && s.jobs[id].group in s.txns
    requires j2.inTxn && j2.group == s.jobs[id].group && (j2.ret != 0 || j2.cancel.forced)
    ensures NoCalls(s, TxnAbort(s.(jobs := s.jobs[id := j2]), id))
  {
    var s1, t := s.(jobs := s.jobs[id := j2]), s.jobs[id].group;
    var s2 := TxnAbort(s1, id);
    assert id in Members(s, t);
    forall k | k in s.jobs ensures Kept(s, s2, k) { AbortJobIs(s1, id, k); }
    forall x | x in s.txns ensures TxnGoes(s, s2, x) { }
  }

  /** A job that is CREATED has been nothing else before. */
  lemma CreatedTrace(trace: seq<Status>)
    requires Legal(trace) && trace[|trace| - 1].Created?
    ensures |trace| == 2
  {
    forall i | 0 < i < |trace| ensures !trace[i].Undefined? { assert Allowed(trace[i - 1], trace[i]); }
    assert |trace| > 1 && Allowed(trace[|trace| - 2], trace[|trace| - 1]);
  }

  /** A job that is ABORTING has at least been CREATED before. */
  lemma AbortingTrace(trace: seq<Status>)
    requires Legal(trace) && trace[|trace| - 1].Aborting?
    ensures |trace| > 2
  {
  }

  lemma QuietGoes(s: State, e: Event)
    requires Enabled(s, e) && (IsQuiet(e) || e.EarlyFail?) && JobOk(s.jobs[e.id])
    ensures JobGoes(s.jobs[e.id], Quiet(s.jobs[e.id], e))
  {
    if e.EarlyFail? { CreatedTrace(s.jobs[e.id].trace); }
  }

  lemma CreateGoes(s: State, e: Event)
    requires e.Create? && Enabled(s, e)
    ensures NoCalls(s, Next(s, e))
  {
  }

  lemma CreateKeepsEnded(s: State, e: Event)
    requires Inv(s) && Ended(s) && e.Create? && Enabled(s, e)
    ensures Ended(Next(s, e))
  {
    CreateGoes(s, e);
    GoesKeepsEnded(s, Next(s, e));
  }

  lemma ExitKeepsEnded(s: State, e: Event)
    requires Inv(s) && Ended(s) && e.Exit? && Enabled(s, e)
    ensures Ended(Next(s, e))
  {
    var id, j := e.id, s.jobs[e.id];
    assert JobOk(j) && j.group in s.txns;
    if j.ret != 0 || j.cancel.forced {
      FailedExitForm(s, e);
      AbortGoes(s, id, UpdateRc(j.(co := Exited)));
      GoesKeepsEnded(s, Next(s, e));
    } else {
      SuccessKeepsEnded(s, e);
    }
  }

  lemma FailedExitForm(s: State, e: Event)
    requires e.Exit? && Enabled(s, e) && (s.jobs[e.id].ret != 0 || s.jobs[e.id].cancel.forced)
    ensures Next(s, e) == TxnAbort(s.(jobs := s.jobs[e.id := UpdateRc(s.jobs[e.id].(co := Exited))]), e.id)
  {
    var id, j := e.id, s.jobs[e.id];
    var j1 := UpdateRc(j.(co := Exited));
    assert s.jobs[id := j.(co := Exited)][id := j1] == s.jobs[id := j1];
  }

  lemma SuccessKeepsEnded(s: State, e: Event)
    requires Inv(s) && Ended(s) && e.Exit? && Enabled(s, e) && s.jobs[e.id].ret == 0 && !s.jobs[e.id].cancel.forced
    ensures Ended(Next(s, e))
  {
    if k :| k in Members(s, s.jobs[e.id].group) && k != e.id && !IsCompleted(s.jobs[k].status) {
      WaitingKeepsEnded(s, e, k);
    } else {
      GatheredKeepsEnded(s, e);
      assert Next(s, e) == Gathered(s, e.id) || Next(s, e) == DoFinalize(Gathered(s, e.id), e.id, e.order, e.prep) by {
        SuccessForm(s, e);
      }
    }
  }

  lemma WaitingKeepsEnded(s: State, e: Event, k: JobId)
    requires Inv(s) && Ended(s) && e.Exit? && Enabled(s, e) && s.jobs[e.id].ret == 0 && !s.jobs[e.id].cancel.forced
    requires k in Members(s, s.jobs[e.id].group) && k != e.id && !IsCompleted(s.jobs[k].status)
    ensures Ended(Next(s, e))
  {
    assert Next(s, e) == s.(jobs := s.jobs[e.id := To(s.jobs[e.id].(co := Exited), Waiting)]) by { SuccessForm(s, e); }
    assert JobOk(s.jobs[e.id]);
    OneJobGoes(s, e.id, To(s.jobs[e.id].(co := Exited), Waiting));
    GoesKeepsEnded(s, Next(s, e));
  }

  lemma GatheredKeepsEnded(s: State, e: Event)
    requires Inv(s) && Ended(s) && e.Exit? && Enabled(s, e) && s.jobs[e.id].ret == 0 && !s.jobs[e.id].cancel.forced
    requires forall k :: k in Members(s, s.jobs[e.id].group) && k != e.id ==> IsCompleted(s.jobs[k].status)
    ensures Ended(Gathered(s, e.id)) && CanFinalize(Gathered(s, e.id), e.id, e.order, e.prep)
    ensures Ended(DoFinalize(Gathered(s, e.id), e.id, e.order, e.prep))
  {
    assert s.jobs[e.id].inTxn by { assert JobOk(s.jobs[e.id]); }
    GatheredGoes(s, e.id);
    GoesKeepsEnded(s, Gathered(s, e.id));
    GatheredCanFinalize(s, e);
    DoFinalizeKeepsEnded(Gathered(s, e.id), e.id, e.order, e.prep);
  }

  lemma GatheredGoes(s: State, id: JobId)
    requires id in s.jobs && s.jobs[id].inTxn
    ensures NoCalls(s, Gathered(s, id))
  {
    forall k | k in s.jobs ensures Kept(s, Gathered(s, id), k) { GatheredIs(s, id, k); }
  }

  lemma GatheredCanFinalize(s: State, e: Event)
    requires Inv(s) && e.Exit? && Enabled(s, e) && s.jobs[e.id].ret == 0 && !s.jobs[e.id].cancel.forced
    requires forall k :: k in Members(s, s.jobs[e.id].group) && k != e.id ==> IsCompleted(s.jobs[k].status)
    ensures Inv(Gathered(s, e.id)) && CanFinalize(Gathered(s, e.id), e.id, e.order, e.prep)
  {
    SuccessMeans(s, e.id);
    GatheredKeepsInv(s, e.id);
    assert JobOk(s.jobs[e.id]);
    assert e.id in Members(s, s.jobs[e.id].group);
    GatheredIs(s, e.id, e.id);
  }

  lemma CancelKeepsEnded(s: State, e: Event)
    requires Inv(s) && Ended(s) && e.Cancel? && Enabled(s, e)
    ensures Ended(Next(s, e))
  {
    var id, j := e.id, s.jobs[e.id];
    assert JobOk(j) && j.group in s.txns;
    if !(j.co.NotStarted? && IsCompleted(j.status)) {
      CancelGoes(s, e);
      GoesKeepsEnded(s, Next(s, e));
    }
  }

  lemma CancelGoes(s: State, e: Event)
    requires e.Cancel? && Enabled(s, e) && JobOk(s.jobs[e.id]) && s.jobs[e.id].group in s.txns
    requires !(s.jobs[e.id].co.NotStarted? && IsCompleted(s.jobs[e.id].status))
    ensures NoCalls(s, Next(s, e))
  {
    var id, j := e.id, s.jobs[e.id];
    var j1 := CancelAsync(j, e.answer);
    if j.status.Concluded? {
      OneJobGoes(s, id, DoDismiss(j));
    } else if !Started(j) {
      assert s.jobs[id := j1][id := UpdateRc(j1)] == s.jobs[id := UpdateRc(j1)];
      AbortGoes(s, id, UpdateRc(j1));
    } else if Deferred(j) && j1.cancel.forced {
      AbortGoes(s, id, j1);
    } else {
      OneJobGoes(s, id, j1);
    }
  }

  /** The abort loop lets a job go with what is due to it. */
  lemma AbortStepLeaves(s: State, e: Event)
    requires Inv(s) && e.AbortStep? && Enabled(s, e)
    ensures Leaves(s, Next(s, e), e.id)
  {
    var id, t := e.id, s.jobs[e.id].group;
    assert JobOk(s.jobs[id]) && TxnOk(s, t);
    assert id in Members(s, t);
    assert MemberOk(s.txns[t], id, s.jobs[id]);
    if !Started(s.jobs[id]) { AbortingTrace(s.jobs[id].trace); }
    assert Due(s, id);
    FinalizeLeaves(s, id);
  }

  lemma QuietKeepsEnded(s: State, e: Event)
    requires Inv(s) && Ended(s) && Enabled(s, e) && (IsQuiet(e) || e.EarlyFail?)
    ensures Ended(Next(s, e))
  {
    assert JobOk(s.jobs[e.id]);
    QuietGoes(s, e);
    OneJobGoes(s, e.id, Quiet(s.jobs[e.id], e));
    GoesKeepsEnded(s, Next(s, e));
  }

  /** Every step keeps it that every job gets what is due to it. */
  lemma StepKeepsEnded(s: State, e: Event)
    requires Inv(s) && Ended(s) && Enabled(s, e)
    ensures Ended(Next(s, e))
  {
    if e.Create? {
      CreateKeepsEnded(s, e);
    } else if e.Exit? {
      ExitKeepsEnded(s, e);
    } else if e.Cancel? {
      CancelKeepsEnded(s, e);
    } else if e.Finalize? {
      DoFinalizeKeepsEnded(s, e.id, e.order, e.prep);
    } else if e.AbortStep? {
      AbortStepLeaves(s, e);
      LeavesKeepsEnded(s, Next(s, e), e.id);
    } else {
      QuietKeepsEnded(s, e);
    }
  }
}
