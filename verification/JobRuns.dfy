/** What holds of jobs and job transactions in every run. */
module JobRuns {
  import opened Jobs
  import opened JobInvariant
  import opened JobOutcomes

  const INITIAL := State(map[], map[], [])

  ghost predicate IsRun(states: seq<State>, events: seq<Event>) {
    && |states| == |events| + 1 && states[0] == INITIAL
    && forall i :: 0 <= i < |events| ==> Enabled(states[i], events[i]) && states[i + 1] == Next(states[i], events[i])
  }

  lemma {:induction false} RunKeepsInv(states: seq<State>, events: seq<Event>, i: nat)
    requires IsRun(states, events) && i < |states|
    ensures Inv(states[i]) && Ended(states[i])
    decreases i
  {
    if i > 0 {
      RunKeepsInv(states, events, i - 1);
      StepKeepsInv(states[i - 1], events[i - 1]);
      StepKeepsEnded(states[i - 1], events[i - 1]);
    }
  }

  // ---------------------------------------------------------------------------------------------
  // Statuses and pauses

  lemma {:induction false} CompletedStays(trace: seq<Status>, a: nat, b: nat)
    requires Legal(trace) && a <= b < |trace| && IsCompleted(trace[a])
    ensures IsCompleted(trace[b]) && (trace[a].Null? ==> a == b)
    decreases b
  {
    if a < b {
      CompletedStays(trace, a, b - 1);
      assert Allowed(trace[b - 1], trace[b]);
    }
  }

  /**
  In every run, every job has gone through statuses as the table allows; once completed it stays completed; and
  it becomes NULL at most once, from CREATED or CONCLUDED.
  */
  lemma StatusesFollowTable(states: seq<State>, events: seq<Event>, i: nat, j: JobId, a: nat, b: nat)
    requires IsRun(states, events) && i < |states| && j in states[i].jobs && a < b < |states[i].jobs[j].trace|
    ensures
      var job := states[i].jobs[j];
      && job.trace[|job.trace| - 1] == job.status
      && (b == a + 1 ==> Allowed(job.trace[a], job.trace[b]))
      && (b == a + 1 && job.trace[b].Null? ==> job.trace[a].Created? || job.trace[a].Concluded?)
      && (IsCompleted(job.trace[a]) ==> IsCompleted(job.trace[b])) && !job.trace[a].Null?
  {
    RunKeepsInv(states, events, i);
    assert JobOk(states[i].jobs[j]);
    if IsCompleted(states[i].jobs[j].trace[a]) { CompletedStays(states[i].jobs[j].trace, a, b); }
  }

  /** In every run, a job is paused once for each reason there is to pause it. */
  lemma PausesAreCounted(states: seq<State>, events: seq<Event>, i: nat, j: JobId)
    requires IsRun(states, events) && i < |states| && j in states[i].jobs && !states[i].jobs[j].status.Null?
    ensures
      var job := states[i].jobs[j];
      && job.pauseCount == (if Started(job) then 0 else 1) + (if job.userPaused then 1 else 0) + job.drains
      && (job.failedIo ==> job.userPaused && job.pauseCount > 0)
  {
    RunKeepsInv(states, events, i);
    assert JobOk(states[i].jobs[j]);
  }

  // ---------------------------------------------------------------------------------------------
  // Assertions in the code

  /** block_job_iostatus_reset_locked */
  predicate ResetAsserts(j: Job) {
    j.failedIo ==> j.userPaused && j.pauseCount > 0
  }

  /** job_cancel_async_locked, with the user_resume callback that resets the iostatus */
  predicate CancelAsserts(j: Job) {
    j.userPaused ==> ResetAsserts(j) && j.pauseCount > 0
  }

  /** The loop of job_completed_txn_abort_locked over the other jobs */
  ghost predicate AbortAsserts(s: State, j: JobId)
    requires j in s.jobs
  {
    var t := s.jobs[j].group;
    t in s.txns && !s.txns[t].aborting ==> forall k :: k in Members(s, t) && k != j ==> CancelAsserts(s.jobs[k])
  }

  /** job_finalize_single_locked for each job of the list, in the states that the loop goes through */
  ghost predicate FinalizeAsserts(s: State, order: seq<JobId>)
    requires forall k :: k in order ==> k in s.jobs
    decreases |order|
  {
    order != [] ==> IsCompleted(s.jobs[order[0]].status) && FinalizeAsserts(FinalizeSingle(s, order[0]), order[1..])
  }

  /** job_do_finalize_locked */
  ghost predicate DoFinalizeAsserts(s: State, j: JobId, order: seq<JobId>, prep: map<JobId, int>)
    requires j in s.jobs && forall k :: k in order ==> k in s.jobs && k in prep
  {
    && s.jobs[j].inTxn
    && var s1 := PrepareAll(s, order, prep);
       if exists k :: k in order && s1.jobs[k].ret != 0 then AbortAsserts(s1, j) else FinalizeAsserts(s1, order)
  }

  /** job_completed_txn_success_locked */
  ghost predicate SuccessAsserts(s: State, j: JobId, order: seq<JobId>, prep: map<JobId, int>)
    requires j in s.jobs && forall k :: k in order ==> k in s.jobs && k in prep
  {
    var t := s.jobs[j].group;
    var s1 := s.(jobs := s.jobs[j := To(s.jobs[j], Waiting)]);
    var s2 := AllPending(s1, t);
    && (forall k :: k in Members(s1, t) && IsCompleted(s1.jobs[k].status) ==> s1.jobs[k].ret == 0)
    && ((forall k :: k in Members(s1, t) ==> IsCompleted(s1.jobs[k].status) && s1.jobs[k].options.autoFinalize) ==>
          DoFinalizeAsserts(s2, j, order, prep))
  }

  /** job_completed_locked */
  ghost predicate CompletedAsserts(s: State, j: JobId, order: seq<JobId>, prep: map<JobId, int>)
    requires j in s.jobs && forall k :: k in order ==> k in s.jobs && k in prep
  {
    && s.jobs[j].inTxn && !IsCompleted(s.jobs[j].status)
    && var s1 := s.(jobs := s.jobs[j := UpdateRc(s.jobs[j])]);
       if s1.jobs[j].ret != 0 then AbortAsserts(s1, j) else SuccessAsserts(s1, j, order, prep)
  }

  /** The assertions that a step runs into, on its own job and on those that its loops reach. */
  ghost predicate Asserts(s: State, e: Event)
    requires Enabled(s, e)
  {
    e.Create? ||
    var j := s.jobs[e.id];
    match e
    case Start(_) => !Started(j) && j.paused
    case UserResume(_) => ResetAsserts(j) && j.pauseCount > 0
    case DrainEnd(_) => j.pauseCount > 0
    case IostatusReset(_) => ResetAsserts(j)
    case Exit(id, order, prep) => CompletedAsserts(s.(jobs := s.jobs[id := j.(co := Exited)]), id, order, prep)
    case Cancel(id, _, answer) =>
      j.status.Concluded? ||
      var s1 := s.(jobs := s.jobs[id := CancelAsync(j, answer)]);
      && CancelAsserts(j)
      && (!Started(j) ==> CompletedAsserts(s1, id, [], map[]))
      && (Deferred(j) && s1.jobs[id].cancel.forced ==> AbortAsserts(s1, id))
    case Finalize(id, order, prep) => DoFinalizeAsserts(s, id, order, prep)
    case AbortStep(_) =>
      && IsCompleted(j.status)
      && forall k :: k in Members(s, j.group) && !IsCompleted(s.jobs[k].status) ==> s.jobs[k].cancel.requested
    case _ => true
  }

  /** A job that was never started, and whose cancellation has not been dealt with yet, is cancelled again. */
  predicate CancelledTwice(s: State, e: Event) {
    e.Cancel? && e.id in s.jobs && s.jobs[e.id].co.NotStarted? && s.jobs[e.id].status.Aborting?
  }

  lemma AllCancellable(s: State, j: JobId)
    requires j in s.jobs && forall k :: k in s.jobs && k != j ==> JobOk(s.jobs[k])
    ensures AbortAsserts(s, j)
  {
    forall k | k in s.jobs && k != j && s.jobs[k].inTxn ensures CancelAsserts(s.jobs[k]) { assert JobOk(s.jobs[k]); }
  }

  lemma {:induction false} AllFinalizable(s: State, order: seq<JobId>)
    requires forall k :: k in order ==> k in s.jobs && IsCompleted(s.jobs[k].status)
    ensures FinalizeAsserts(s, order)
    decreases |order|
  {
    if order != [] {
      forall k | k in order[1..] ensures IsCompleted(FinalizeSingle(s, order[0]).jobs[k].status) { assert k in order; }
      AllFinalizable(FinalizeSingle(s, order[0]), order[1..]);
    }
  }

  lemma FinalizeAssertsHold(s: State, j: JobId, order: seq<JobId>, prep: map<JobId, int>)
    requires Inv(s) && CanFinalize(s, j, order, prep)
    ensures DoFinalizeAsserts(s, j, order, prep)
  {
    var s1, o := PrepareAll(s, order, prep), FirstFailure(s.jobs, order, prep);
    AllSet(s, j);
    DoFinalizeForm(s, j, order, prep);
    if o.FailedAt? {
      assert s1.jobs[o.job].ret != 0;
      forall k | k in s1.jobs && s1.jobs[k].inTxn
        ensures CancelAsserts(s1.jobs[k])
      {
        assert JobOk(s.jobs[k]);
      }
    } else {
      AllFinalizable(s1, order);
    }
  }

  lemma ExitAssertsHold(s: State, e: Event)
    requires Inv(s) && e.Exit? && Enabled(s, e)
    ensures Asserts(s, e)
  {
    var id, j := e.id, s.jobs[e.id];
    assert JobOk(j);
    var s0 := s.(jobs := s.jobs[id := j.(co := Exited)]);
    var s1 := s0.(jobs := s0.jobs[id := UpdateRc(s0.jobs[id])]);
    if s1.jobs[id].ret != 0 {
      forall k | k in s1.jobs && k != id ensures JobOk(s1.jobs[k]) { assert JobOk(s.jobs[k]); }
      AllCancellable(s1, id);
    } else {
      assert s0.jobs[id := UpdateRc(s0.jobs[id])] == s0.jobs;
      SuccessAssertsHold(s, e);
    }
  }

  lemma SuccessAssertsHold(s: State, e: Event)
    requires Inv(s) && e.Exit? && Enabled(s, e) && s.jobs[e.id].ret == 0 && !s.jobs[e.id].cancel.forced
    ensures SuccessAsserts(s.(jobs := s.jobs[e.id := s.jobs[e.id].(co := Exited)]), e.id, e.order, e.prep)
  {
    var id, t := e.id, s.jobs[e.id].group;
    var s0 := s.(jobs := s.jobs[id := s.jobs[id].(co := Exited)]);
    var s1 := s.(jobs := s.jobs[id := To(s.jobs[id].(co := Exited), Waiting)]);
    assert s0.jobs[id := To(s0.jobs[id], Waiting)] == s1.jobs;
    SuccessMeans(s, id);
    GatheredMembers(s, id);
    if forall k :: k in Members(s1, t) ==> IsCompleted(s1.jobs[k].status) {
      GatheredCanFinalize(s, e);
      FinalizeAssertsHold(Gathered(s, id), id, e.order, e.prep);
    }
  }

  lemma CancelAssertsHold(s: State, e: Event)
    requires Inv(s) && e.Cancel? && Enabled(s, e)
    ensures Asserts(s, e) <==> !CancelledTwice(s, e)
  {
    var id, j := e.id, s.jobs[e.id];
    assert JobOk(j);
    var s1 := s.(jobs := s.jobs[id := CancelAsync(j, e.answer)]);
    var s2 := s1.(jobs := s1.jobs[id := UpdateRc(s1.jobs[id])]);
    forall k | k in s.jobs && k != id ensures JobOk(s.jobs[k]) && s1.jobs[k] == s.jobs[k] == s2.jobs[k] { }
    AllCancellable(s1, id);
    AllCancellable(s2, id);
  }

  lemma AbortAssertsHold(s: State, e: Event)
    requires Inv(s) && e.AbortStep? && Enabled(s, e)
    ensures Asserts(s, e)
  {
    var t := s.jobs[e.id].group;
    assert TxnOk(s, t);
    forall k | k in Members(s, t) && !IsCompleted(s.jobs[k].status)
      ensures s.jobs[k].cancel.requested
    {
      assert MemberOk(s.txns[t], k, s.jobs[k]) && JobOk(s.jobs[k]);
    }
  }

  /**
  In every run, an assertion fails only when a job that was never started is cancelled a second time while its
  transaction is being aborted; the cancel command of the user is refused for such a job.
  */
  lemma AssertsHold(states: seq<State>, events: seq<Event>, i: nat)
    requires IsRun(states, events) && i < |events|
    ensures Asserts(states[i], events[i]) <==> !CancelledTwice(states[i], events[i])
    ensures CancelledTwice(states[i], events[i]) ==> !VerbAllowed(CancelVerb, states[i].jobs[events[i].id].status)
  {
    var s, e := states[i], events[i];
    RunKeepsInv(states, events, i);
    if e.Exit? {
      ExitAssertsHold(s, e);
    } else if e.Cancel? {
      CancelAssertsHold(s, e);
    } else if e.Finalize? {
      FinalizeAssertsHold(s, e.id, e.order, e.prep);
    } else if e.AbortStep? {
      AbortAssertsHold(s, e);
    } else if !e.Create? {
      assert JobOk(s.jobs[e.id]);
    }
  }

  // ---------------------------------------------------------------------------------------------
  // All or nothing

  /**
  All or nothing, in every run: on a job that has left its transaction exactly one of commit and abort has been called,
  once.  In a transaction that is not aborted it was commit, after every prepare callback had returned 0, and all
  other jobs have been committed as well.  In one that is aborted it was abort, unless the job was spared, because the
  prepare callback of another job had failed, and has not been force-cancelled since.
  */
  lemma AllOrNothing(states: seq<State>, events: seq<Event>, i: nat, k: JobId) returns (c: nat)
    requires IsRun(states, events) && i < |states| && k in states[i].jobs && !states[i].jobs[k].inTxn
    requires !Abandoned(states[i].jobs[k])
    ensures
      var s, t := states[i], states[i].jobs[k].group;
      && c < |s.log| && s.log[c].job == k && t in s.txns
      && (s.log[c].Commit? <==> !s.txns[t].aborting || (k in s.txns[t].spared && !s.jobs[k].cancel.forced))
      && (s.log[c].Abort? <==> !s.log[c].Commit?)
      && (forall b :: 0 <= b < |s.log| && b != c && IsFinal(s.log[b]) ==> s.log[b].job != k)
      && (!s.txns[t].aborting ==> PreparedBefore(s, t, c) && AllCommitted(s, t))
      && (s.txns[t].aborting && s.log[c].Commit? ==> FailedBefore(s, c, k))
  {
    var s, t := states[i], states[i].jobs[k].group;
    RunKeepsInv(states, events, i);
    assert t in s.txns && EndOk(s, k);
    c :| 0 <= c < |s.log| && s.log[c] == Fate(s, k);
    assert CallOk(s, c);
    if s.log[c].Commit? { assert CommitOk(s, c); }
  }

  /** In every run, no job is committed or aborted before it leaves its transaction. */
  lemma NoEarlyCall(states: seq<State>, events: seq<Event>, i: nat, c: nat)
    requires IsRun(states, events) && i < |states| && c < |states[i].log| && IsFinal(states[i].log[c])
    ensures
      var s, k := states[i], states[i].log[c].job;
      k in s.jobs && !s.jobs[k].inTxn && IsCompleted(s.jobs[k].status)
  {
    RunKeepsInv(states, events, i);
    assert CallOk(states[i], c);
    assert JobOk(states[i].jobs[states[i].log[c].job]);
  }

  lemma {:induction false} SameFailure(
      jobs: map<JobId, Job>, jobs2: map<JobId, Job>, order: seq<JobId>, prep: map<JobId, int>)
    requires forall k :: k in order ==>
      k in jobs && k in jobs2 && k in prep && jobs[k].options == jobs2[k].options
    ensures FirstFailure(jobs, order, prep) == FirstFailure(jobs2, order, prep)
    decreases |order|
  {
    if order != [] { SameFailure(jobs, jobs2, order[1..], prep); }
  }

  /** The step finalizes a transaction, by hand or because the last of its jobs completes. */
  predicate Finalizes(s: State, e: Event) {
    e.Finalize? || (e.Exit? && e.id in s.jobs && s.jobs[e.id].ret == 0 && !s.jobs[e.id].cancel.forced)
  }

  /** Whom the abort that the step starts spares. */
  ghost function Spares(s: State, e: Event): set<JobId>
    requires Enabled(s, e) && (e.Exit? || e.Finalize? || e.Cancel?)
  {
    if Finalizes(s, e) && FirstFailure(s.jobs, e.order, e.prep) != FailedAt(e.id) then {e.id} else {}
  }

  /** Transaction `t` starts to abort: all its jobs but `j` are force-cancelled. */
  ghost predicate AbortsBy(s: State, s2: State, t: TxnId, j: JobId) {
    && t in s2.txns && s2.txns[t].aborting && j in Members(s, t)
    && forall k :: k in Members(s, t) && k != j ==> k in s2.jobs && s2.jobs[k].cancel.forced
  }

  lemma TxnAbortAborts(s: State, s1: State, j: JobId)
    requires j in s.jobs && s.jobs[j].inTxn && s.jobs[j].group in s.txns && !s.txns[s.jobs[j].group].aborting
    requires s1.txns == s.txns && s1.jobs.Keys == s.jobs.Keys
    requires forall k :: k in s.jobs ==> s1.jobs[k].group == s.jobs[k].group && s1.jobs[k].inTxn == s.jobs[k].inTxn
    ensures AbortsBy(s, TxnAbort(s1, j), s.jobs[j].group, j)
    ensures forall x :: x in s.txns && x != s.jobs[j].group ==> TxnAbort(s1, j).txns[x] == s.txns[x]
  {
    var s2, t := TxnAbort(s1, j), s.jobs[j].group;
    forall k | k in Members(s, t) && k != j
      ensures k in s2.jobs && s2.jobs[k].cancel.forced
    {
      AbortJobIs(s1, j, k);
      assert k in Members(s1, t);
    }
  }

  /**
  Finalizing starts an abort exactly if a prepare callback fails; it spares the job that asked for it, if not its
  own.
  */
  lemma FinalizeAborts(s: State, j: JobId, order: seq<JobId>, prep: map<JobId, int>)
    requires Inv(s) && CanFinalize(s, j, order, prep)
    ensures
      var s2, t, o := DoFinalize(s, j, order, prep), s.jobs[j].group, FirstFailure(s.jobs, order, prep);
      && (o.AllPrepared? ==> s2.txns == s.txns)
      && (o.FailedAt? ==> AbortsBy(s, s2, t, j) && s2.txns[t].spared == if o.job == j then {} else {j})
      && forall x :: x in s.txns && x != t ==> x in s2.txns && s2.txns[x] == s.txns[x]
  {
    AllSet(s, j);
    SetFinalizeAborts(s, j, order, prep);
  }

  lemma SetFinalizeAborts(s: State, j: JobId, order: seq<JobId>, prep: map<JobId, int>)
    requires CanFinalize(s, j, order, prep) && s.jobs[j].inTxn && Set(s.jobs[j])
    requires forall k :: k in order ==> k in s.jobs && k in prep && Set(s.jobs[k])
    ensures
      var s2, t, o := DoFinalize(s, j, order, prep), s.jobs[j].group, FirstFailure(s.jobs, order, prep);
      && (o.AllPrepared? ==> s2.txns == s.txns)
      && (o.FailedAt? ==> AbortsBy(s, s2, t, j) && s2.txns[t].spared == if o.job == j then {} else {j})
      && forall x :: x in s.txns && x != t ==> x in s2.txns && s2.txns[x] == s.txns[x]
  {
    var s1, o := PrepareAll(s, order, prep), FirstFailure(s.jobs, order, prep);
    DoFinalizeForm(s, j, order, prep);
    if o.FailedAt? {
      FailedFinalizeAborts(s, s1, j, o.job, prep[o.job]);
    } else {
      FinalizeAllForm(s1, order);
    }
  }

  lemma FailedFinalizeAborts(s: State, s1: State, j: JobId, f: JobId, ret: int)
    requires j in s.jobs && f in s.jobs && s.jobs[j].inTxn && Set(s.jobs[j]) && ret != 0
    requires s.jobs[j].group in s.txns && !s.txns[s.jobs[j].group].aborting
    requires s1.txns == s.txns && s1.jobs == s.jobs[f := To(s.jobs[f].(ret := ret), Aborting)]
    ensures AbortsBy(s, TxnAbort(s1, j), s.jobs[j].group, j)
    ensures TxnAbort(s1, j).txns == s.txns[s.jobs[j].group := Txn(true, if f == j then {} else {j})]
  {
    TxnAbortAborts(s, s1, j);
  }

  lemma ExitBegins(s: State, e: Event, t: TxnId)
    requires Inv(s) && e.Exit? && Enabled(s, e) && t in s.txns && !s.txns[t].aborting
    requires t in Next(s, e).txns && Next(s, e).txns[t].aborting
    ensures AbortsBy(s, Next(s, e), t, e.id) && Next(s, e).txns[t].spared == Spares(s, e)
  {
    var id, j := e.id, s.jobs[e.id];
    assert JobOk(j) && j.group in s.txns;
    if j.ret != 0 || j.cancel.forced {
      FailedExitForm(s, e);
      TxnAbortAborts(s, s.(jobs := s.jobs[id := UpdateRc(j.(co := Exited))]), id);
    } else {
      SuccessfulExitBegins(s, e, t);
    }
  }

  lemma GatheredFailure(s: State, e: Event)
    requires e.Exit? && Enabled(s, e)
    ensures
      var g := Gathered(s, e.id);
      && (forall k :: k in e.order ==> k in g.jobs)
      && FirstFailure(g.jobs, e.order, e.prep) == FirstFailure(s.jobs, e.order, e.prep)
  {
    var g := Gathered(s, e.id);
    forall k | k in e.order
      ensures k in s.jobs && k in g.jobs && g.jobs[k].options == s.jobs[k].options
    {
      assert k in Members(s, s.jobs[e.id].group);
    }
    SameFailure(s.jobs, g.jobs, e.order, e.prep);
  }

  lemma SameMembersAbort(s: State, g: State, s2: State, t: TxnId, j: JobId)
    requires Members(g, t) == Members(s, t) && AbortsBy(g, s2, t, j)
    ensures AbortsBy(s, s2, t, j)
  {
  }

  lemma SuccessfulExitBegins(s: State, e: Event, t: TxnId)
    requires Inv(s) && e.Exit? && Enabled(s, e) && s.jobs[e.id].ret == 0 && !s.jobs[e.id].cancel.forced
    requires t in s.txns && !s.txns[t].aborting && t in Next(s, e).txns && Next(s, e).txns[t].aborting
    ensures AbortsBy(s, Next(s, e), t, e.id) && Next(s, e).txns[t].spared == Spares(s, e)
  {
    var g := Gathered(s, e.id);
    assert g.txns == s.txns;
    SuccessForm(s, e);
    assert Next(s, e) == DoFinalize(g, e.id, e.order, e.prep);
    GatheredCanFinalize(s, e);
    GatheredFailure(s, e);
    GatheredGroup(s, e.id, t);
    FinalizeBegins(g, e.id, e.order, e.prep, t);
    SameMembersAbort(s, g, Next(s, e), t, e.id);
  }

  lemma GatheredGroup(s: State, id: JobId, t: TxnId)
    requires id in s.jobs
    ensures Members(Gathered(s, id), t) == Members(s, t)
  {
  }

  lemma FinalizeBegins(s: State, j: JobId, order: seq<JobId>, prep: map<JobId, int>, t: TxnId)
    requires Inv(s) && CanFinalize(s, j, order, prep) && t in s.txns && !s.txns[t].aborting
    requires t in DoFinalize(s, j, order, prep).txns && DoFinalize(s, j, order, prep).txns[t].aborting
    ensures AbortsBy(s, DoFinalize(s, j, order, prep), t, j)
    ensures
      DoFinalize(s, j, order, prep).txns[t].spared ==
      if FirstFailure(s.jobs, order, prep) == FailedAt(j) then {} else {j}
  {
    FinalizeAborts(s, j, order, prep);
  }

  lemma CancelBegins(s: State, e: Event, t: TxnId)
    requires e.Cancel? && Enabled(s, e) && JobOk(s.jobs[e.id]) && s.jobs[e.id].group in s.txns
    requires t in s.txns && !s.txns[t].aborting && t in Next(s, e).txns && Next(s, e).txns[t].aborting
    ensures AbortsBy(s, Next(s, e), t, e.id) && Next(s, e).txns[t].spared == {}
  {
    var id, j := e.id, s.jobs[e.id];
    var j1 := CancelAsync(j, e.answer);
    if !Started(j) {
      assert s.jobs[id := j1][id := UpdateRc(j1)] == s.jobs[id := UpdateRc(j1)];
      TxnAbortAborts(s, s.(jobs := s.jobs[id := UpdateRc(j1)]), id);
    } else {
      TxnAbortAborts(s, s.(jobs := s.jobs[id := j1]), id);
    }
  }

  /**
  In every run, a transaction starts to abort in a step of one of its jobs, the initiator, and all its other jobs are
  force-cancelled.  The initiator is spared exactly if it was finalizing the transaction and the first prepare callback
  to fail was not its own; so not if it failed or was force-cancelled.
  */
  lemma AbortBegins(states: seq<State>, events: seq<Event>, i: nat, t: TxnId)
    requires IsRun(states, events) && i < |events| && t in states[i].txns && !states[i].txns[t].aborting
    requires t in states[i + 1].txns && states[i + 1].txns[t].aborting
    ensures
      var s, e, s2 := states[i], events[i], states[i + 1];
      && (e.Exit? || e.Finalize? || e.Cancel?) && AbortsBy(s, s2, t, e.id) && s2.txns[t].spared == Spares(s, e)
  {
    var s, e := states[i], events[i];
    RunKeepsInv(states, events, i);
    if e.Exit? {
      ExitBegins(s, e, t);
    } else if e.Cancel? {
      assert JobOk(s.jobs[e.id]) && s.jobs[e.id].group in s.txns;
      CancelBegins(s, e, t);
    } else if e.Finalize? {
      FinalizeBegins(s, e.id, e.order, e.prep, t);
    }
  }

  // ---------------------------------------------------------------------------------------------
  // When it is not all or nothing

  /**
  The state at the end of job_do_finalize_locked, with the abort loop if it comes to that: all jobs have completed.
  */
  ghost function FinalizedTxn(s: State, j: JobId, order: seq<JobId>, prep: map<JobId, int>, order2: seq<JobId>): State
    requires Inv(s) && CanFinalize(s, j, order, prep) && forall k :: k in order2 ==> k in s.jobs
  {
    var s1 := DoFinalize(s, j, order, prep);
    KeysStay(s, j, order, prep);
    if FirstFailure(s.jobs, order, prep).FailedAt? then FinalizeAll(s1, order2) else s1
  }

  lemma KeysStay(s: State, j: JobId, order: seq<JobId>, prep: map<JobId, int>)
    requires Inv(s) && CanFinalize(s, j, order, prep)
    ensures DoFinalize(s, j, order, prep).jobs.Keys == s.jobs.Keys
  {
    AllSet(s, j);
    DoFinalizeForm(s, j, order, prep);
    if FirstFailure(s.jobs, order, prep).AllPrepared? { FinalizeAllForm(PrepareAll(s, order, prep), order); }
  }

  /** A prepare callback has failed and `j` has started the abort: job `k` can be finalized. */
  lemma AbortedIsDue(s: State, s1: State, j: JobId, f: JobId, ret: int, k: JobId)
    requires j in s.jobs && f in s.jobs && s.jobs[j].inTxn && Set(s.jobs[j]) && ret != 0
    requires s.jobs[j].group in s.txns && !s.txns[s.jobs[j].group].aborting
    requires s1.txns == s.txns && s1.jobs == s.jobs[f := To(s.jobs[f].(ret := ret), Aborting)]
    requires k in s.jobs && s.jobs[k].group == s.jobs[j].group
    requires s.jobs[k].inTxn && Set(s.jobs[k]) && Started(s.jobs[k])
    ensures
      var s2 := TxnAbort(s1, j);
      && Due(s2, k) && Fate(s2, k) == (if k == j && f != j then Commit(k) else Abort(k))
      && Started(s2.jobs[k]) && Enabled(s2, AbortStep(k))
  {
    FailedFinalizeAborts(s, s1, j, f, ret);
    AbortJobIs(s1, j, k);
    assert k in Members(s1, s.jobs[j].group);
  }

  lemma AllDue(s: State, j: JobId, order: seq<JobId>, prep: map<JobId, int>, k: JobId)
    requires Inv(s) && CanFinalize(s, j, order, prep) && FirstFailure(s.jobs, order, prep).FailedAt? && k in order
    ensures
      var s1, first := DoFinalize(s, j, order, prep), FirstFailure(s.jobs, order, prep).job;
      && Due(s1, k) && Fate(s1, k) == (if k == j && first != j then Commit(k) else Abort(k))
      && Started(s1.jobs[k]) && Enabled(s1, AbortStep(k))
  {
    var o := FirstFailure(s.jobs, order, prep);
    AllSet(s, j);
    DoFinalizeForm(s, j, order, prep);
    assert k in Members(s, s.jobs[j].group) && JobOk(s.jobs[k]);
    AbortedIsDue(s, PrepareAll(s, order, prep), j, o.job, prep[o.job], k);
  }

  /** Job `k` has left its transaction, committed or aborted. */
  ghost predicate Gone(s: State, k: JobId, committed: bool) {
    && k in s.jobs && s.jobs[k].group in s.txns && !s.jobs[k].inTxn && !Abandoned(s.jobs[k])
    && (Fate(s, k).Commit? <==> committed)
  }

  /** The one call on a job that has left. */
  lemma OneCall(s: State, k: JobId, committed: bool)
    requires Ended(s) && Gone(s, k, committed)
    ensures (Commit(k) in s.log <==> committed) && (Abort(k) in s.log <==> !committed)
  {
    assert EndOk(s, k);
    if Commit(k) in s.log { var i :| 0 <= i < |s.log| && s.log[i] == Commit(k); assert CallOk(s, i); }
    if Abort(k) in s.log { var i :| 0 <= i < |s.log| && s.log[i] == Abort(k); assert CallOk(s, i); }
  }

  lemma AbortedIsGone(s: State, order: seq<JobId>, k: JobId)
    requires Ended(s) && (forall a, b :: 0 <= a < b < |order| ==> order[a] != order[b]) && k in order
    requires forall m :: m in order ==> m in s.jobs && Due(s, m)
    requires Due(s, k) && Started(s.jobs[k])
    ensures Ended(FinalizeAll(s, order)) && Gone(FinalizeAll(s, order), k, Fate(s, k).Commit?)
  {
    FinalizeAllKeepsEnded(s, order);
    FinalizedIs(s.jobs[k]);
  }

  lemma CommittedIsGone(s: State, j: JobId, order: seq<JobId>, prep: map<JobId, int>, k: JobId)
    requires Inv(s) && CanFinalize(s, j, order, prep) && FirstFailure(s.jobs, order, prep).AllPrepared? && k in order
    ensures Gone(DoFinalize(s, j, order, prep), k, true)
  {
    AllSet(s, j);
    DoFinalizeForm(s, j, order, prep);
    FinalizeAllForm(PrepareAll(s, order, prep), order);
    assert k in Members(s, s.jobs[j].group) && JobOk(s.jobs[k]);
  }

  lemma FinalizedIsGone(s: State, j: JobId, order: seq<JobId>, prep: map<JobId, int>, order2: seq<JobId>, k: JobId)
    requires Inv(s) && Ended(s) && CanFinalize(s, j, order, prep)
    requires ListOf(order2, Members(s, s.jobs[j].group)) && k in order
    ensures
      var s2, first := FinalizedTxn(s, j, order, prep, order2), FirstFailure(s.jobs, order, prep);
      Ended(s2) && Gone(s2, k, first.AllPrepared? || (k == j && first != FailedAt(j)))
  {
    var s1, first := DoFinalize(s, j, order, prep), FirstFailure(s.jobs, order, prep);
    DoFinalizeKeepsEnded(s, j, order, prep);
    if first.FailedAt? {
      forall m | m in order2
        ensures m in s1.jobs && Due(s1, m)
      {
        assert m in order;
        AllDue(s, j, order, prep, m);
      }
      AllDue(s, j, order, prep, k);
      AbortedIsGone(s1, order2, k);
    } else {
      CommittedIsGone(s, j, order, prep, k);
    }
  }

  /**
  Finalizing a transaction, for any results of the prepare callbacks: every job is committed if none fails; otherwise
  every job is aborted, except that the job that asked to finalize is committed if the first failing callback was
  another job's.  So a transaction is torn apart exactly if the first job in its list whose prepare callback fails is
  not the one that asked to finalize it.
  */
  lemma FailedPrepare(s: State, j: JobId, order: seq<JobId>, prep: map<JobId, int>, order2: seq<JobId>)
    requires Inv(s) && Ended(s) && CanFinalize(s, j, order, prep) && ListOf(order2, Members(s, s.jobs[j].group))
    ensures
      var log, first := FinalizedTxn(s, j, order, prep, order2).log, FirstFailure(s.jobs, order, prep);
      && (forall k :: k in order ==>
            && (Commit(k) in log <==> first.AllPrepared? || (k == j && first != FailedAt(j)))
            && (Abort(k) in log <==> Commit(k) !in log))
      && ((Commit(j) in log && exists m :: m in order && Abort(m) in log) <==> first.FailedAt? && first.job != j)
  {
    var s2, first := FinalizedTxn(s, j, order, prep, order2), FirstFailure(s.jobs, order, prep);
    assert j in order by { AllSet(s, j); }
    forall k | k in order
      ensures Commit(k) in s2.log <==> first.AllPrepared? || (k == j && first != FailedAt(j))
      ensures Abort(k) in s2.log <==> Commit(k) !in s2.log
    {
      FinalizedIsGone(s, j, order, prep, order2, k);
      OneCall(s2, k, first.AllPrepared? || (k == j && first != FailedAt(j)));
    }
    if first.FailedAt? && first.job != j { assert Abort(first.job) in s2.log; }
  }

  // ---------------------------------------------------------------------------------------------
  // The barrier

  /** The trace has grown, and if not `pending`, then without the job becoming PENDING. */
  ghost predicate Grown(trace: seq<Status>, trace2: seq<Status>, pending: bool) {
    trace <= trace2 && (pending || forall i :: |trace| <= i < |trace2| ==> !trace2[i].Pending?)
  }

  /** A job completes, without failure, and all other jobs of its transaction have. */
  ghost predicate Gathers(s: State, e: Event)
    requires Enabled(s, e)
  {
    && e.Exit? && s.jobs[e.id].ret == 0 && !s.jobs[e.id].cancel.forced
    && forall k :: k in Members(s, s.jobs[e.id].group) && k != e.id ==> IsCompleted(s.jobs[k].status)
  }

  lemma AbortGrows(s: State, j: JobId, k: JobId)
    requires j in s.jobs && k in s.jobs
    ensures k in TxnAbort(s, j).jobs && TxnAbort(s, j).jobs[k].trace == s.jobs[k].trace
  {
  }

  lemma NextGrows(trace: seq<Status>, s: Status)
    requires !s.Pending?
    ensures Grown(trace, trace + [s], false)
  {
  }

  lemma GrownTwice(a: seq<Status>, b: seq<Status>, c: seq<Status>)
    requires Grown(a, b, false) && Grown(b, c, false)
    ensures Grown(a, c, false)
  {
  }

  lemma FinalizedGrows(j: Job)
    ensures Grown(j.trace, Finalized(j).trace, false)
  {
    var t := UpdateRc(j).trace;
    UpdateGrows(j);
    NextGrows(t, Concluded);
    NextGrows(t + [Concluded], Null);
    GrownTwice(j.trace, t, t + [Concluded]);
    GrownTwice(j.trace, t + [Concluded], t + [Concluded] + [Null]);
    ConcludeTrace(UpdateRc(j).(inTxn := false));
  }

  lemma ConcludeTrace(j: Job)
    ensures Conclude(j).trace == j.trace + [Concluded] || Conclude(j).trace == j.trace + [Concluded] + [Null]
  {
  }

  lemma UpdateGrows(j: Job)
    ensures Grown(j.trace, UpdateRc(j).trace, false)
  {
    NextGrows(j.trace, Aborting);
  }

  lemma FinalizeGrows(s: State, j: JobId, order: seq<JobId>, prep: map<JobId, int>, k: JobId)
    requires Inv(s) && CanFinalize(s, j, order, prep) && k in s.jobs
    ensures k in DoFinalize(s, j, order, prep).jobs
    ensures Grown(s.jobs[k].trace, DoFinalize(s, j, order, prep).jobs[k].trace, false)
  {
    AllSet(s, j);
    SetFinalizeGrows(s, j, order, prep, k);
  }

  lemma SetFinalizeGrows(s: State, j: JobId, order: seq<JobId>, prep: map<JobId, int>, k: JobId)
    requires j in s.jobs && (forall m :: m in order ==> m in s.jobs && m in prep && Set(s.jobs[m])) && k in s.jobs
    requires forall a, b :: 0 <= a < b < |order| ==> order[a] != order[b]
    ensures k in DoFinalize(s, j, order, prep).jobs
    ensures Grown(s.jobs[k].trace, DoFinalize(s, j, order, prep).jobs[k].trace, false)
  {
    DoFinalizeForm(s, j, order, prep);
    var s1 := PrepareAll(s, order, prep);
    if FirstFailure(s.jobs, order, prep).FailedAt? {
      AbortGrows(s1, j, k);
      assert s1.jobs[k].trace == s.jobs[k].trace || s1.jobs[k].trace == s.jobs[k].trace + [Aborting];
    } else {
      FinalizeAllForm(s1, order);
      FinalizedGrows(s.jobs[k]);
    }
  }

  lemma StatusTrace(j: Job, e: Event)
    requires ChangesStatus(e) && !e.PauseWake?
    ensures StatusStep(j, e).trace == j.trace + [StatusStep(j, e).status]
  {
  }

  lemma NewStatus(j: Job, e: Event)
    requires ChangesStatus(e) && !e.PauseWake?
    ensures !StatusStep(j, e).status.Pending?
  {
  }

  lemma SavedStatus(j: Job)
    requires StatusFits(j) && j.co.AtPause?
    ensures j.co.saved.Running? || j.co.saved.Ready?
  {
  }

  lemma WakeTrace(j: Job, e: Event)
    requires e.PauseWake?
    ensures StatusStep(j, e).trace == if j.co.AtPause? then j.trace + [j.co.saved] else j.trace
  {
  }

  lemma QuietJobGrows(j: Job, e: Event)
    requires StatusFits(j)
    ensures Grown(j.trace, Quiet(j, e).trace, false)
  {
    if e.EarlyFail? || e.Dismiss? {
      NextGrows(j.trace, Null);
    } else if e.PauseWake? {
      WakeTrace(j, e);
      if j.co.AtPause? {
        SavedStatus(j);
        NextGrows(j.trace, j.co.saved);
      }
    } else if ChangesStatus(e) {
      StatusTrace(j, e);
      NewStatus(j, e);
      NextGrows(j.trace, StatusStep(j, e).status);
    }
  }

  lemma QuietGrows(s: State, e: Event, k: JobId)
    requires Inv(s) && Enabled(s, e) && (IsQuiet(e) || e.EarlyFail? || e.Create? || e.AbortStep?) && k in s.jobs
    ensures k in Next(s, e).jobs && Grown(s.jobs[k].trace, Next(s, e).jobs[k].trace, false)
  {
    if e.AbortStep? {
      FinalizedGrows(s.jobs[k]);
    } else if !e.Create? {
      assert JobOk(s.jobs[k]);
      QuietJobGrows(s.jobs[k], e);
    }
  }

  lemma GatheredGrows(s: State, id: JobId, k: JobId)
    requires id in s.jobs && k in s.jobs && s.jobs[id].inTxn
    ensures Grown(s.jobs[k].trace, Gathered(s, id).jobs[k].trace, true)
    ensures k !in Members(s, s.jobs[id].group) && k != id ==> Gathered(s, id).jobs[k] == s.jobs[k]
  {
    GatheredIs(s, id, k);
    var t := s.jobs[k].trace;
    assert t <= t + [Pending] && t <= t + [Waiting] + [Pending];
  }

  lemma ExitGrows(s: State, e: Event, k: JobId)
    requires Inv(s) && e.Exit? && Enabled(s, e) && k in s.jobs
    ensures k in Next(s, e).jobs
    ensures Grown(s.jobs[k].trace, Next(s, e).jobs[k].trace, Gathers(s, e) && k in Members(s, s.jobs[e.id].group))
  {
    if s.jobs[e.id].ret != 0 || s.jobs[e.id].cancel.forced {
      ExitFailureGrows(s, e, k);
    } else if Gathers(s, e) {
      GatheringGrows(s, e, k);
    } else {
      WaitingGrows(s, e, k);
    }
  }

  lemma WaitingGrows(s: State, e: Event, k: JobId)
    requires e.Exit? && Enabled(s, e) && k in s.jobs && s.jobs[e.id].ret == 0
    requires !s.jobs[e.id].cancel.forced && !Gathers(s, e)
    ensures k in Next(s, e).jobs && Grown(s.jobs[k].trace, Next(s, e).jobs[k].trace, false)
  {
    SuccessForm(s, e);
    NextGrows(s.jobs[e.id].trace, Waiting);
  }

  lemma GatheringGrows(s: State, e: Event, k: JobId)
    requires Inv(s) && e.Exit? && Enabled(s, e) && k in s.jobs && Gathers(s, e)
    ensures k in Next(s, e).jobs
    ensures Grown(s.jobs[k].trace, Next(s, e).jobs[k].trace, k in Members(s, s.jobs[e.id].group))
  {
    var id, g := e.id, Gathered(s, e.id);
    SuccessForm(s, e);
    assert JobOk(s.jobs[id]);
    assert id in Members(s, s.jobs[id].group);
    GatheredGrows(s, id, k);
    GatheredCanFinalize(s, e);
    FinalizeGrows(g, id, e.order, e.prep, k);
    var trace2 := DoFinalize(g, id, e.order, e.prep).jobs[k].trace;
    GrownOn(s.jobs[k].trace, g.jobs[k].trace, trace2, k in Members(s, s.jobs[id].group));
  }

  lemma GrownOn(a: seq<Status>, b: seq<Status>, c: seq<Status>, pending: bool)
    requires Grown(a, b, true) && (!pending ==> b == a) && Grown(b, c, false)
    ensures Grown(a, b, pending) && Grown(a, c, pending)
  {
  }

  lemma ExitFailureGrows(s: State, e: Event, k: JobId)
    requires e.Exit? && Enabled(s, e) && k in s.jobs && (s.jobs[e.id].ret != 0 || s.jobs[e.id].cancel.forced)
    ensures k in Next(s, e).jobs && Grown(s.jobs[k].trace, Next(s, e).jobs[k].trace, false)
  {
    FailedExitForm(s, e);
    UpdateGrows(s.jobs[e.id].(co := Exited));
    AbortGrows(s.(jobs := s.jobs[e.id := UpdateRc(s.jobs[e.id].(co := Exited))]), e.id, k);
  }

  lemma CancelGrows(s: State, e: Event, k: JobId)
    requires e.Cancel? && Enabled(s, e) && k in s.jobs && JobOk(s.jobs[e.id])
    ensures k in Next(s, e).jobs && Grown(s.jobs[k].trace, Next(s, e).jobs[k].trace, false)
  {
    var id, j := e.id, s.jobs[e.id];
    var j1 := CancelAsync(j, e.answer);
    if j.status.Concluded? {
      NextGrows(j.trace, Null);
    } else if !Started(j) {
      assert s.jobs[id := j1][id := UpdateRc(j1)] == s.jobs[id := UpdateRc(j1)];
      UpdateGrows(j1);
      AbortGrows(s.(jobs := s.jobs[id := UpdateRc(j1)]), id, k);
    } else {
      AbortGrows(s.(jobs := s.jobs[id := j1]), id, k);
    }
  }

  /**
  The barrier of a transaction: a step only adds statuses to what a job has gone through, and a job becomes PENDING
  only when every job of its transaction has completed with 0, the last of them in this very step.
  */
  lemma PendingIsBarrier(states: seq<State>, events: seq<Event>, i: nat, k: JobId)
    requires IsRun(states, events) && i < |events| && k in states[i].jobs
    ensures
      var s, e, s2 := states[i], events[i], states[i + 1];
      && k in s2.jobs && s.jobs[k].trace <= s2.jobs[k].trace
      && (Pending in s2.jobs[k].trace[|s.jobs[k].trace|..] ==>
            && e.Exit? && k in Members(s, s.jobs[e.id].group) && s.jobs[e.id].ret == 0 && !s.jobs[e.id].cancel.forced
            && forall m :: m in Members(s, s.jobs[e.id].group) && m != e.id ==>
                 s.jobs[m].status.Waiting? && s.jobs[m].ret == 0)
  {
    var s, e := states[i], events[i];
    RunKeepsInv(states, events, i);
    StepGrows(s, e, k);
    if Gathers(s, e) { SuccessMeans(s, e.id); }
  }

  lemma StepGrows(s: State, e: Event, k: JobId)
    requires Inv(s) && Enabled(s, e) && k in s.jobs
    ensures k in Next(s, e).jobs
    ensures Grown(s.jobs[k].trace, Next(s, e).jobs[k].trace, Gathers(s, e) && k in Members(s, s.jobs[e.id].group))
  {
    if e.Exit? {
      ExitGrows(s, e, k);
    } else if e.Cancel? {
      assert JobOk(s.jobs[e.id]);
      CancelGrows(s, e, k);
    } else if e.Finalize? {
      FinalizeGrows(s, e.id, e.order, e.prep, k);
    } else {
      QuietGrows(s, e, k);
    }
  }
}
