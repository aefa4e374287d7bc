/**
What every step of the job machinery keeps: legal statuses, pause counts, and what a transaction's jobs have in common.
*/
module JobInvariant {
  import opened Jobs

  /** Every change of status so far was allowed. */
  ghost predicate Legal(trace: seq<Status>) {
    |trace| > 0 && trace[0] == Undefined && forall i, k {:trigger trace[i], trace[k]} ::
      0 <= i < k < |trace| && k == i + 1 ==> Allowed(trace[i], trace[k])
  }

  /** How far the coroutine is and what the status says. */
  predicate StatusFits(j: Job) {
    match j.co
    case NotStarted => j.status.Created? || j.status.Aborting? || j.status.Null?
    case Body => j.status.Running? || j.status.Ready?
    case AtPause(saved) => (j.status.Paused? && saved.Running?) || (j.status.Standby? && saved.Ready?)
    case Returned => j.status.Running? || j.status.Ready?
    case Exited => IsCompleted(j.status)
  }

  /** Before it is first READY a job has not been READY. */
  predicate Early(s: Status) {
    s.Undefined? || s.Created? || s.Running? || s.Paused?
  }

  /** A job with this status can have gone through these statuses. */
  ghost predicate TraceOk(trace: seq<Status>, status: Status) {
    Legal(trace) && trace[|trace| - 1] == status && (Early(status) ==> Ready !in trace)
  }

  predicate FieldsOk(j: Job) {
    && StatusFits(j)
    && (j.cancel.forced ==> j.cancel.requested)
    && (j.inTxn <==> !j.status.Concluded? && !j.status.Null?)
    && (j.paused <==> j.co.AtPause? || (j.co.NotStarted? && !j.status.Null?))
    && (!j.status.Null? ==> j.pauseCount == (if Started(j) then 0 else 1) + (if j.userPaused then 1 else 0) + j.drains)
    && (j.failedIo ==> j.userPaused)
    && (j.status.Aborting? ==> j.ret != 0)
    && (j.status.Created? || j.status.Waiting? || j.status.Pending? || j.co.Body? || j.co.AtPause? ==> j.ret == 0)
  }

  ghost predicate JobOk(j: Job) {
    TraceOk(j.trace, j.status) && FieldsOk(j)
  }

  /** A job in a transaction: before an abort nothing has gone wrong; after its start it can no longer succeed. */
  predicate MemberOk(txn: Txn, id: JobId, j: Job) {
    if !txn.aborting then !j.status.Aborting? && (j.status.Waiting? || j.status.Pending? ==> !j.cancel.forced)
    else
      && (id in txn.spared ==> j.status.Pending?)
      && (id !in txn.spared ==> if IsCompleted(j.status) then j.cancel.forced || j.ret != 0 else j.cancel.forced)
  }

  /** The barrier: either all jobs of the transaction are PENDING or none is and some job has not completed. */
  ghost predicate Barrier(s: State, t: TxnId) {
    || (forall j :: j in Members(s, t) ==> s.jobs[j].status.Pending?)
    || ((forall j :: j in Members(s, t) ==> !s.jobs[j].status.Pending?) && exists j ::
         j in Members(s, t) && !IsCompleted(s.jobs[j].status))
  }

  ghost predicate TxnOk(s: State, t: TxnId)
    requires t in s.txns
  {
    && (forall j {:trigger MemberOk(s.txns[t], j, s.jobs[j])} :: j in Members(s, t) ==>
         MemberOk(s.txns[t], j, s.jobs[j]))
    && (!s.txns[t].aborting ==> Barrier(s, t) && Together(s, t))
  }

  /** Nobody leaves the transaction before it is over, except jobs whose creation fails. */
  ghost predicate Together(s: State, t: TxnId) {
    || Members(s, t) == {}
    || forall k :: k in s.jobs && s.jobs[k].group == t ==>
         s.jobs[k].inTxn || (s.jobs[k].co.NotStarted? && s.jobs[k].status.Null?)
  }

  /** Before the call at `i` every prepare callback of the transaction `t` has returned 0. */
  ghost predicate PreparedBefore(s: State, t: TxnId, i: nat)
    requires i <= |s.log|
  {
    forall k :: k in s.jobs && s.jobs[k].group == t && Started(s.jobs[k]) && s.jobs[k].options.hasPrepare ==>
      Prepare(k, 0) in s.log[..i]
  }

  /**
  A job has been committed: it was an abort's spared initiator, or all jobs of its transaction were prepared first.
  */
  ghost predicate CommitOk(s: State, i: nat)
    requires i < |s.log| && s.log[i].Commit?
  {
    var j := s.log[i].job;
    && j in s.jobs && s.jobs[j].co.Exited? && !s.jobs[j].inTxn && s.jobs[j].group in s.txns
    && (if s.txns[s.jobs[j].group].aborting then j in s.txns[s.jobs[j].group].spared
        else PreparedBefore(s, s.jobs[j].group, i) && AllCommitted(s, s.jobs[j].group))
  }

  /** Every job of the transaction that was started has been committed. */
  ghost predicate AllCommitted(s: State, t: TxnId) {
    forall k :: k in s.jobs && s.jobs[k].group == t ==>
      Commit(k) in s.log || (s.jobs[k].co.NotStarted? && s.jobs[k].status.Null?)
  }

  ghost predicate LogOk(s: State) {
    && (forall i {:trigger s.log[i]} :: 0 <= i < |s.log| && s.log[i].Commit? ==> CommitOk(s, i))
    && (forall i {:trigger s.log[i]} :: 0 <= i < |s.log| && s.log[i].Abort? ==>
          s.log[i].job in s.jobs && s.jobs[s.log[i].job].group in s.txns && s.txns[s.jobs[s.log[i].job].group].aborting)
  }

  ghost predicate Inv(s: State) {
    && (forall j {:trigger JobOk(s.jobs[j])} :: j in s.jobs ==> JobOk(s.jobs[j]))
    && (forall j {:trigger s.jobs[j].group} :: j in s.jobs ==> s.jobs[j].group in s.txns)
    && (forall t {:trigger TxnOk(s, t)} :: t in s.txns ==> TxnOk(s, t))
    && LogOk(s)
  }

  // ---------------------------------------------------------------------------------------------
  // One job at a time

  /** An allowed change of status keeps the trace legal. */
  lemma NextKeepsTrace(trace: seq<Status>, s0: Status, s1: Status)
    requires TraceOk(trace, s0) && Allowed(s0, s1) && (Early(s1) ==> Early(s0))
    ensures TraceOk(trace + [s1], s1)
  {
  }

  lemma UnpauseKeepsJobOk(j: Job)
    requires JobOk(j)
    ensures JobOk(Unpause(j))
  {
  }

  lemma MarkKeepsJobOk(j: Job, force: bool)
    requires JobOk(j)
    ensures JobOk(MarkCancelled(j, force))
  {
  }

  lemma CancelKeepsJobOk(j: Job, force: bool)
    requires JobOk(j)
    ensures JobOk(CancelAsync(j, force))
  {
    UnpauseKeepsJobOk(j);
    MarkKeepsJobOk(Unpause(j), force);
  }

  lemma AbortingIsOk(j: Job, ret: int)
    requires JobOk(j) && IsCompleted(j.status) && j.inTxn && ret != 0
    ensures JobOk(To(j.(ret := ret), Aborting))
  {
  }

  lemma UpdateRcKeepsJobOk(j: Job)
    requires JobOk(j) && IsCompleted(j.status) && j.inTxn
    ensures JobOk(UpdateRc(j))
  {
    AbortingIsOk(j, -ECANCELED);
    if j.ret != 0 { AbortingIsOk(j, j.ret); assert j.(ret := j.ret) == j; }
  }

  lemma DismissIsOk(j: Job)
    requires JobOk(j) && (j.status.Concluded? || j.status.Created?)
    ensures JobOk(DoDismiss(j))
  {
  }

  lemma ConcludedIsOk(j: Job)
    requires JobOk(j) && j.co.Exited? && (j.status.Aborting? || j.status.Pending?)
    ensures JobOk(To(j.(inTxn := false), Concluded))
  {
  }

  lemma UnstartedIsOk(j: Job)
    requires JobOk(j) && j.co.NotStarted? && j.status.Aborting?
    ensures JobOk(Conclude(j.(inTxn := false)))
  {
    NextKeepsTrace(j.trace, j.status, Concluded);
    NextKeepsTrace(j.trace + [Concluded], Concluded, Null);
  }

  lemma ConcludeIsOk(j: Job)
    requires JobOk(j) && (j.status.Aborting? || j.status.Pending?)
    ensures JobOk(Conclude(j.(inTxn := false)))
  {
    if j.co.NotStarted? {
      UnstartedIsOk(j);
    } else {
      ConcludedIsOk(j);
      DismissIsOk(To(j.(inTxn := false), Concluded));
    }
  }

  /** A job that failed, or that is PENDING and did not, can be finalized. */
  lemma FinalizedIsOk(j: Job)
    requires JobOk(j) && IsCompleted(j.status) && j.inTxn && (j.status.Pending? || j.ret != 0 || j.cancel.forced)
    ensures JobOk(Finalized(j))
  {
    UpdateRcKeepsJobOk(j);
    ConcludeIsOk(UpdateRc(j));
  }

  lemma StartIsOk(j: Job, e: Event)
    requires e.Start? && JobOk(j) && j.status.Created?
    ensures JobOk(Quiet(j, e))
  {
    NextKeepsTrace(j.trace, j.status, Running);
  }

  lemma PauseYieldIsOk(j: Job, e: Event)
    requires e.PauseYield? && JobOk(j) && j.co.Body?
    ensures JobOk(Quiet(j, e))
  {
    NextKeepsTrace(j.trace, j.status, if j.status.Ready? then Standby else Paused);
  }

  lemma PauseWakeIsOk(j: Job, e: Event)
    requires e.PauseWake? && JobOk(j) && j.co.AtPause?
    ensures JobOk(Quiet(j, e))
  {
    NextKeepsTrace(j.trace, j.status, j.co.saved);
  }

  lemma BecomeReadyIsOk(j: Job, e: Event)
    requires e.BecomeReady? && JobOk(j) && j.co.Body? && Ready !in j.trace
    ensures JobOk(Quiet(j, e))
  {
    assert !j.status.Ready? by { assert j.trace[|j.trace| - 1] in j.trace; }
    NextKeepsTrace(j.trace, j.status, Ready);
  }

  lemma UserPausingIsOk(j: Job, e: Event)
    requires JobOk(j) && !j.status.Null? && ((e.UserPause? && !j.userPaused) || (e.UserResume? && j.userPaused))
    ensures JobOk(Quiet(j, e))
  {
  }

  lemma DrainIsOk(j: Job, e: Event)
    requires JobOk(j) && !j.status.Null? && (e.DrainBegin? || (e.DrainEnd? && j.drains > 0))
    ensures JobOk(Quiet(j, e))
  {
  }

  lemma IoErrorIsOk(j: Job, e: Event)
    requires JobOk(j) && !j.status.Null? && ((e.IoError? && (j.co.Body? || j.co.AtPause?)) || e.IostatusReset?)
    ensures JobOk(Quiet(j, e))
  {
  }

  /** Pausing and resuming keep count of who has paused the job. */
  lemma PausingIsOk(j: Job, e: Event)
    requires JobOk(j) && !j.status.Null?
    requires
      || (e.UserPause? && !j.userPaused) || (e.UserResume? && j.userPaused)
      || e.DrainBegin? || (e.DrainEnd? && j.drains > 0)
      || (e.IoError? && (j.co.Body? || j.co.AtPause?)) || e.IostatusReset? || (e.RunReturn? && j.co.Body?)
    ensures JobOk(Quiet(j, e))
  {
    if e.UserPause? || e.UserResume? {
      UserPausingIsOk(j, e);
    } else if e.DrainBegin? || e.DrainEnd? {
      DrainIsOk(j, e);
    } else if e.IoError? || e.IostatusReset? {
      IoErrorIsOk(j, e);
    }
  }

  /** Every step that changes one job keeps that job in order. */
  lemma QuietKeepsJobOk(s: State, e: Event)
    requires Enabled(s, e) && !e.Create? && !e.Exit? && !e.Cancel?
    requires !e.Finalize? && !e.AbortStep? && JobOk(s.jobs[e.id])
    ensures JobOk(Quiet(s.jobs[e.id], e))
  {
    var j := s.jobs[e.id];
    match e
    case EarlyFail(_) => DismissIsOk(j);
    case Start(_) => StartIsOk(j, e);
    case PauseYield(_) => PauseYieldIsOk(j, e);
    case PauseWake(_) => PauseWakeIsOk(j, e);
    case BecomeReady(_) => BecomeReadyIsOk(j, e);
    case Dismiss(_) => DismissIsOk(j);
    case _ => PausingIsOk(j, e);
  }


  // ---------------------------------------------------------------------------------------------
  // The log

  /** Once a transaction has committed without an abort, no job is left in it. */
  lemma CommittedIsOver(s: State, i: nat, k: JobId)
    requires LogOk(s) && (forall j {:trigger JobOk(s.jobs[j])} :: j in s.jobs ==> JobOk(s.jobs[j]))
    requires i < |s.log| && s.log[i].Commit? && s.log[i].job in s.jobs && s.jobs[s.log[i].job].group in s.txns
    requires !s.txns[s.jobs[s.log[i].job].group].aborting
    requires k in s.jobs && s.jobs[k].group == s.jobs[s.log[i].job].group
    ensures !s.jobs[k].inTxn
  {
    assert CommitOk(s, i) && JobOk(s.jobs[k]);
    if Commit(k) in s.log {
      var i2 :| 0 <= i2 < |s.log| && s.log[i2] == Commit(k);
      assert CommitOk(s, i2);
    }
  }

  /** A change of a job that matters to no call made so far. */
  predicate Calm(j: Job, j2: Job) {
    && (j2.co.NotStarted? <==> j.co.NotStarted?) && (j.co.Exited? ==> j2.co.Exited?) && (!j.inTxn ==> !j2.inTxn)
    && (j.co.NotStarted? && j.status.Null? ==> j2.status.Null?)
  }

  /** Jobs still in their transactions may change freely, and a transaction that has jobs may start to abort. */
  ghost predicate Later(s: State, s2: State) {
    && (forall k :: k in s.jobs ==>
          k in s2.jobs && s2.jobs[k].group == s.jobs[k].group && s2.jobs[k].options == s.jobs[k].options &&
          (s.jobs[k].inTxn || Calm(s.jobs[k], s2.jobs[k])))
    && (forall k :: k in s2.jobs && k !in s.jobs ==>
          forall x :: x in s.jobs && s.jobs[x].group == s2.jobs[k].group ==> !s.jobs[x].co.Exited?)
    && (forall t :: t in s.txns ==>
          && t in s2.txns
          && (s2.txns[t] == s.txns[t] || (!s.txns[t].aborting && s2.txns[t].aborting && Members(s, t) != {})))
    && s.log <= s2.log && forall i :: |s.log| <= i < |s2.log| ==> s2.log[i].Prepare?
  }

  lemma LaterKeepsLog(s: State, s2: State)
    requires LogOk(s) && (forall j {:trigger JobOk(s.jobs[j])} :: j in s.jobs ==> JobOk(s.jobs[j])) && Later(s, s2)
    ensures LogOk(s2)
  {
    forall i | 0 <= i < |s2.log| && s2.log[i].Commit?
      ensures CommitOk(s2, i)
    {
      CommitStays(s, s2, i);
    }
  }

  lemma CommitStays(s: State, s2: State, i: nat)
    requires LogOk(s) && (forall j {:trigger JobOk(s.jobs[j])} :: j in s.jobs ==> JobOk(s.jobs[j])) && Later(s, s2)
    requires i < |s2.log| && s2.log[i].Commit?
    ensures CommitOk(s2, i)
  {
    assert i < |s.log| && s.log[i] == s2.log[i] && CommitOk(s, i);
    var t := s.jobs[s.log[i].job].group;
    if !s.txns[t].aborting {
      forall k | k in s.jobs && s.jobs[k].group == t ensures !s.jobs[k].inTxn { CommittedIsOver(s, i, k); }
      assert Members(s, t) == {};
      assert s2.log[..i] == s.log[..i];
      forall k | k in s2.jobs && s2.jobs[k].group == t
        ensures k in s.jobs && Calm(s.jobs[k], s2.jobs[k])
      {
      }
      assert PreparedBefore(s2, t, i);
      forall k | k in s2.jobs && s2.jobs[k].group == t
        ensures Commit(k) in s2.log || (s2.jobs[k].co.NotStarted? && s2.jobs[k].status.Null?)
      {
        if Commit(k) in s.log { assert Commit(k) in s2.log; }
      }
    }
  }

  // ---------------------------------------------------------------------------------------------
  // Transactions

  /** The jobs of transaction `t` are the same in both states. */
  ghost predicate SameGroup(s: State, s2: State, t: TxnId) {
    && (forall k :: k in s.jobs && s.jobs[k].group == t ==> k in s2.jobs && s2.jobs[k] == s.jobs[k])
    && (forall k :: k in s2.jobs && s2.jobs[k].group == t ==> k in s.jobs && s.jobs[k].group == t)
  }

  lemma SameGroupKeepsTxnOk(s: State, s2: State, t: TxnId)
    requires t in s.txns && t in s2.txns && s2.txns[t] == s.txns[t] && SameGroup(s, s2, t) && TxnOk(s, t)
    ensures TxnOk(s2, t)
  {
  }

  /** The states differ only in transaction `t` and its jobs. */
  ghost predicate OnlyIn(s: State, s2: State, t: TxnId) {
    && (forall k :: k in s.jobs ==>
          k in s2.jobs && s2.jobs[k].group == s.jobs[k].group && (s.jobs[k].group != t ==> s2.jobs[k] == s.jobs[k]))
    && (forall k :: k in s2.jobs && k !in s.jobs ==> s2.jobs[k].group == t)
    && t in s2.txns && (forall x :: x in s.txns ==> x in s2.txns)
    && (forall x :: x in s2.txns && x != t ==> x in s.txns && s2.txns[x] == s.txns[x])
  }

  lemma OnlyInKeepsOthers(s: State, s2: State, t: TxnId, x: TxnId)
    requires OnlyIn(s, s2, t) && x != t && x in s.txns && TxnOk(s, x)
    ensures x in s2.txns && TxnOk(s2, x)
  {
  }

  /** A change of one transaction keeps the invariant if it keeps it there and matters to no call made so far. */
  lemma OneTxnKeepsInv(s: State, s2: State, t: TxnId)
    requires Inv(s) && OnlyIn(s, s2, t) && Later(s, s2) && TxnOk(s2, t)
    requires forall k {:trigger JobOk(s2.jobs[k])} :: k in s2.jobs && s2.jobs[k].group == t ==> JobOk(s2.jobs[k])
    ensures Inv(s2)
  {
    forall k | k in s2.jobs
      ensures JobOk(s2.jobs[k])
    {
      if s2.jobs[k].group != t { assert JobOk(s.jobs[k]); }
    }
    forall k | k in s2.jobs
      ensures s2.jobs[k].group in s2.txns
    {
      if k in s.jobs { assert s.jobs[k].group in s.txns; }
    }
    forall x | x in s2.txns
      ensures TxnOk(s2, x)
    {
      if x != t { assert TxnOk(s, x); OnlyInKeepsOthers(s, s2, t, x); }
    }
    LaterKeepsLog(s, s2);
  }

  /** Changing a job that is in its transaction. */
  lemma OneJobIsLater(s: State, id: JobId, j2: Job)
    requires id in s.jobs && s.jobs[id].inTxn && s.jobs[id].group in s.txns
    requires j2.group == s.jobs[id].group && j2.options == s.jobs[id].options
    ensures OnlyIn(s, s.(jobs := s.jobs[id := j2]), j2.group) && Later(s, s.(jobs := s.jobs[id := j2]))
  {
  }

  /** The changes of one job that its transaction does not notice. */
  predicate Unnoticed(j: Job, j2: Job) {
    && j2.group == j.group && j2.options == j.options && j2.inTxn == j.inTxn && j2.cancel.forced == j.cancel.forced
    && if j.inTxn && !IsCompleted(j.status) then !IsCompleted(j2.status)
       else
         && j2.ret == j.ret && j2.co == j.co
         && if j.inTxn then j2.status == j.status else j.status.Null? ==> j2.status.Null?
  }

  lemma UnnoticedKeepsTxnOk(s: State, id: JobId, j2: Job)
    requires id in s.jobs && Unnoticed(s.jobs[id], j2) && s.jobs[id].group in s.txns && TxnOk(s, s.jobs[id].group)
    ensures TxnOk(s.(jobs := s.jobs[id := j2]), j2.group)
  {
    var t, s2 := j2.group, s.(jobs := s.jobs[id := j2]);
    assert Members(s2, t) == Members(s, t);
    forall k | k in Members(s2, t)
      ensures MemberOk(s2.txns[t], k, s2.jobs[k])
    {
      assert MemberOk(s.txns[t], k, s.jobs[k]);
    }
    if !s.txns[t].aborting { UnnoticedKeepsBarrier(s, id, j2); }
  }

  lemma UnnoticedKeepsBarrier(s: State, id: JobId, j2: Job)
    requires id in s.jobs && Unnoticed(s.jobs[id], j2) && Barrier(s, j2.group) && Together(s, j2.group)
    ensures Barrier(s.(jobs := s.jobs[id := j2]), j2.group) && Together(s.(jobs := s.jobs[id := j2]), j2.group)
  {
    var t, s2 := j2.group, s.(jobs := s.jobs[id := j2]);
    assert Members(s2, t) == Members(s, t);
  }

  lemma UnnoticedIsLater(s: State, id: JobId, j2: Job)
    requires id in s.jobs && Unnoticed(s.jobs[id], j2)
    ensures Later(s, s.(jobs := s.jobs[id := j2]))
  {
  }

  lemma UnnoticedKeepsTxns(s: State, id: JobId, j2: Job, t: TxnId)
    requires id in s.jobs && Unnoticed(s.jobs[id], j2) && t in s.txns && TxnOk(s, t) && s.jobs[id].group in s.txns
    ensures TxnOk(s.(jobs := s.jobs[id := j2]), t)
  {
    if t == j2.group {
      UnnoticedKeepsTxnOk(s, id, j2);
    } else {
      SameGroupKeepsTxnOk(s, s.(jobs := s.jobs[id := j2]), t);
    }
  }

  /** Changing one job without its transaction noticing keeps the invariant. */
  lemma UnnoticedKeepsInv(s: State, id: JobId, j2: Job)
    requires Inv(s) && id in s.jobs && Unnoticed(s.jobs[id], j2) && JobOk(j2)
    ensures Inv(s.(jobs := s.jobs[id := j2]))
  {
    var s2 := s.(jobs := s.jobs[id := j2]);
    assert s.jobs[id].group in s.txns;
    forall t | t in s2.txns
      ensures TxnOk(s2, t)
    {
      assert TxnOk(s, t);
      UnnoticedKeepsTxns(s, id, j2, t);
    }
    UnnoticedIsLater(s, id, j2);
    LaterKeepsLog(s, s2);
  }

  predicate IsQuiet(e: Event) {
    !e.Create? && !e.EarlyFail? && !e.Exit? && !e.Cancel? && !e.Finalize? && !e.AbortStep?
  }

  lemma QuietIsUnnoticed(s: State, e: Event)
    requires Enabled(s, e) && IsQuiet(e) && JobOk(s.jobs[e.id])
    ensures Unnoticed(s.jobs[e.id], Quiet(s.jobs[e.id], e))
  {
  }

  lemma CreateIsLater(s: State, e: Event)
    requires e.Create? && Enabled(s, e)
    ensures Later(s, Next(s, e)) && OnlyIn(s, Next(s, e), e.txn)
  {
  }

  lemma NewJobIsOk(e: Event)
    requires e.Create?
    ensures JobOk(NewJob(e))
  {
    assert Legal([Undefined, Created]);
  }

  lemma CreateKeepsInv(s: State, e: Event)
    requires Inv(s) && e.Create? && Enabled(s, e)
    ensures Inv(Next(s, e))
  {
    var s2 := Next(s, e);
    NewJobIsOk(e);
    CreateIsLater(s, e);
    CreateKeepsTxnOk(s, e);
    forall j | j in s2.jobs && s2.jobs[j].group == e.txn
      ensures JobOk(s2.jobs[j])
    {
      if j != e.id { assert JobOk(s.jobs[j]); }
    }
    OneTxnKeepsInv(s, s2, e.txn);
  }

  lemma CreateKeepsTxnOk(s: State, e: Event)
    requires e.Create? && Enabled(s, e) && (forall j {:trigger JobOk(s.jobs[j])} :: j in s.jobs ==> JobOk(s.jobs[j]))
    ensures TxnOk(Next(s, e), e.txn)
  {
    var s2, t := Next(s, e), e.txn;
    forall k | k in s.jobs && s.jobs[k].group == t
      ensures s.jobs[k].inTxn ==> s.jobs[k].status.Created?
    {
      assert JobOk(s.jobs[k]);
    }
    assert e.id in Members(s2, t);
    forall k | k in Members(s2, t) ensures s2.jobs[k].status.Created? && MemberOk(s2.txns[t], k, s2.jobs[k]) { }
    assert Together(s2, t) by { forall k | k in s.jobs && s.jobs[k].group == t ensures JobOk(s.jobs[k]) { } }
  }

  lemma EarlyFailKeepsTxnOk(s: State, e: Event)
    requires e.EarlyFail? && Enabled(s, e) && s.jobs[e.id].group in s.txns
    requires forall j {:trigger JobOk(s.jobs[j])} :: j in s.jobs ==> JobOk(s.jobs[j])
    ensures TxnOk(Next(s, e), s.jobs[e.id].group)
  {
    var s2, t := Next(s, e), s.jobs[e.id].group;
    forall k | k in Members(s2, t)
      ensures s2.jobs[k].status.Created? && MemberOk(s2.txns[t], k, s2.jobs[k])
    {
      assert JobOk(s.jobs[k]);
    }
    forall k | k in s.jobs && s.jobs[k].group == t
      ensures s.jobs[k].inTxn || s.jobs[k].status.Null?
    {
      assert JobOk(s.jobs[k]);
    }
  }

  lemma EarlyFailIsLater(s: State, e: Event)
    requires e.EarlyFail? && Enabled(s, e) && JobOk(s.jobs[e.id]) && s.jobs[e.id].group in s.txns
    ensures Later(s, Next(s, e)) && OnlyIn(s, Next(s, e), s.jobs[e.id].group)
  {
    OneJobIsLater(s, e.id, DoDismiss(s.jobs[e.id]));
  }

  lemma EarlyFailKeepsInv(s: State, e: Event)
    requires Inv(s) && e.EarlyFail? && Enabled(s, e)
    ensures Inv(Next(s, e))
  {
    var s2, t := Next(s, e), s.jobs[e.id].group;
    assert JobOk(s.jobs[e.id]);
    assert t in s.txns;
    QuietKeepsJobOk(s, e);
    EarlyFailIsLater(s, e);
    EarlyFailKeepsTxnOk(s, e);
    forall k | k in s2.jobs && s2.jobs[k].group == t
      ensures JobOk(s2.jobs[k])
    {
      if k != e.id { assert JobOk(s.jobs[k]); }
    }
    OneTxnKeepsInv(s, s2, t);
  }

  // ---------------------------------------------------------------------------------------------
  // Aborting a transaction

  /** The invariant, except perhaps for the transaction of a job that cannot succeed or that asks for an abort. */
  ghost predicate Nearly(s: State, j: JobId) {
    && j in s.jobs && s.jobs[j].inTxn
    && (forall k {:trigger JobOk(s.jobs[k])} :: k in s.jobs ==> JobOk(s.jobs[k]))
    && (forall k {:trigger s.jobs[k].group} :: k in s.jobs ==> s.jobs[k].group in s.txns)
    && (forall t {:trigger TxnOk(s, t)} :: t in s.txns && (t != s.jobs[j].group || s.txns[t].aborting) ==> TxnOk(s, t))
    && (if IsCompleted(s.jobs[j].status) then s.jobs[j].cancel.forced || s.jobs[j].ret != 0 || s.jobs[j].status.Pending?
        else s.jobs[j].cancel.forced)
    && LogOk(s)
  }

  lemma AbortIsLater(s: State, j: JobId)
    requires j in s.jobs && s.jobs[j].inTxn && s.jobs[j].group in s.txns
    ensures Later(s, TxnAbort(s, j))
  {
    assert j in Members(s, s.jobs[j].group);
    forall k | k in s.jobs
      ensures Calm(s.jobs[k], TxnAbort(s, j).jobs[k])
    {
    }
  }

  lemma AbortMembers(s: State, j: JobId)
    requires Nearly(s, j) && !s.txns[s.jobs[j].group].aborting
    ensures TxnOk(TxnAbort(s, j), s.jobs[j].group)
  {
    var s2, t := TxnAbort(s, j), s.jobs[j].group;
    assert Members(s2, t) == Members(s, t);
    forall k | k in Members(s2, t)
      ensures MemberOk(s2.txns[t], k, s2.jobs[k])
    {
    }
  }

  /**
  Starting an abort: the other jobs are force-cancelled, so that none of the transaction's jobs can succeed any more.
  */
  lemma AbortKeepsInv(s: State, j: JobId)
    requires Nearly(s, j)
    ensures Inv(TxnAbort(s, j))
  {
    var s2, t := TxnAbort(s, j), s.jobs[j].group;
    assert t in s.txns;
    if s.txns[t].aborting { return; }
    forall k | k in s2.jobs
      ensures JobOk(s2.jobs[k])
    {
      assert JobOk(s.jobs[k]);
      CancelKeepsJobOk(s.jobs[k], true);
    }
    forall k | k in s2.jobs ensures s2.jobs[k].group in s2.txns { assert s.jobs[k].group in s.txns; }
    forall x | x in s2.txns
      ensures TxnOk(s2, x)
    {
      if x == t { AbortMembers(s, j); } else { assert TxnOk(s, x); SameGroupKeepsTxnOk(s, s2, x); }
    }
    AbortIsLater(s, j);
    LaterKeepsLog(s, s2);
  }

  // ---------------------------------------------------------------------------------------------
  // Completing a job

  /** A job that has not completed becomes ABORTING because it failed or was cancelled. */
  lemma FailureIsOk(j: Job, co: Co, ret: int)
    requires JobOk(j) && ret != 0 && ((j.co.Returned? && co.Exited?) || (j.status.Created? && co.NotStarted?))
    ensures JobOk(To(j.(co := co, ret := ret), Aborting))
  {
  }

  lemma WaitingIsOk(j: Job)
    requires JobOk(j) && j.co.Returned? && j.ret == 0
    ensures JobOk(To(j.(co := Exited), Waiting))
  {
  }

  lemma PendingIsOk(j: Job)
    requires JobOk(j) && j.status.Waiting?
    ensures JobOk(To(j, Pending))
  {
  }

  /** The state after a member that had not completed has failed is ready for an abort. */
  lemma FailedIsNearly(s: State, id: JobId, j2: Job)
    requires Inv(s) && id in s.jobs && s.jobs[id].inTxn && !IsCompleted(s.jobs[id].status)
    requires JobOk(j2) && j2.status.Aborting? && j2.group == s.jobs[id].group && j2.options == s.jobs[id].options
    ensures Nearly(s.(jobs := s.jobs[id := j2]), id)
  {
    var s2, t := s.(jobs := s.jobs[id := j2]), s.jobs[id].group;
    assert t in s.txns;
    OneJobIsLater(s, id, j2);
    LaterKeepsLog(s, s2);
    forall x | x in s2.txns && (x != t || s2.txns[x].aborting)
      ensures TxnOk(s2, x)
    {
      assert TxnOk(s, x);
      if x == t { FailedKeepsTxnOk(s, id, j2); } else { OnlyInKeepsOthers(s, s2, t, x); }
    }
  }

  lemma FailedKeepsTxnOk(s: State, id: JobId, j2: Job)
    requires id in s.jobs && s.jobs[id].inTxn && !IsCompleted(s.jobs[id].status) && s.jobs[id].group in s.txns
    requires TxnOk(s, s.jobs[id].group) && s.txns[s.jobs[id].group].aborting
    requires JobOk(j2) && j2.status.Aborting? && j2.group == s.jobs[id].group
    ensures TxnOk(s.(jobs := s.jobs[id := j2]), j2.group)
  {
    var s2, t := s.(jobs := s.jobs[id := j2]), j2.group;
    assert id in Members(s, t);
    assert MemberOk(s.txns[t], id, s.jobs[id]);
    forall k | k in Members(s2, t)
      ensures MemberOk(s2.txns[t], k, s2.jobs[k])
    {
      if k != id { assert k in Members(s, t) && MemberOk(s.txns[t], k, s.jobs[k]); }
    }
  }

  /** A job completes without failure: nothing has gone wrong in its transaction, and no other job is PENDING. */
  lemma SuccessMeans(s: State, id: JobId)
    requires Inv(s) && id in s.jobs && s.jobs[id].co.Returned? && !s.jobs[id].cancel.forced
    ensures s.jobs[id].group in s.txns && !s.txns[s.jobs[id].group].aborting
    ensures forall k :: k in Members(s, s.jobs[id].group) && IsCompleted(s.jobs[k].status) ==>
      s.jobs[k].status.Waiting? && s.jobs[k].ret == 0 && !s.jobs[k].cancel.forced
    ensures Together(s, s.jobs[id].group)
  {
    var t := s.jobs[id].group;
    assert JobOk(s.jobs[id]) && t in s.txns && TxnOk(s, t);
    assert id in Members(s, t);
    assert MemberOk(s.txns[t], id, s.jobs[id]);
    forall k | k in Members(s, t) && IsCompleted(s.jobs[k].status)
      ensures s.jobs[k].status.Waiting? && s.jobs[k].ret == 0 && !s.jobs[k].cancel.forced
    {
      assert JobOk(s.jobs[k]) && MemberOk(s.txns[t], k, s.jobs[k]);
    }
  }

  /** Some job of the transaction has not completed: the job waits for it. */
  lemma WaitingKeepsInv(s: State, id: JobId, k: JobId)
    requires Inv(s) && id in s.jobs && s.jobs[id].co.Returned? && !s.jobs[id].cancel.forced && s.jobs[id].ret == 0
    requires k in Members(s, s.jobs[id].group) && k != id && !IsCompleted(s.jobs[k].status)
    ensures Inv(s.(jobs := s.jobs[id := To(s.jobs[id].(co := Exited), Waiting)]))
  {
    var t, j2 := s.jobs[id].group, To(s.jobs[id].(co := Exited), Waiting);
    SuccessMeans(s, id);
    assert JobOk(s.jobs[id]);
    WaitingIsOk(s.jobs[id]);
    OneJobIsLater(s, id, j2);
    assert TxnOk(s, t);
    WaitingKeepsTxnOk(s, id, k);
    var s2 := s.(jobs := s.jobs[id := j2]);
    forall m | m in s2.jobs && s2.jobs[m].group == t
      ensures JobOk(s2.jobs[m])
    {
      if m != id { assert JobOk(s.jobs[m]); }
    }
    OneTxnKeepsInv(s, s2, t);
  }

  lemma WaitingKeepsTxnOk(s: State, id: JobId, k: JobId)
    requires id in s.jobs && s.jobs[id].inTxn && !s.jobs[id].cancel.forced
    requires s.jobs[id].group in s.txns && TxnOk(s, s.jobs[id].group)
    requires !s.txns[s.jobs[id].group].aborting && !IsCompleted(s.jobs[id].status)
    requires k in Members(s, s.jobs[id].group) && k != id && !IsCompleted(s.jobs[k].status)
    ensures TxnOk(s.(jobs := s.jobs[id := To(s.jobs[id].(co := Exited), Waiting)]), s.jobs[id].group)
  {
    var t, s2 := s.jobs[id].group, s.(jobs := s.jobs[id := To(s.jobs[id].(co := Exited), Waiting)]);
    assert Members(s2, t) == Members(s, t);
    assert k in Members(s2, t) && id in Members(s, t);
    forall m | m in Members(s2, t)
      ensures MemberOk(s2.txns[t], m, s2.jobs[m])
    {
      if m != id { assert MemberOk(s.txns[t], m, s.jobs[m]); }
    }
  }

  /** The state after every job of the transaction has completed and all have become PENDING. */
  function Gathered(s: State, id: JobId): State
    requires id in s.jobs
  {
    AllPending(s.(jobs := s.jobs[id := To(s.jobs[id].(co := Exited), Waiting)]), s.jobs[id].group)
  }

  /** What becomes of a job when its transaction is gathered; `member` says whether it is one of the transaction's. */
  ghost predicate Collected(j: Job, j2: Job, member: bool) {
    && j2.group == j.group && j2.options == j.options && j2.inTxn == j.inTxn && j2.cancel.forced == j.cancel.forced
    && JobOk(j2) && (if member then j2.status.Pending? && !j2.cancel.forced else j2 == j)
  }

  lemma LastIsCollected(j: Job)
    requires JobOk(j) && j.co.Returned? && j.ret == 0 && !j.cancel.forced
    ensures Collected(j, To(To(j.(co := Exited), Waiting), Pending), true)
  {
    WaitingIsOk(j);
    PendingIsOk(To(j.(co := Exited), Waiting));
  }

  lemma WaitingIsCollected(j: Job)
    requires JobOk(j) && j.status.Waiting? && !j.cancel.forced
    ensures Collected(j, To(j, Pending), true)
  {
    PendingIsOk(j);
  }

  lemma GatheredJob(s: State, id: JobId, k: JobId)
    requires Inv(s) && id in s.jobs && s.jobs[id].co.Returned?
    requires !s.jobs[id].cancel.forced && s.jobs[id].ret == 0 && k in s.jobs
    requires forall m :: m in Members(s, s.jobs[id].group) && m != id ==> IsCompleted(s.jobs[m].status)
    ensures Collected(s.jobs[k], Gathered(s, id).jobs[k], k in Members(s, s.jobs[id].group))
  {
    assert JobOk(s.jobs[k]) && JobOk(s.jobs[id]);
    assert id in Members(s, s.jobs[id].group);
    GatheredIs(s, id, k);
    if k == id {
      LastIsCollected(s.jobs[id]);
    } else if k in Members(s, s.jobs[id].group) {
      SuccessMeans(s, id);
      WaitingIsCollected(s.jobs[k]);
    }
  }

  lemma GatheredIs(s: State, id: JobId, k: JobId)
    requires id in s.jobs && k in s.jobs && s.jobs[id].inTxn
    ensures Gathered(s, id).jobs[k] ==
      if k == id then To(To(s.jobs[id].(co := Exited), Waiting), Pending)
      else if k in Members(s, s.jobs[id].group) then To(s.jobs[k], Pending) else s.jobs[k]
  {
  }

  /** Every job of the transaction has completed: all become PENDING together. */
  lemma GatheredKeepsInv(s: State, id: JobId)
    requires Inv(s) && id in s.jobs && s.jobs[id].co.Returned? && !s.jobs[id].cancel.forced && s.jobs[id].ret == 0
    requires forall m :: m in Members(s, s.jobs[id].group) && m != id ==> IsCompleted(s.jobs[m].status)
    ensures Inv(Gathered(s, id)) && Members(Gathered(s, id), s.jobs[id].group) == Members(s, s.jobs[id].group)
    ensures forall k :: k in Members(s, s.jobs[id].group) ==> Gathered(s, id).jobs[k].status.Pending?
  {
    var t, s2 := s.jobs[id].group, Gathered(s, id);
    SuccessMeans(s, id);
    forall k | k in s.jobs ensures Collected(s.jobs[k], s2.jobs[k], k in Members(s, t)) { GatheredJob(s, id, k); }
    GatheredInv(s, s2, t);
  }

  lemma GatheredInv(s: State, s2: State, t: TxnId)
    requires Inv(s) && t in s.txns && !s.txns[t].aborting && Together(s, t)
    requires s2.txns == s.txns && s2.log == s.log && s2.jobs.Keys == s.jobs.Keys
    requires forall k :: k in s.jobs ==> Collected(s.jobs[k], s2.jobs[k], k in Members(s, t))
    ensures Inv(s2) && Members(s2, t) == Members(s, t)
    ensures forall k :: k in Members(s, t) ==> s2.jobs[k].status.Pending?
  {
    assert Members(s2, t) == Members(s, t);
    assert TxnOk(s2, t) by {
      forall m | m in Members(s2, t) ensures MemberOk(s2.txns[t], m, s2.jobs[m]) { }
    }
    assert OnlyIn(s, s2, t);
    assert Later(s, s2);
    OneTxnKeepsInv(s, s2, t);
  }

  // ---------------------------------------------------------------------------------------------
  // Finalizing a transaction

  /** The job waits to be finalized, and nothing has gone wrong with it. */
  predicate Set(j: Job) {
    j.status.Pending? && j.ret == 0 && !j.cancel.forced
  }

  /** `b` is `a` with some prepare callbacks called. */
  ghost predicate MorePrepares(a: seq<Call>, b: seq<Call>) {
    a <= b && forall i :: |a| <= i < |b| ==> b[i].Prepare?
  }

  /** The prepare callback of job `k` is called and fails. */
  predicate Fails(jobs: map<JobId, Job>, prep: map<JobId, int>, k: JobId)
    requires k in jobs && k in prep
  {
    jobs[k].options.hasPrepare && prep[k] != 0
  }

  datatype Outcome = AllPrepared | FailedAt(job: JobId)

  /** The first job of the list whose prepare callback fails. */
  function FirstFailure(jobs: map<JobId, Job>, order: seq<JobId>, prep: map<JobId, int>): (o: Outcome)
    requires forall k :: k in order ==> k in jobs && k in prep
    ensures o.AllPrepared? <==> forall k :: k in order ==> !Fails(jobs, prep, k)
    ensures o.FailedAt? ==>
      exists a :: 0 <= a < |order| && order[a] == o.job && Fails(jobs, prep, o.job) &&
        forall b :: 0 <= b < a ==> !Fails(jobs, prep, order[b])
    decreases |order|
  {
    if order == [] then AllPrepared
    else if Fails(jobs, prep, order[0]) then FailedAt(order[0])
    else
      var o := FirstFailure(jobs, order[1..], prep);
      assert forall k :: k in order <==> k == order[0] || k in order[1..];
      assert forall b :: 0 <= b < |order| - 1 ==> order[1..][b] == order[b + 1];
      o
  }

  /** Preparing leaves all jobs as they are, every callback having returned 0, or stops at the first that fails. */
  ghost predicate Prepared(s: State, s1: State, order: seq<JobId>, prep: map<JobId, int>, o: Outcome) {
    && s1.txns == s.txns && MorePrepares(s.log, s1.log)
    && match o
       case AllPrepared =>
         && s1.jobs == s.jobs
         && forall k :: k in order && k in s.jobs && s.jobs[k].options.hasPrepare ==> Prepare(k, 0) in s1.log
       case FailedAt(f) =>
         && f in order && f in s.jobs && f in prep && prep[f] != 0
         && s1.jobs == s.jobs[f := To(s.jobs[f].(ret := prep[f]), Aborting)]
         && Prepare(f, prep[f]) in s1.log
  }

  lemma PrepareOneForm(s: State, k: JobId, prep: map<JobId, int>)
    requires k in s.jobs && k in prep && Set(s.jobs[k])
    ensures
      var o := if Fails(s.jobs, prep, k) then FailedAt(k) else AllPrepared;
      Prepared(s, PrepareOne(s, k, prep[k]), [k], prep, o)
    ensures Fails(s.jobs, prep, k) <==> PrepareOne(s, k, prep[k]).jobs[k].ret != 0
  {
    var s1 := PrepareOne(s, k, prep[k]);
    if s.jobs[k].options.hasPrepare { assert s1.log[|s1.log| - 1] == Prepare(k, prep[k]); }
    if !Fails(s.jobs, prep, k) { assert s.jobs[k].(ret := 0) == s.jobs[k]; }
  }

  lemma {:induction false} PrepareAllForm(s: State, order: seq<JobId>, prep: map<JobId, int>)
    requires forall k :: k in order ==> k in s.jobs && k in prep && Set(s.jobs[k])
    ensures Prepared(s, PrepareAll(s, order, prep), order, prep, FirstFailure(s.jobs, order, prep))
    decreases |order|
  {
    if order != [] {
      PrepareOneForm(s, order[0], prep);
      var s1 := PrepareOne(s, order[0], prep[order[0]]);
      if !Fails(s.jobs, prep, order[0]) {
        PrepareAllForm(s1, order[1..], prep);
        PreparedChain(s, s1, PrepareAll(s, order, prep), order, prep, FirstFailure(s.jobs, order[1..], prep));
      }
    }
  }

  lemma PreparedChain(s: State, s1: State, s2: State, order: seq<JobId>, prep: map<JobId, int>, o: Outcome)
    requires order != [] && Prepared(s, s1, [order[0]], prep, AllPrepared) && Prepared(s1, s2, order[1..], prep, o)
    ensures Prepared(s, s2, order, prep, o)
  {
  }

  /** The commit callbacks of the jobs of `order`, in that order. */
  function Commits(order: seq<JobId>): seq<Call> {
    seq(|order|, i requires 0 <= i < |order| => Commit(order[i]))
  }

  lemma FirstCommit(log: seq<Call>, order: seq<JobId>)
    requires order != []
    ensures log + [Commit(order[0])] + Commits(order[1..]) == log + Commits(order)
  {
  }

  /** Finalizing a job that is set to succeed commits it. */
  lemma FinalizeSet(s: State, k: JobId)
    requires k in s.jobs && Set(s.jobs[k])
    ensures
      var s1 := FinalizeSingle(s, k);
      s1.txns == s.txns && s1.jobs == s.jobs[k := Finalized(s.jobs[k])] && s1.log == s.log + [Commit(k)]
  {
  }

  /** Finalizing jobs that are set to succeed commits them, one after the other. */
  lemma {:induction false} FinalizeAllForm(s: State, order: seq<JobId>)
    requires forall k :: k in order ==> k in s.jobs && Set(s.jobs[k])
    requires forall a, b :: 0 <= a < b < |order| ==> order[a] != order[b]
    ensures
      var s2 := FinalizeAll(s, order);
      && s2.txns == s.txns && s2.jobs.Keys == s.jobs.Keys && s2.log == s.log + Commits(order)
      && (forall k :: k in s.jobs ==> s2.jobs[k] == if k in order then Finalized(s.jobs[k]) else s.jobs[k])
    decreases |order|
  {
    if order != [] {
      var k, rest := order[0], order[1..];
      var s1 := FinalizeSingle(s, k);
      FinalizeSet(s, k);
      assert forall m :: m in order <==> m == k || m in rest;
      assert k !in rest;
      FinalizeAllForm(s1, rest);
      FirstCommit(s.log, order);
    }
  }

  /** All jobs of a transaction are set to succeed once one of them is PENDING and nothing has gone wrong. */
  lemma AllSet(s: State, j: JobId)
    requires Inv(s) && j in s.jobs && s.jobs[j].status.Pending?
    requires s.jobs[j].group in s.txns && !s.txns[s.jobs[j].group].aborting
    ensures forall k :: k in Members(s, s.jobs[j].group) ==> Set(s.jobs[k])
    ensures j in Members(s, s.jobs[j].group) && Together(s, s.jobs[j].group)
  {
    var t := s.jobs[j].group;
    assert TxnOk(s, t) && JobOk(s.jobs[j]);
    assert j in Members(s, t);
    forall k | k in Members(s, t)
      ensures Set(s.jobs[k])
    {
      assert JobOk(s.jobs[k]) && MemberOk(s.txns[t], k, s.jobs[k]);
    }
  }

  lemma PreparedJobIsLater(s: State, s1: State, f: JobId, j2: Job)
    requires f in s.jobs && s.jobs[f].inTxn && s.jobs[f].group in s.txns
    requires j2.group == s.jobs[f].group && j2.options == s.jobs[f].options
    requires s1.txns == s.txns && MorePrepares(s.log, s1.log) && s1.jobs == s.jobs[f := j2]
    ensures OnlyIn(s, s1, j2.group) && Later(s, s1)
  {
  }

  /** A prepare callback has failed: the state is ready for an abort by the job `j` that asked to finalize. */
  lemma UnpreparedIsNearly(s: State, s1: State, j: JobId, f: JobId, ret: int)
    requires Inv(s) && j in s.jobs && s.jobs[j].status.Pending?
    requires s.jobs[j].group in s.txns && !s.txns[s.jobs[j].group].aborting
    requires f in Members(s, s.jobs[j].group) && ret != 0
    requires s1.txns == s.txns && MorePrepares(s.log, s1.log)
    requires s1.jobs == s.jobs[f := To(s.jobs[f].(ret := ret), Aborting)]
    ensures Nearly(s1, j)
  {
    var t := s.jobs[j].group;
    AllSet(s, j);
    assert JobOk(s.jobs[f]) && JobOk(s.jobs[j]);
    AbortingIsOk(s.jobs[f], ret);
    PreparedJobIsLater(s, s1, f, To(s.jobs[f].(ret := ret), Aborting));
    LaterKeepsLog(s, s1);
    forall x | x in s1.txns && (x != t || s1.txns[x].aborting)
      ensures TxnOk(s1, x)
    {
      assert TxnOk(s, x);
      OnlyInKeepsOthers(s, s1, t, x);
    }
  }

  /** All prepare callbacks have returned 0: every job is committed, and the transaction is over. */
  lemma SuccessKeepsInv(s: State, s1: State, j: JobId, order: seq<JobId>)
    requires Inv(s) && j in s.jobs && s.jobs[j].status.Pending?
    requires s.jobs[j].group in s.txns && !s.txns[s.jobs[j].group].aborting
    requires ListOf(order, Members(s, s.jobs[j].group))
    requires s1.txns == s.txns && MorePrepares(s.log, s1.log) && s1.jobs == s.jobs
    requires forall k :: k in order && s.jobs[k].options.hasPrepare ==> Prepare(k, 0) in s1.log
    ensures Inv(FinalizeAll(s1, order))
  {
    var t, s2 := s.jobs[j].group, FinalizeAll(s1, order);
    AllSet(s, j);
    SuccessFinishes(s, s1, order);
    SuccessTxns(s, s1, s2, t, order);
    SuccessKeepsLog(s, s1, s2, j, order);
    forall k | k in s2.jobs ensures s2.jobs[k].group in s2.txns { assert s.jobs[k].group in s.txns; }
  }

  lemma SuccessFinishes(s: State, s1: State, order: seq<JobId>)
    requires forall k {:trigger JobOk(s.jobs[k])} :: k in s.jobs ==> JobOk(s.jobs[k])
    requires forall k :: k in order ==> k in s.jobs && Set(s.jobs[k]) && s.jobs[k].inTxn
    requires (forall a, b :: 0 <= a < b < |order| ==> order[a] != order[b]) && s1.txns == s.txns && s1.jobs == s.jobs
    ensures Finished(s, s1, FinalizeAll(s1, order), order)
    ensures
      var s2 := FinalizeAll(s1, order);
      forall k {:trigger JobOk(s2.jobs[k])} :: k in s2.jobs ==> JobOk(s2.jobs[k])
  {
    var s2 := FinalizeAll(s1, order);
    FinalizeAllForm(s1, order);
    forall k | k in s2.jobs
      ensures JobOk(s2.jobs[k])
      ensures k in order ==>
        s2.jobs[k].group == s.jobs[k].group && s2.jobs[k].options == s.jobs[k].options &&
          s2.jobs[k].co == s.jobs[k].co && !s2.jobs[k].inTxn
    {
      assert JobOk(s.jobs[k]);
      if k in order { FinalizedIsOk(s.jobs[k]); }
    }
  }

  lemma SuccessTxns(s: State, s1: State, s2: State, t: TxnId, order: seq<JobId>)
    requires Inv(s) && t in s.txns && ListOf(order, Members(s, t)) && Finished(s, s1, s2, order)
    ensures forall x {:trigger TxnOk(s2, x)} :: x in s2.txns ==> TxnOk(s2, x)
  {
    assert Members(s2, t) == {};
    forall x | x in s2.txns
      ensures TxnOk(s2, x)
    {
      assert TxnOk(s, x);
      if x != t { SameGroupKeepsTxnOk(s, s2, x); }
    }
  }

  /** The jobs of the list are committed in `s2`, and all others are as before. */
  ghost predicate Finished(s: State, s1: State, s2: State, order: seq<JobId>) {
    && s2.txns == s1.txns == s.txns && s2.jobs.Keys == s1.jobs.Keys
    && s1.jobs == s.jobs && s1.log <= s2.log && |s2.log| == |s1.log| + |order|
    && (forall k :: k in s1.jobs ==>
          if k in order then s2.jobs[k].group == s.jobs[k].group && s2.jobs[k].options == s.jobs[k].options &&
            s2.jobs[k].co == s.jobs[k].co && !s2.jobs[k].inTxn
          else s2.jobs[k] == s1.jobs[k])
    && (forall i :: 0 <= i < |order| ==> s2.log[|s1.log| + i] == Commit(order[i]))
  }

  lemma SuccessKeepsLog(s: State, s1: State, s2: State, j: JobId, order: seq<JobId>)
    requires Inv(s) && j in s.jobs && s.jobs[j].group in s.txns && !s.txns[s.jobs[j].group].aborting
    requires j in Members(s, s.jobs[j].group)
    requires ListOf(order, Members(s, s.jobs[j].group)) && Together(s, s.jobs[j].group)
    requires MorePrepares(s.log, s1.log) && Finished(s, s1, s2, order)
    requires forall k :: k in order ==> Set(s.jobs[k]) && JobOk(s.jobs[k])
    requires forall k :: k in order && s.jobs[k].options.hasPrepare ==> Prepare(k, 0) in s1.log
    ensures LogOk(s2)
  {
    forall i | 0 <= i < |s2.log| && s2.log[i].Commit?
      ensures CommitOk(s2, i)
    {
      if i < |s1.log| {
        EarlierCommit(s, s1, s2, j, order, i);
      } else {
        assert s2.log[|s1.log| + (i - |s1.log|)] == Commit(order[i - |s1.log|]);
        NewCommit(s, s1, s2, j, order, i);
      }
    }
    forall i | |s1.log| <= i < |s2.log|
      ensures s2.log[i].Commit?
    {
      assert s2.log[|s1.log| + (i - |s1.log|)] == Commit(order[i - |s1.log|]);
    }
    forall i | 0 <= i < |s2.log| && s2.log[i].Abort?
      ensures s2.log[i].job in s2.jobs && s2.jobs[s2.log[i].job].group in s2.txns
      ensures s2.txns[s2.jobs[s2.log[i].job].group].aborting
    {
      assert s2.log[i] == s1.log[i] == s.log[i];
    }
  }

  lemma EarlierCommit(s: State, s1: State, s2: State, j: JobId, order: seq<JobId>, i: nat)
    requires LogOk(s) && (forall k {:trigger JobOk(s.jobs[k])} :: k in s.jobs ==> JobOk(s.jobs[k]))
    requires j in s.jobs && s.jobs[j].group in s.txns && !s.txns[s.jobs[j].group].aborting
    requires j in Members(s, s.jobs[j].group) && ListOf(order, Members(s, s.jobs[j].group))
    requires MorePrepares(s.log, s1.log) && Finished(s, s1, s2, order)
    requires i < |s1.log| && s2.log[i].Commit?
    ensures CommitOk(s2, i)
  {
    assert s2.log[i] == s1.log[i];
    assert i < |s.log| && s.log[i] == s1.log[i];
    assert CommitOk(s, i);
    var c, t := s.log[i].job, s.jobs[j].group;
    assert c !in Members(s, t);
    if !s.txns[s.jobs[c].group].aborting {
      if s.jobs[c].group == t { CommittedIsOver(s, i, j); }
      SamePrefix(s.log, s1.log, s2.log, i);
      forall k | k in s2.jobs && s2.jobs[k].group == s.jobs[c].group
        ensures s2.jobs[k] == s.jobs[k]
      {
        assert k !in Members(s, t);
      }
      forall k | Commit(k) in s.log ensures Commit(k) in s2.log { assert Commit(k) in s1.log; }
    }
  }

  lemma SamePrefix(a: seq<Call>, b: seq<Call>, c: seq<Call>, i: nat)
    requires a <= b <= c && i <= |a|
    ensures c[..i] == a[..i]
  {
  }

  lemma NewCommit(s: State, s1: State, s2: State, j: JobId, order: seq<JobId>, i: nat)
    requires j in s.jobs && s.jobs[j].group in s.txns && !s.txns[s.jobs[j].group].aborting
    requires j in Members(s, s.jobs[j].group)
    requires ListOf(order, Members(s, s.jobs[j].group)) && Together(s, s.jobs[j].group)
    requires Finished(s, s1, s2, order) && (forall k :: k in order ==> Set(s.jobs[k]) && JobOk(s.jobs[k]))
    requires forall k :: k in order && s.jobs[k].options.hasPrepare ==> Prepare(k, 0) in s1.log
    requires |s1.log| <= i < |s2.log| && s2.log[i] == Commit(order[i - |s1.log|])
    ensures CommitOk(s2, i)
  {
    var t, c := s.jobs[j].group, order[i - |s1.log|];
    assert c in order && c in Members(s, t) && JobOk(s.jobs[c]);
    forall k | k in order
      ensures Commit(k) in s2.log
    {
      var a :| 0 <= a < |order| && order[a] == k;
      assert s2.log[|s1.log| + a] == Commit(k);
    }
    forall k | k in order && s.jobs[k].options.hasPrepare
      ensures Prepare(k, 0) in s2.log[..i]
    {
      var b :| 0 <= b < |s1.log| && s1.log[b] == Prepare(k, 0);
      assert s2.log[..i][b] == Prepare(k, 0);
    }
    forall k | k in s2.jobs && s2.jobs[k].group == t
      ensures k in order || (s2.jobs[k].co.NotStarted? && s2.jobs[k].status.Null?)
    {
      if k !in order { assert k !in Members(s, t) && s2.jobs[k] == s.jobs[k]; }
    }
  }

  /** Finalizing aborts exactly if a prepare callback fails. */
  lemma DoFinalizeForm(s: State, j: JobId, order: seq<JobId>, prep: map<JobId, int>)
    requires j in s.jobs && forall k :: k in order ==> k in s.jobs && k in prep && Set(s.jobs[k])
    ensures
      var s1, o := PrepareAll(s, order, prep), FirstFailure(s.jobs, order, prep);
      && Prepared(s, s1, order, prep, o)
      && DoFinalize(s, j, order, prep) == if o.FailedAt? then TxnAbort(s1, j) else FinalizeAll(s1, order)
  {
    var s1, o := PrepareAll(s, order, prep), FirstFailure(s.jobs, order, prep);
    PrepareAllForm(s, order, prep);
    if o.FailedAt? { assert s1.jobs[o.job].ret != 0; }
  }

  /** Job `j`, and with it its transaction, is PENDING and can be finalized. */
  ghost predicate CanFinalize(s: State, j: JobId, order: seq<JobId>, prep: map<JobId, int>) {
    && j in s.jobs && s.jobs[j].status.Pending? && s.jobs[j].group in s.txns && !s.txns[s.jobs[j].group].aborting
    && ListOf(order, Members(s, s.jobs[j].group)) && forall k :: k in order ==> k in prep
  }

  lemma DoFinalizeKeepsInv(s: State, j: JobId, order: seq<JobId>, prep: map<JobId, int>)
    requires Inv(s) && CanFinalize(s, j, order, prep)
    ensures Inv(DoFinalize(s, j, order, prep))
  {
    AllSet(s, j);
    var s1, o := PrepareAll(s, order, prep), FirstFailure(s.jobs, order, prep);
    DoFinalizeForm(s, j, order, prep);
    if o.AllPrepared? {
      SuccessKeepsInv(s, s1, j, order);
    } else {
      UnpreparedIsNearly(s, s1, j, o.job, prep[o.job]);
      AbortKeepsInv(s1, j);
    }
  }

  // ---------------------------------------------------------------------------------------------
  // The remaining steps

  lemma ExitKeepsInv(s: State, e: Event)
    requires Inv(s) && e.Exit? && Enabled(s, e)
    ensures Inv(Next(s, e))
  {
    if s.jobs[e.id].ret != 0 || s.jobs[e.id].cancel.forced { FailedExit(s, e); } else { SuccessfulExit(s, e); }
  }

  lemma FailedExit(s: State, e: Event)
    requires Inv(s) && e.Exit? && Enabled(s, e) && (s.jobs[e.id].ret != 0 || s.jobs[e.id].cancel.forced)
    ensures Inv(Next(s, e))
  {
    var id, j := e.id, s.jobs[e.id];
    var j1 := UpdateRc(j.(co := Exited));
    assert s.jobs[id := j.(co := Exited)][id := j1] == s.jobs[id := j1];
    assert Next(s, e) == TxnAbort(s.(jobs := s.jobs[id := j1]), id);
    assert JobOk(j);
    FailureIsOk(j, Exited, if j.ret != 0 then j.ret else -ECANCELED);
    assert j.(co := Exited, ret := j.ret) == j.(co := Exited);
    FailedIsNearly(s, id, j1);
    AbortKeepsInv(s.(jobs := s.jobs[id := j1]), id);
  }

  lemma SuccessfulExit(s: State, e: Event)
    requires Inv(s) && e.Exit? && Enabled(s, e) && s.jobs[e.id].ret == 0 && !s.jobs[e.id].cancel.forced
    ensures Inv(Next(s, e))
  {
    var id, t := e.id, s.jobs[e.id].group;
    SuccessForm(s, e);
    if k :| k in Members(s, t) && k != id && !IsCompleted(s.jobs[k].status) {
      WaitingKeepsInv(s, id, k);
    } else {
      GatheredKeepsInv(s, id);
      SuccessMeans(s, id);
      assert JobOk(s.jobs[id]);
      assert id in Members(s, t);
      if forall k :: k in Members(s, t) ==> s.jobs[k].options.autoFinalize {
        DoFinalizeKeepsInv(Gathered(s, id), id, e.order, e.prep);
      }
    }
  }

  /** What happens when a job completes without failure. */
  lemma SuccessForm(s: State, e: Event)
    requires e.Exit? && Enabled(s, e) && s.jobs[e.id].ret == 0 && !s.jobs[e.id].cancel.forced
    ensures
      var id, t := e.id, s.jobs[e.id].group;
      if exists k :: k in Members(s, t) && k != id && !IsCompleted(s.jobs[k].status) then
        Next(s, e) == s.(jobs := s.jobs[id := To(s.jobs[id].(co := Exited), Waiting)])
      else if exists k :: k in Members(s, t) && !s.jobs[k].options.autoFinalize then Next(s, e) == Gathered(s, id)
      else Next(s, e) == DoFinalize(Gathered(s, id), id, e.order, e.prep)
  {
    var id, j := e.id, s.jobs[e.id];
    var s0 := s.(jobs := s.jobs[id := j.(co := Exited)]);
    assert s0.jobs[id := UpdateRc(s0.jobs[id])] == s0.jobs;
    assert Next(s, e) == TxnSuccess(s0, id, e.order, e.prep);
    var s1 := s.(jobs := s.jobs[id := To(j.(co := Exited), Waiting)]);
    assert s0.jobs[id := To(s0.jobs[id], Waiting)] == s1.jobs;
    GatheredMembers(s, id);
  }

  lemma GatheredMembers(s: State, id: JobId)
    requires id in s.jobs
    ensures
      var t, s1, s2 :=
        s.jobs[id].group, s.(jobs := s.jobs[id := To(s.jobs[id].(co := Exited), Waiting)]), Gathered(s, id);
      && Members(s1, t) == Members(s, t) && Members(s2, t) == Members(s, t) && s1.jobs[id].status.Waiting?
      && (forall k :: k in Members(s, t) && k != id ==> s1.jobs[k] == s.jobs[k])
      && (forall k :: k in Members(s, t) ==> s2.jobs[k].options == s.jobs[k].options)
  {
  }

  lemma CancelKeepsInv(s: State, e: Event)
    requires Inv(s) && e.Cancel? && Enabled(s, e)
    ensures Inv(Next(s, e))
  {
    var j := s.jobs[e.id];
    assert JobOk(j);
    if j.status.Concluded? {
      DismissIsOk(j);
      UnnoticedKeepsInv(s, e.id, DoDismiss(j));
    } else if !Started(j) {
      if !IsCompleted(j.status) { CancelUnstarted(s, e); }
    } else if Deferred(j) && CancelAsync(j, e.answer).cancel.forced {
      CancelDone(s, e);
    } else {
      SoftCancelKeepsInv(s, e.id, e.answer);
    }
  }

  lemma CancelDone(s: State, e: Event)
    requires Inv(s) && e.Cancel? && Enabled(s, e) && !s.jobs[e.id].status.Concluded? && Started(s.jobs[e.id])
    requires Deferred(s.jobs[e.id]) && CancelAsync(s.jobs[e.id], e.answer).cancel.forced
    ensures Inv(Next(s, e))
  {
    var id, j := e.id, s.jobs[e.id];
    var j1 := CancelAsync(j, e.answer);
    assert JobOk(j);
    CancelKeepsJobOk(j, e.answer);
    CancelledIsNearly(s, id, j1);
    AbortKeepsInv(s.(jobs := s.jobs[id := j1]), id);
  }

  lemma CancelUnstarted(s: State, e: Event)
    requires Inv(s) && e.Cancel? && Enabled(s, e) && s.jobs[e.id].co.NotStarted? && !IsCompleted(s.jobs[e.id].status)
    ensures Inv(Next(s, e))
  {
    var id, j := e.id, s.jobs[e.id];
    assert JobOk(j);
    CancelKeepsJobOk(j, true);
    var j1 := CancelAsync(j, true);
    FailureIsOk(j1, NotStarted, -ECANCELED);
    var j2 := UpdateRc(j1);
    assert j1.(co := NotStarted, ret := -ECANCELED) == j1.(ret := -ECANCELED);
    assert s.jobs[id := j1][id := j2] == s.jobs[id := j2];
    FailedIsNearly(s, id, j2);
    AbortKeepsInv(s.(jobs := s.jobs[id := j2]), id);
  }

  /** A job whose run has returned is force-cancelled: its transaction is to be aborted. */
  lemma CancelledIsNearly(s: State, id: JobId, j2: Job)
    requires Inv(s) && id in s.jobs && s.jobs[id].inTxn && JobOk(j2) && j2.cancel.forced
    requires j2.status == s.jobs[id].status && j2.ret == s.jobs[id].ret && j2.group == s.jobs[id].group
    requires j2.options == s.jobs[id].options && j2.inTxn
    ensures Nearly(s.(jobs := s.jobs[id := j2]), id)
  {
    var s2, t := s.(jobs := s.jobs[id := j2]), s.jobs[id].group;
    assert t in s.txns;
    OneJobIsLater(s, id, j2);
    LaterKeepsLog(s, s2);
    forall x | x in s2.txns && (x != t || s2.txns[x].aborting)
      ensures TxnOk(s2, x)
    {
      assert TxnOk(s, x);
      if x == t { CancelledKeepsTxnOk(s, id, j2); } else { OnlyInKeepsOthers(s, s2, t, x); }
    }
  }

  lemma CancelledKeepsTxnOk(s: State, id: JobId, j2: Job)
    requires id in s.jobs && s.jobs[id].inTxn && j2.inTxn && s.jobs[id].group in s.txns && TxnOk(s, s.jobs[id].group)
    requires s.txns[s.jobs[id].group].aborting && j2.cancel.forced
    requires j2.status == s.jobs[id].status && j2.group == s.jobs[id].group
    ensures TxnOk(s.(jobs := s.jobs[id := j2]), j2.group)
  {
    var s2, t := s.(jobs := s.jobs[id := j2]), j2.group;
    assert id in Members(s, t);
    assert MemberOk(s.txns[t], id, s.jobs[id]);
    forall k | k in Members(s2, t)
      ensures MemberOk(s2.txns[t], k, s2.jobs[k])
    {
      if k != id { assert MemberOk(s.txns[t], k, s.jobs[k]); }
    }
  }

  /** Cancelling a job that runs, or softly cancelling one that is done. */
  lemma SoftCancelKeepsInv(s: State, id: JobId, answer: bool)
    requires Inv(s) && id in s.jobs && s.jobs[id].inTxn && Started(s.jobs[id])
    requires Deferred(s.jobs[id]) ==> !CancelAsync(s.jobs[id], answer).cancel.forced
    ensures Inv(s.(jobs := s.jobs[id := CancelAsync(s.jobs[id], answer)]))
  {
    var j, j1 := s.jobs[id], CancelAsync(s.jobs[id], answer);
    assert JobOk(j);
    CancelKeepsJobOk(j, answer);
    var t := j.group;
    assert t in s.txns && TxnOk(s, t);
    OneJobIsLater(s, id, j1);
    SoftCancelKeepsTxnOk(s, id, answer);
    var s2 := s.(jobs := s.jobs[id := j1]);
    forall m | m in s2.jobs && s2.jobs[m].group == t
      ensures JobOk(s2.jobs[m])
    {
      if m != id { assert JobOk(s.jobs[m]); }
    }
    OneTxnKeepsInv(s, s2, t);
  }

  lemma SoftCancelKeepsTxnOk(s: State, id: JobId, answer: bool)
    requires id in s.jobs && s.jobs[id].inTxn && Started(s.jobs[id]) && JobOk(s.jobs[id])
    requires Deferred(s.jobs[id]) ==> !CancelAsync(s.jobs[id], answer).cancel.forced
    requires s.jobs[id].group in s.txns && TxnOk(s, s.jobs[id].group)
    ensures TxnOk(s.(jobs := s.jobs[id := CancelAsync(s.jobs[id], answer)]), s.jobs[id].group)
  {
    var t, j1 := s.jobs[id].group, CancelAsync(s.jobs[id], answer);
    var s2 := s.(jobs := s.jobs[id := j1]);
    assert Members(s2, t) == Members(s, t);
    forall k | k in Members(s2, t)
      ensures MemberOk(s2.txns[t], k, s2.jobs[k])
    {
      assert MemberOk(s.txns[t], k, s.jobs[k]);
    }
    if !s.txns[t].aborting { SameStatusKeepsBarrier(s, id, j1); }
  }

  lemma SameStatusKeepsBarrier(s: State, id: JobId, j2: Job)
    requires id in s.jobs && j2.group == s.jobs[id].group && j2.inTxn == s.jobs[id].inTxn
    requires j2.status == s.jobs[id].status && j2.co == s.jobs[id].co
    requires Barrier(s, j2.group) && Together(s, j2.group)
    ensures Barrier(s.(jobs := s.jobs[id := j2]), j2.group) && Together(s.(jobs := s.jobs[id := j2]), j2.group)
  {
    assert Members(s.(jobs := s.jobs[id := j2]), j2.group) == Members(s, j2.group);
  }

  lemma AppendKeepsLog(s: State, c: Call)
    requires LogOk(s) && c.job in s.jobs && s.jobs[c.job].group in s.txns && s.txns[s.jobs[c.job].group].aborting
    requires c.Commit? ==>
      s.jobs[c.job].co.Exited? && !s.jobs[c.job].inTxn && c.job in s.txns[s.jobs[c.job].group].spared
    ensures LogOk(s.(log := s.log + [c]))
  {
    var s2 := s.(log := s.log + [c]);
    forall i | 0 <= i < |s2.log| && s2.log[i].Commit?
      ensures CommitOk(s2, i)
    {
      if i < |s.log| {
        assert s2.log[i] == s.log[i] && CommitOk(s, i) && s2.log[..i] == s.log[..i];
      }
    }
    forall i | 0 <= i < |s2.log| && s2.log[i].Abort?
      ensures s2.log[i].job in s2.jobs && s2.jobs[s2.log[i].job].group in s2.txns
      ensures s2.txns[s2.jobs[s2.log[i].job].group].aborting
    {
      if i < |s.log| { assert s2.log[i] == s.log[i]; }
    }
  }

  /** The abort loop finalizes a job that has completed. */
  lemma AbortStepKeepsInv(s: State, e: Event)
    requires Inv(s) && e.AbortStep? && Enabled(s, e)
    ensures Inv(Next(s, e))
  {
    var id, j, t := e.id, s.jobs[e.id], s.jobs[e.id].group;
    AbortStepJob(s, id);
    var s1 := s.(jobs := s.jobs[id := Finalized(j)]);
    OneJobIsLater(s, id, Finalized(j));
    AbortStepTxn(s, id);
    forall m | m in s1.jobs && s1.jobs[m].group == t
      ensures JobOk(s1.jobs[m])
    {
      if m != id { assert JobOk(s.jobs[m]); }
    }
    OneTxnKeepsInv(s, s1, t);
    AppendKeepsInv(s1, if UpdateRc(j).ret == 0 then Commit(id) else Abort(id));
  }

  /** In an aborted transaction only the spared initiator can come out committed. */
  lemma AbortStepJob(s: State, id: JobId)
    requires Inv(s) && id in s.jobs && s.jobs[id].inTxn
    requires s.jobs[id].group in s.txns && s.txns[s.jobs[id].group].aborting
    requires IsCompleted(s.jobs[id].status)
    ensures JobOk(Finalized(s.jobs[id]))
    ensures UpdateRc(s.jobs[id]).ret == 0 ==> id in s.txns[s.jobs[id].group].spared && s.jobs[id].co.Exited?
  {
    var t := s.jobs[id].group;
    assert JobOk(s.jobs[id]) && TxnOk(s, t);
    assert id in Members(s, t);
    assert MemberOk(s.txns[t], id, s.jobs[id]);
    FinalizedIsOk(s.jobs[id]);
  }

  lemma AbortStepTxn(s: State, id: JobId)
    requires Inv(s) && id in s.jobs && s.jobs[id].group in s.txns && s.txns[s.jobs[id].group].aborting
    ensures TxnOk(s.(jobs := s.jobs[id := Finalized(s.jobs[id])]), s.jobs[id].group)
  {
    var t, s1 := s.jobs[id].group, s.(jobs := s.jobs[id := Finalized(s.jobs[id])]);
    assert TxnOk(s, t);
    forall k | k in Members(s1, t)
      ensures MemberOk(s1.txns[t], k, s1.jobs[k])
    {
      assert k in Members(s, t);
      assert MemberOk(s.txns[t], k, s.jobs[k]);
    }
  }

  lemma AppendKeepsInv(s: State, c: Call)
    requires Inv(s) && c.job in s.jobs && s.jobs[c.job].group in s.txns && s.txns[s.jobs[c.job].group].aborting
    requires c.Commit? ==>
      s.jobs[c.job].co.Exited? && !s.jobs[c.job].inTxn && c.job in s.txns[s.jobs[c.job].group].spared
    ensures Inv(s.(log := s.log + [c]))
  {
    var s2 := s.(log := s.log + [c]);
    AppendKeepsLog(s, c);
    forall x | x in s2.txns ensures TxnOk(s2, x) { assert TxnOk(s, x); SameGroupKeepsTxnOk(s, s2, x); }
  }

  lemma QuietKeepsInv(s: State, e: Event)
    requires Inv(s) && Enabled(s, e) && IsQuiet(e)
    ensures Inv(Next(s, e))
  {
    assert JobOk(s.jobs[e.id]);
    QuietKeepsJobOk(s, e);
    QuietIsUnnoticed(s, e);
    UnnoticedKeepsInv(s, e.id, Quiet(s.jobs[e.id], e));
  }

  /** Every step keeps the invariant. */
  lemma StepKeepsInv(s: State, e: Event)
    requires Inv(s) && Enabled(s, e)
    ensures Inv(Next(s, e))
  {
    if e.Create? {
      CreateKeepsInv(s, e);
    } else if e.EarlyFail? {
      EarlyFailKeepsInv(s, e);
    } else if e.Exit? {
      ExitKeepsInv(s, e);
    } else if e.Cancel? {
      CancelKeepsInv(s, e);
    } else if e.Finalize? {
      DoFinalizeKeepsInv(s, e.id, e.order, e.prep);
    } else if e.AbortStep? {
      AbortStepKeepsInv(s, e);
    } else {
      QuietKeepsInv(s, e);
    }
  }
}
