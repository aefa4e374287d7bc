/**
Jobs and job transactions.  A state holds all jobs, also those that are gone, and what has been called on
them; a step is what happens under the job lock without another thread in between.
*/
module Jobs {
  datatype Status =
    | Undefined | Created | Running | Paused | Ready | Standby | Waiting | Pending | Aborting | Concluded | Null

  datatype Verb =
    | CancelVerb | PauseVerb | ResumeVerb | SetSpeed | CompleteVerb | FinalizeVerb | DismissVerb | ChangeVerb

  /** JobSTT */
  predicate Allowed(s0: Status, s1: Status) {
    match s0
    case Undefined => s1.Created?
    case Created => s1.Running? || s1.Aborting? || s1.Null?
    case Running => s1.Paused? || s1.Ready? || s1.Waiting? || s1.Aborting?
    case Paused => s1.Running?
    case Ready => s1.Standby? || s1.Waiting? || s1.Aborting?
    case Standby => s1.Ready?
    case Waiting => s1.Pending? || s1.Aborting?
    case Pending => s1.Aborting? || s1.Concluded?
    case Aborting => s1.Aborting? || s1.Concluded?
    case Concluded => s1.Null?
    case Null => false
  }

  /** JobVerbTable */
  predicate VerbAllowed(v: Verb, s: Status) {
    var live := s.Created? || s.Running? || s.Paused? || s.Ready? || s.Standby?;
    match v
    case CancelVerb => live || s.Waiting? || s.Pending?
    case CompleteVerb => s.Ready? || s.Standby?
    case FinalizeVerb => s.Pending?
    case DismissVerb => s.Concluded?
    case _ => live
  }

  type JobId = nat
  type TxnId = nat

  /** Where the job's coroutine is. */
  datatype Co =
    | NotStarted
    | Body                    // running, or asleep without being paused
    | AtPause(saved: Status)  // in the middle of a pause point
    | Returned                // run has returned, job_exit is scheduled
    | Exited                  // job_exit has run

  /** How a job was created; `hasPrepare` says that its driver has a prepare callback. */
  datatype Options = Options(autoFinalize: bool, autoDismiss: bool, hasPrepare: bool)

  /** cancelled and force_cancel */
  datatype Cancellation = Cancellation(requested: bool, forced: bool)

  datatype Job = Job(
    status: Status,
    trace: seq<Status>,       // every status so far
    ret: int,
    cancel: Cancellation,
    co: Co,
    paused: bool,
    pauseCount: int,
    userPaused: bool,
    drains: nat,              // drained sections begun and not yet ended
    failedIo: bool,           // iostatus is not OK
    options: Options,
    group: TxnId,             // the transaction the job was created in
    inTxn: bool)              // it is still in it

  /** `spared` is an initiator of an abort that neither failed nor was cancelled. */
  datatype Txn = Txn(aborting: bool, spared: set<JobId>)

  /** A driver callback that has been called, with its result. */
  datatype Call = Prepare(job: JobId, ret: int) | Commit(job: JobId) | Abort(job: JobId)

  datatype State = State(jobs: map<JobId, Job>, txns: map<TxnId, Txn>, log: seq<Call>)

  const ECANCELED := 125

  // ---------------------------------------------------------------------------------------------
  // Operations on one job

  predicate IsCompleted(s: Status) {
    s.Waiting? || s.Pending? || s.Aborting? || s.Concluded? || s.Null?
  }

  predicate IsReady(s: Status) {
    s.Ready? || s.Standby?
  }

  predicate Started(j: Job) {
    !j.co.NotStarted?
  }

  /** deferred_to_main_loop, while the job is there */
  predicate Deferred(j: Job) {
    j.co.Returned? || j.co.Exited?
  }

  /** job_state_transition_locked, which asserts that the table allows it */
  function To(j: Job, s: Status): Job {
    j.(status := s, trace := j.trace + [s])
  }

  /** The same transaction, driver and progress of the coroutine. */
  predicate SamePlace(j: Job, j2: Job) {
    j2.group == j.group && j2.options == j.options && j2.co == j.co
  }

  /** job_update_rc_locked */
  function UpdateRc(j: Job): (r: Job)
    ensures SamePlace(j, r) && r.inTxn == j.inTxn && (r.ret == 0 <==> j.ret == 0 && !j.cancel.forced)
  {
    var j1 := if j.ret == 0 && j.cancel.forced then j.(ret := -ECANCELED) else j;
    if j1.ret != 0 then To(j1, Aborting) else j1
  }

  /** job_do_dismiss_locked */
  function DoDismiss(j: Job): Job {
    To(j.(paused := false, inTxn := false), Null)
  }

  /** job_conclude_locked */
  function Conclude(j: Job): (r: Job)
    ensures SamePlace(j, r) && (!j.inTxn ==> !r.inTxn)
    ensures r.status == if j.options.autoDismiss || !Started(j) then Null else Concluded
  {
    var j1 := To(j, Concluded);
    if j1.options.autoDismiss || !Started(j1) then DoDismiss(j1) else j1
  }

  /** job_finalize_single_locked, as far as the job is concerned */
  function Finalized(j: Job): (r: Job)
    ensures SamePlace(j, r) && !r.inTxn && r.status == if j.options.autoDismiss || !Started(j) then Null else Concluded
  {
    Conclude(UpdateRc(j).(inTxn := false))
  }

  /** The part of job_cancel_async_locked that ends a pause by the user. */
  function Unpause(j: Job): Job {
    if j.userPaused then j.(failedIo := false, userPaused := false, pauseCount := j.pauseCount - 1) else j
  }

  /** job_cancel_async_locked, when the driver's cancel callback has answered `force` */
  function CancelAsync(j: Job, force: bool): (r: Job)
    ensures SamePlace(j, r) && r.inTxn == j.inTxn && r.status == j.status && r.trace == j.trace && r.ret == j.ret
    ensures r.cancel.forced <==> j.cancel.forced || force
    ensures r.cancel.requested <==> j.cancel.requested || force || !Deferred(j)
    ensures !r.userPaused && r.pauseCount == j.pauseCount - (if j.userPaused then 1 else 0)
  {
    if force || !Deferred(j) then MarkCancelled(Unpause(j), force) else Unpause(j)
  }

  function MarkCancelled(j: Job, force: bool): Job {
    j.(cancel := Cancellation(true, j.cancel.forced || force))
  }

  // ---------------------------------------------------------------------------------------------
  // Operations on a transaction

  /** The jobs still in transaction `t`. */
  function Members(s: State, t: TxnId): set<JobId> {
    set j | j in s.jobs && s.jobs[j].group == t && s.jobs[j].inTxn
  }

  /** job_finalize_single_locked */
  function FinalizeSingle(s: State, j: JobId): State
    requires j in s.jobs
  {
    s.(jobs := s.jobs[j := Finalized(s.jobs[j])],
       log := s.log + [if UpdateRc(s.jobs[j]).ret == 0 then Commit(j) else Abort(j)])
  }

  /** The start of job_completed_txn_abort_locked; its loop goes on in steps of its own, since it waits for jobs. */
  function TxnAbort(s: State, j: JobId): State
    requires j in s.jobs
  {
    var t := s.jobs[j].group;
    if t !in s.txns || s.txns[t].aborting then s
    else
      s.(txns := s.txns[t := Txn(true, if s.jobs[j].ret == 0 && !s.jobs[j].cancel.forced then {j} else {})],
         jobs := map k | k in s.jobs ::
           if k in Members(s, t) && k != j then CancelAsync(s.jobs[k], true) else s.jobs[k])
  }

  /** job_prepare_locked, with the result that the prepare callback has if it is called */
  function PrepareOne(s: State, k: JobId, ret: int): (r: State)
    requires k in s.jobs
    ensures r.jobs.Keys == s.jobs.Keys
  {
    if s.jobs[k].ret == 0 && s.jobs[k].options.hasPrepare then
      s.(jobs := s.jobs[k := UpdateRc(s.jobs[k].(ret := ret))], log := s.log + [Prepare(k, ret)])
    else s
  }

  /**
  job_txn_apply_locked with job_prepare_locked over the jobs of `order`; stops at the first that does not return 0.
  */
  function PrepareAll(s: State, order: seq<JobId>, prep: map<JobId, int>): (r: State)
    requires forall k :: k in order ==> k in s.jobs && k in prep
    ensures r.jobs.Keys == s.jobs.Keys
    decreases |order|
  {
    if order == [] then s
    else
      var s1 := PrepareOne(s, order[0], prep[order[0]]);
      if s1.jobs[order[0]].ret != 0 then s1 else PrepareAll(s1, order[1..], prep)
  }

  /** job_txn_apply_locked with job_finalize_single_locked */
  function FinalizeAll(s: State, order: seq<JobId>): State
    requires forall k :: k in order ==> k in s.jobs
    decreases |order|
  {
    if order == [] then s else FinalizeAll(FinalizeSingle(s, order[0]), order[1..])
  }

  /** job_do_finalize_locked, with the transaction's list of jobs and what their prepare callbacks return */
  function DoFinalize(s: State, j: JobId, order: seq<JobId>, prep: map<JobId, int>): State
    requires j in s.jobs && forall k :: k in order ==> k in s.jobs && k in prep
  {
    var s1 := PrepareAll(s, order, prep);
    if exists k :: k in order && s1.jobs[k].ret != 0 then TxnAbort(s1, j) else FinalizeAll(s1, order)
  }

  /** All jobs of the transaction become PENDING. */
  function AllPending(s: State, t: TxnId): State {
    s.(jobs := map k | k in s.jobs :: if k in Members(s, t) then To(s.jobs[k], Pending) else s.jobs[k])
  }

  /** job_completed_txn_success_locked */
  function TxnSuccess(s: State, j: JobId, order: seq<JobId>, prep: map<JobId, int>): State
    requires j in s.jobs && forall k :: k in order ==> k in s.jobs && k in prep
  {
    var t := s.jobs[j].group;
    var s1 := s.(jobs := s.jobs[j := To(s.jobs[j], Waiting)]);
    if exists k :: k in Members(s1, t) && !IsCompleted(s1.jobs[k].status) then s1
    else
      var s2 := AllPending(s1, t);
      if exists k :: k in Members(s2, t) && !s2.jobs[k].options.autoFinalize then s2 else DoFinalize(s2, j, order, prep)
  }

  /** job_completed_locked */
  function Completed(s: State, j: JobId, order: seq<JobId>, prep: map<JobId, int>): State
    requires j in s.jobs && forall k :: k in order ==> k in s.jobs && k in prep
  {
    var s1 := s.(jobs := s.jobs[j := UpdateRc(s.jobs[j])]);
    if s1.jobs[j].ret != 0 then TxnAbort(s1, j) else TxnSuccess(s1, j, order, prep)
  }

  // ---------------------------------------------------------------------------------------------
  // Steps

  datatype Event =
    | Create(id: JobId, txn: TxnId, options: Options)
    | EarlyFail(id: JobId)
    | Start(id: JobId)
    | PauseYield(id: JobId) | PauseWake(id: JobId)         // the two halves of a pause point that pauses
    | BecomeReady(id: JobId)
    | RunReturn(id: JobId, ret: int)
    | Exit(id: JobId, order: seq<JobId>, prep: map<JobId, int>)
    | UserPause(id: JobId) | UserResume(id: JobId)
    | DrainBegin(id: JobId) | DrainEnd(id: JobId)
    | IoError(id: JobId) | IostatusReset(id: JobId)
    | Cancel(id: JobId, force: bool, answer: bool)         // `answer` is what the cancel callback returns
    | Finalize(id: JobId, order: seq<JobId>, prep: map<JobId, int>)
    | Dismiss(id: JobId)
    | AbortStep(id: JobId)                                 // the abort loop gets to a job that has completed

  /** None of the jobs created in the transaction has been started or has completed. */
  ghost predicate Fresh(s: State, t: TxnId) {
    && (t in s.txns ==> !s.txns[t].aborting)
    && forall k :: k in s.jobs && s.jobs[k].group == t ==>
         s.jobs[k].co.NotStarted? && (s.jobs[k].status.Created? || s.jobs[k].status.Null?)
  }

  /** The order in which the transaction's list of jobs is walked. */
  ghost predicate ListOf(order: seq<JobId>, members: set<JobId>) {
    (forall k :: k in order <==> k in members) && forall a, b :: 0 <= a < b < |order| ==> order[a] != order[b]
  }

  /** What callers, drivers and the job's own coroutine are held to. */
  ghost predicate Enabled(s: State, e: Event) {
    match e
    case Create(id, t, _) => id !in s.jobs && Fresh(s, t)
    case EarlyFail(id) => id in s.jobs && s.jobs[id].status.Created? && Fresh(s, s.jobs[id].group)
    case Start(id) => id in s.jobs && s.jobs[id].status.Created?
    case PauseYield(id) => id in s.jobs && s.jobs[id].co.Body? && s.jobs[id].pauseCount > 0 && !s.jobs[id].cancel.forced
    case PauseWake(id) => id in s.jobs && s.jobs[id].co.AtPause?
    case BecomeReady(id) => id in s.jobs && s.jobs[id].co.Body? && Ready !in s.jobs[id].trace
    case RunReturn(id, _) => id in s.jobs && s.jobs[id].co.Body?
    case Exit(id, order, prep) =>
      && id in s.jobs && s.jobs[id].co.Returned?
      && ListOf(order, Members(s, s.jobs[id].group)) && forall k :: k in order ==> k in prep
    case UserPause(id) => id in s.jobs && VerbAllowed(PauseVerb, s.jobs[id].status) && !s.jobs[id].userPaused
    case UserResume(id) =>
      id in s.jobs && s.jobs[id].userPaused && s.jobs[id].pauseCount > 0 && VerbAllowed(ResumeVerb, s.jobs[id].status)
    case DrainBegin(id) => id in s.jobs && !s.jobs[id].status.Null?
    case DrainEnd(id) => id in s.jobs && !s.jobs[id].status.Null? && s.jobs[id].drains > 0
    case IoError(id) => id in s.jobs && (s.jobs[id].co.Body? || s.jobs[id].co.AtPause?)
    case IostatusReset(id) => id in s.jobs && !s.jobs[id].status.Null?
    case Cancel(id, force, answer) =>
      id in s.jobs && !s.jobs[id].status.Null? && (force || !IsReady(s.jobs[id].status) ==> answer)
    case Finalize(id, order, prep) =>
      && id in s.jobs && VerbAllowed(FinalizeVerb, s.jobs[id].status)
      && s.jobs[id].group in s.txns && !s.txns[s.jobs[id].group].aborting
      && ListOf(order, Members(s, s.jobs[id].group)) && forall k :: k in order ==> k in prep
    case Dismiss(id) => id in s.jobs && VerbAllowed(DismissVerb, s.jobs[id].status)
    case AbortStep(id) =>
      && id in s.jobs && s.jobs[id].inTxn && s.jobs[id].group in s.txns && s.txns[s.jobs[id].group].aborting
      && IsCompleted(s.jobs[id].status)
  }

  function NewJob(e: Event): Job
    requires e.Create?
  {
    Job(Created, [Undefined, Created], 0, Cancellation(false, false), NotStarted, true, 1, false, 0, false,
        e.options, e.txn, true)
  }

  /** The driver's user_resume callback, called without the lock */
  function BeginResume(j: Job): Job {
    j.(failedIo := false)
  }

  /** The rest of job_user_resume_locked */
  function EndResume(j: Job): Job {
    j.(userPaused := false, pauseCount := j.pauseCount - 1)
  }

  /** The steps that change the status of one job and nothing else. */
  function StatusStep(j: Job, e: Event): Job {
    match e
    case Start(_) => To(j.(co := Body, pauseCount := j.pauseCount - 1, paused := false), Running)
    case PauseYield(_) =>
      To(j, if j.status.Ready? then Standby else Paused).(paused := true, co := AtPause(j.status))
    case PauseWake(_) => if j.co.AtPause? then To(j.(paused := false, co := Body), j.co.saved) else j
    case BecomeReady(_) => To(j, Ready)
    case _ => j
  }

  /** The steps that change one job, but not its status, and nothing else. */
  function CountStep(j: Job, e: Event): (r: Job)
    ensures r.status == j.status && r.trace == j.trace
  {
    match e
    case RunReturn(_, ret) => j.(ret := ret, co := Returned)
    case UserPause(_) => j.(userPaused := true, pauseCount := j.pauseCount + 1)
    case UserResume(_) => EndResume(BeginResume(j))
    case DrainBegin(_) => j.(pauseCount := j.pauseCount + 1, drains := j.drains + 1)
    case DrainEnd(_) => j.(pauseCount := j.pauseCount - 1, drains := if j.drains > 0 then j.drains - 1 else 0)
    case IoError(_) =>
      (if j.userPaused then j else j.(pauseCount := j.pauseCount + 1, userPaused := true)).(failedIo := true)
    case IostatusReset(_) => j.(failedIo := false)
    case _ => j
  }

  predicate ChangesStatus(e: Event) {
    e.Start? || e.PauseYield? || e.PauseWake? || e.BecomeReady?
  }

  /** The steps that change one job and nothing else. */
  function Quiet(j: Job, e: Event): Job {
    if e.EarlyFail? || e.Dismiss? then DoDismiss(j)
    else if ChangesStatus(e) then StatusStep(j, e)
    else CountStep(j, e)
  }

  /** job_cancel_locked; the assertion in job_completed_locked stops it if a job never started has completed already */
  function CancelJob(s: State, id: JobId, answer: bool): State
    requires id in s.jobs
  {
    if s.jobs[id].status.Concluded? then s.(jobs := s.jobs[id := DoDismiss(s.jobs[id])])
    else
      var s1 := s.(jobs := s.jobs[id := CancelAsync(s.jobs[id], answer)]);
      if !Started(s1.jobs[id]) then if IsCompleted(s.jobs[id].status) then s else Completed(s1, id, [], map[])
      else if Deferred(s1.jobs[id]) && s1.jobs[id].cancel.forced then TxnAbort(s1, id)
      else s1
  }

  ghost function Next(s: State, e: Event): State
    requires Enabled(s, e)
  {
    match e
    case Create(id, t, _) =>
      s.(jobs := s.jobs[id := NewJob(e)], txns := if t in s.txns then s.txns else s.txns[t := Txn(false, {})])
    case Exit(id, order, prep) => Completed(s.(jobs := s.jobs[id := s.jobs[id].(co := Exited)]), id, order, prep)
    case Cancel(id, _, answer) => CancelJob(s, id, answer)
    case Finalize(id, order, prep) => DoFinalize(s, id, order, prep)
    case AbortStep(id) => FinalizeSingle(s, id)
    case _ => s.(jobs := s.jobs[e.id := Quiet(s.jobs[e.id], e)])
  }
}
