/**
The windows in which the main thread is in the middle of an operation on a job and has given up the lock, so that the
job's own coroutine goes on.
*/
module JobWindows {
  import opened Jobs
  import opened JobInvariant
  import opened JobRuns
  import opened JobExamples

  /** What the job's own coroutine can do. */
  predicate CanDo(j: Job, e: Event) {
    match e
    case PauseYield(_) => j.co.Body? && j.pauseCount > 0 && !j.cancel.forced
    case PauseWake(_) => j.co.AtPause?
    case BecomeReady(_) => j.co.Body? && Ready !in j.trace
    case RunReturn(_, _) => j.co.Body?
    case IoError(_) => j.co.Body? || j.co.AtPause?
    case _ => false
  }

  predicate CanDoAll(j: Job, window: seq<Event>)
    decreases |window|
  {
    window == [] || (CanDo(j, window[0]) && CanDoAll(Quiet(j, window[0]), window[1..]))
  }

  function DoAll(j: Job, window: seq<Event>): Job
    decreases |window|
  {
    if window == [] then j else DoAll(Quiet(j, window[0]), window[1..])
  }

  /** An I/O error is reported in the window. */
  predicate Reports(window: seq<Event>) {
    exists a :: 0 <= a < |window| && window[a].IoError?
  }

  lemma CanDoIsOk(j: Job, e: Event)
    requires JobOk(j) && !j.status.Null? && CanDo(j, e)
    ensures JobOk(Quiet(j, e)) && !Quiet(j, e).status.Null?
    ensures Quiet(j, e).userPaused <==> j.userPaused || e.IoError?
    ensures Quiet(j, e).failedIo <==> j.failedIo || e.IoError?
  {
    match e
    case PauseYield(_) => PauseYieldIsOk(j, e);
    case PauseWake(_) => PauseWakeIsOk(j, e);
    case BecomeReady(_) => BecomeReadyIsOk(j, e);
    case _ => PausingIsOk(j, e);
  }

  lemma ReportsFirst(window: seq<Event>)
    requires window != []
    ensures Reports(window) <==> window[0].IoError? || Reports(window[1..])
  {
    var rest := window[1..];
    assert forall a :: 0 <= a < |rest| ==> rest[a] == window[a + 1];
    if a :| 0 <= a < |window| && window[a].IoError? && a > 0 { assert rest[a - 1].IoError?; }
  }

  lemma {:induction false} WindowIsOk(j: Job, window: seq<Event>)
    requires JobOk(j) && !j.status.Null? && CanDoAll(j, window)
    ensures
      var j2 := DoAll(j, window);
      && JobOk(j2) && !j2.status.Null?
      && (j2.userPaused <==> j.userPaused || Reports(window)) && (j2.failedIo <==> j.failedIo || Reports(window))
    decreases |window|
  {
    if window != [] {
      CanDoIsOk(j, window[0]);
      WindowIsOk(Quiet(j, window[0]), window[1..]);
      ReportsFirst(window);
    }
  }

  /**
  job_user_resume_locked gives up the lock around the driver's user_resume callback, which resets the iostatus.  What
  the job's coroutine does then leaves the job in order exactly if it reports no I/O error; otherwise the job is left
  with a failed iostatus but not paused by the user, and the assertion in the next reset fails.
  */
  lemma ResumeWindow(j: Job, window: seq<Event>)
    requires JobOk(j) && !j.status.Null? && j.userPaused && CanDoAll(BeginResume(j), window)
    ensures
      var j2 := EndResume(DoAll(BeginResume(j), window));
      (JobOk(j2) <==> !Reports(window)) && (ResetAsserts(j2) <==> !Reports(window))
  {
    assert JobOk(BeginResume(j));
    WindowIsOk(BeginResume(j), window);
  }

  /**
  job_cancel_async_locked, when the coroutine does `before` while the driver's cancel callback is called, and `during`
  while user_resume is called, which happens only to a job that is then paused by the user.
  */
  function CancelInWindows(j: Job, before: seq<Event>, during: seq<Event>, answer: bool): Job {
    var j1 := DoAll(j, before);
    var j2 := if j1.userPaused then EndResume(DoAll(BeginResume(j1), during)) else j1;
    if answer || !Deferred(j2) then MarkCancelled(j2, answer) else j2
  }

  /** If the coroutine does nothing, this is the cancel of the job machinery. */
  lemma EmptyWindows(j: Job, answer: bool)
    ensures CancelInWindows(j, [], [], answer) == CancelAsync(j, answer)
  {
  }

  lemma MarkingKeepsOk(j: Job, answer: bool)
    ensures
      var j2 := MarkCancelled(j, answer);
      (JobOk(j) ==> JobOk(j2)) && (ResetAsserts(j2) <==> ResetAsserts(j)) && j2.failedIo == j.failedIo
  {
    if JobOk(j) { MarkKeepsJobOk(j, answer); }
  }

  /**
  What the coroutine does while the cancel callback is called does no harm.  An I/O error reported while user_resume
  is called leaves a failed iostatus without a pause by the user, and user_resume is called exactly if the job was
  paused by the user or an I/O error was reported before.
  */
  lemma CancelWindow(j: Job, before: seq<Event>, during: seq<Event>, answer: bool)
    requires JobOk(j) && !j.status.Null? && CanDoAll(j, before)
    requires j.userPaused || Reports(before) ==> CanDoAll(BeginResume(DoAll(j, before)), during)
    ensures
      var j2, harm := CancelInWindows(j, before, during, answer), (j.userPaused || Reports(before)) && Reports(during);
      (JobOk(j2) <==> !harm) && (ResetAsserts(j2) <==> !harm) && !j2.userPaused
  {
    var j1 := DoAll(j, before);
    WindowIsOk(j, before);
    if j1.userPaused {
      ResumeWindow(j1, during);
      MarkingKeepsOk(EndResume(DoAll(BeginResume(j1), during)), answer);
      WindowIsOk(BeginResume(j1), during);
    } else {
      MarkingKeepsOk(j1, answer);
    }
  }

  // ---------------------------------------------------------------------------------------------
  // A run that ends in the failing assertion

  /** The state with one job. */
  function Alone(j: Job): State {
    State(map[0 := j], map[0 := Txn(false, {})], [])
  }

  lemma AloneMoves(j: Job, e: Event)
    requires Enabled(Alone(j), e) && IsQuiet(e) && e.id == 0
    ensures Next(Alone(j), e) == Alone(Quiet(j, e))
  {
    assert map[0 := j][0 := Quiet(j, e)] == map[0 := Quiet(j, e)];
  }

  /** The job is started and then paused by the user. */
  function PausedJob(): Job {
    Quiet(Quiet(NewJob(FIRST), Start(0)), UserPause(0))
  }

  lemma PauseJob() returns (states: seq<State>, events: seq<Event>)
    ensures IsRun(states, events) && states[|events|] == Alone(PausedJob())
  {
    var j := NewJob(FIRST);
    states, events := Extend([INITIAL], [], FIRST);
    assert states[1] == Alone(j);
    AloneMoves(j, Start(0));
    states, events := Extend(states, events, Start(0));
    AloneMoves(Quiet(j, Start(0)), UserPause(0));
    states, events := Extend(states, events, UserPause(0));
  }

  /** `j` is what an operation leaves of the job, and the next reset of its iostatus fails its assertion. */
  ghost predicate ResetFails(j: Job) {
    Enabled(Alone(j), IostatusReset(0)) && !Asserts(Alone(j), IostatusReset(0))
  }

  lemma FailedReset(j: Job)
    requires !ResetAsserts(j) && !j.status.Null?
    ensures ResetFails(j)
  {
    assert 0 in Alone(j).jobs && Alone(j).jobs[0] == j;
  }

  /**
  A job is started and paused by the user; an I/O error is reported while user_resume is called, be it in a resume or
  in a cancel; the next reset of the iostatus then fails its assertion.
  */
  lemma ErrorInWindow() returns (states: seq<State>, events: seq<Event>)
    ensures IsRun(states, events) && states[|events|] == Alone(PausedJob())
    ensures
      var j, window := PausedJob(), [IoError(0)];
      && CanDoAll(BeginResume(j), window) && ResetFails(EndResume(DoAll(BeginResume(j), window)))
      && ResetFails(CancelInWindows(j, [], window, true))
  {
    var j, window := PausedJob(), [IoError(0)];
    states, events := PauseJob();
    RunKeepsInv(states, events, |events|);
    assert JobOk(states[|events|].jobs[0]);
    assert window[0].IoError? && window[1..] == [];
    ResumeWindow(j, window);
    FailedReset(EndResume(DoAll(BeginResume(j), window)));
    CancelWindow(j, [], window, true);
    FailedReset(CancelInWindows(j, [], window, true));
  }
}
