/** Runs in which things do not go as one would like. */
module JobExamples {
  import opened Jobs
  import opened JobInvariant
  import opened JobOutcomes
  import opened JobRuns

  /** A run goes on with event `e`. */
  lemma Extend(states: seq<State>, events: seq<Event>, e: Event) returns (states2: seq<State>, events2: seq<Event>)
    requires IsRun(states, events) && Enabled(states[|events|], e)
    ensures IsRun(states2, events2) && events2 == events + [e] && |states2| == |states| + 1
    ensures states2[|events|] == states[|events|] && states2[|events2|] == Next(states[|events|], e)
  {
    states2, events2 := states + [Next(states[|events|], e)], events + [e];
  }

  /** Two jobs in one transaction. */
  function Both(first: Job, second: Job, log: seq<Call>): (s: State)
    ensures first.group == second.group == 0 && first.inTxn && second.inTxn ==> Members(s, 0) == {0, 1}
  {
    State(map[0 := first, 1 := second], map[0 := Txn(false, {})], log)
  }

  lemma FirstMoves(first: Job, second: Job, e: Event)
    requires Enabled(Both(first, second, []), e) && IsQuiet(e) && e.id == 0
    ensures Next(Both(first, second, []), e) == Both(Quiet(first, e), second, [])
  {
    assert map[0 := first, 1 := second][0 := Quiet(first, e)] == map[0 := Quiet(first, e), 1 := second];
  }

  lemma SecondMoves(first: Job, second: Job, e: Event)
    requires Enabled(Both(first, second, []), e) && IsQuiet(e) && e.id == 1
    ensures Next(Both(first, second, []), e) == Both(first, Quiet(second, e), [])
  {
    assert map[0 := first, 1 := second][1 := Quiet(second, e)] == map[0 := first, 1 := Quiet(second, e)];
  }

  const FIRST := Create(0, 0, Options(true, false, false))
  const SECOND := Create(1, 0, Options(true, false, true))

  /** The job created by `e`, whose run function has returned 0. */
  function Run(e: Event): Job
    requires e.Create?
  {
    Quiet(Quiet(NewJob(e), Start(e.id)), RunReturn(e.id, 0))
  }

  lemma CreateBoth() returns (states: seq<State>, events: seq<Event>)
    ensures IsRun(states, events) && states[|events|] == Both(NewJob(FIRST), NewJob(SECOND), [])
    ensures events == [FIRST, SECOND]
  {
    states, events := [INITIAL], [];
    states, events := Extend(states, events, FIRST);
    assert states[1] == State(map[0 := NewJob(FIRST)], map[0 := Txn(false, {})], []);
    states, events := Extend(states, events, SECOND);
    assert map[0 := NewJob(FIRST)][1 := NewJob(SECOND)] == map[0 := NewJob(FIRST), 1 := NewJob(SECOND)];
  }

  lemma RunBoth() returns (states: seq<State>, events: seq<Event>)
    ensures IsRun(states, events) && states[|events|] == Both(Run(FIRST), Run(SECOND), [])
    ensures |events| > 1 && events[..2] == [FIRST, SECOND]
  {
    var a, b := NewJob(FIRST), NewJob(SECOND);
    var a1, b1 := Quiet(a, Start(0)), Quiet(b, Start(1));
    states, events := CreateBoth();
    FirstMoves(a, b, Start(0));
    states, events := Extend(states, events, Start(0));
    SecondMoves(a1, b, Start(1));
    states, events := Extend(states, events, Start(1));
    FirstMoves(a1, b1, RunReturn(0, 0));
    states, events := Extend(states, events, RunReturn(0, 0));
    SecondMoves(Run(FIRST), b1, RunReturn(1, 0));
    states, events := Extend(states, events, RunReturn(1, 0));
  }

  const ORDER: seq<JobId> := [1, 0]

  /** What the prepare callbacks return: that of the second job fails. */
  const PREP: map<JobId, int> := map[0 := 0, 1 := -5]

  lemma OrderIs()
    ensures forall k :: k in ORDER <==> k == 0 || k == 1
    ensures ORDER[0] == 1 && ORDER[1..] == [0] && [0][1..] == [] && ListOf(ORDER, {0, 1})
  {
    assert ORDER[0] == 1 && ORDER[1] == 0;
  }

  /**
  Both jobs are in the transaction, did not fail, and are finalized automatically; only the second can fail to
  prepare.
  */
  predicate Fine(first: Job, second: Job) {
    && first.group == second.group == 0 && first.inTxn && second.inTxn
    && first.options.autoFinalize && second.options.autoFinalize
    && first.ret == second.ret == 0 && !first.cancel.forced
    && !second.cancel.forced && !first.options.hasPrepare && second.options.hasPrepare
  }

  lemma CanExit(first: Job, second: Job, id: JobId)
    requires Fine(first, second) && id < 2 && (if id == 0 then first else second).co.Returned?
    ensures Enabled(Both(first, second, []), Exit(id, ORDER, PREP))
  {
    OrderIs();
  }

  /** The second job completes and waits for the first. */
  lemma SecondWaits(first: Job, second: Job)
    requires Fine(first, second) && second.co.Returned? && !IsCompleted(first.status)
    ensures Enabled(Both(first, second, []), Exit(1, ORDER, PREP))
    ensures Next(Both(first, second, []), Exit(1, ORDER, PREP)) == Both(first, To(second.(co := Exited), Waiting), [])
  {
    var s, second2 := Both(first, second, []), To(second.(co := Exited), Waiting);
    CanExit(first, second, 1);
    SuccessForm(s, Exit(1, ORDER, PREP));
    assert 0 in Members(s, 0) && !IsCompleted(s.jobs[0].status);
    assert map[0 := first, 1 := second][1 := second2] == map[0 := first, 1 := second2];
  }

  /** The second job waits, and the first is about to complete. */
  ghost predicate Poised(s: State) {
    && 0 in s.jobs && 1 in s.jobs && Members(s, 0) == {0, 1} && Fine(s.jobs[0], s.jobs[1])
    && s.jobs[0].co.Returned? && IsCompleted(s.jobs[1].status)
  }

  lemma PoisedCanExit(s: State)
    requires Poised(s)
    ensures Enabled(s, Exit(0, ORDER, PREP))
    ensures Next(s, Exit(0, ORDER, PREP)) == DoFinalize(Gathered(s, 0), 0, ORDER, PREP)
  {
    OrderIs();
    SuccessForm(s, Exit(0, ORDER, PREP));
  }

  /** The first job completes, finalizes the transaction, and the second fails to prepare. */
  lemma FirstFinalizes(s: State)
    requires Poised(s) && Inv(s) && Ended(s)
    ensures
      var g := Gathered(s, 0);
      && Inv(g) && Ended(g) && CanFinalize(g, 0, ORDER, PREP)
      && FirstFailure(g.jobs, ORDER, PREP) == FailedAt(1) && Members(g, g.jobs[0].group) == {0, 1}
  {
    var e := Exit(0, ORDER, PREP);
    PoisedCanExit(s);
    GatheredCanFinalize(s, e);
    assert Ended(Gathered(s, 0)) by {
      GatheredGoes(s, 0);
      GoesKeepsEnded(s, Gathered(s, 0));
    }
    assert FirstFailure(Gathered(s, 0).jobs, ORDER, PREP) == FailedAt(1) by {
      GatheredFailure(s, e);
      SecondFails(s.jobs);
    }
    GatheredMembers(s, 0);
  }

  lemma SecondFails(jobs: map<JobId, Job>)
    requires 0 in jobs && 1 in jobs && jobs[1].options.hasPrepare
    ensures FirstFailure(jobs, ORDER, PREP) == FailedAt(1)
  {
    OrderIs();
    assert Fails(jobs, PREP, 1);
  }

  /** The abort loop goes over the two jobs. */
  lemma AbortBoth(states: seq<State>, events: seq<Event>) returns (states2: seq<State>, events2: seq<Event>)
    requires IsRun(states, events)
    requires forall k :: k in ORDER ==> k in states[|events|].jobs && Enabled(states[|events|], AbortStep(k))
    ensures IsRun(states2, events2) && states2[|events2|] == FinalizeAll(states[|events|], ORDER) && events <= events2
  {
    OrderIs();
    var s := states[|events|];
    AbortTwo(s);
    states2, events2 := Extend(states, events, AbortStep(1));
    states2, events2 := Extend(states2, events2, AbortStep(0));
  }

  lemma AbortTwo(s: State)
    requires Enabled(s, AbortStep(0)) && Enabled(s, AbortStep(1))
    ensures
      var s1 := Next(s, AbortStep(1));
      && Enabled(s1, AbortStep(0)) && (forall k :: k in ORDER ==> k in s.jobs)
      && FinalizeAll(s, ORDER) == Next(s1, AbortStep(0))
  {
    OrderIs();
    var s1 := FinalizeSingle(s, 1);
    assert FinalizeAll(s, ORDER) == FinalizeAll(s1, [0]);
    assert FinalizeAll(s1, [0]) == FinalizeAll(FinalizeSingle(s1, 0), []);
  }

  /** `s` is about to be left with the first job committed and the second aborted, once the abort loop is over. */
  ghost predicate Torn(s: State) {
    && (forall k :: k in ORDER ==> k in s.jobs && Enabled(s, AbortStep(k)))
    && Commit(0) in FinalizeAll(s, ORDER).log && Abort(1) in FinalizeAll(s, ORDER).log
  }

  /** What the abort leaves: the first job is committed, the second aborted. */
  lemma TornApart(g: State)
    requires Inv(g) && Ended(g) && CanFinalize(g, 0, ORDER, PREP) && FirstFailure(g.jobs, ORDER, PREP) == FailedAt(1)
    requires Members(g, g.jobs[0].group) == {0, 1}
    ensures Torn(DoFinalize(g, 0, ORDER, PREP))
  {
    OrderIs();
    var s := DoFinalize(g, 0, ORDER, PREP);
    forall k | k in ORDER ensures k in s.jobs && Enabled(s, AbortStep(k)) { AllDue(g, 0, ORDER, PREP, k); }
    FailedPrepare(g, 0, ORDER, PREP, ORDER);
  }

  lemma RunsAreFine()
    ensures Fine(Run(FIRST), Run(SECOND)) && Run(FIRST).co.Returned? && Run(SECOND).co.Returned?
    ensures !IsCompleted(Run(FIRST).status)
  {
  }

  lemma WaitingIsPoised(first: Job, second: Job)
    requires Fine(first, second) && first.co.Returned?
    ensures Poised(Both(first, To(second.(co := Exited), Waiting), []))
  {
  }

  lemma SecondExits(states: seq<State>, events: seq<Event>, first: Job, second: Job)
    returns (states2: seq<State>, events2: seq<Event>)
    requires IsRun(states, events) && states[|events|] == Both(first, second, [])
    requires Fine(first, second) && first.co.Returned? && second.co.Returned? && !IsCompleted(first.status)
    ensures IsRun(states2, events2) && Poised(states2[|events2|]) && events2 == events + [Exit(1, ORDER, PREP)]
  {
    SecondWaits(first, second);
    WaitingIsPoised(first, second);
    states2, events2 := Extend(states, events, Exit(1, ORDER, PREP));
  }

  lemma SecondCompletes() returns (states: seq<State>, events: seq<Event>)
    ensures IsRun(states, events) && Poised(states[|events|]) && |events| > 1 && events[..2] == [FIRST, SECOND]
  {
    states, events := RunBoth();
    RunsAreFine();
    states, events := SecondExits(states, events, Run(FIRST), Run(SECOND));
  }

  lemma PoisedTears(s: State)
    requires Poised(s) && Inv(s) && Ended(s)
    ensures Enabled(s, Exit(0, ORDER, PREP)) && Torn(Next(s, Exit(0, ORDER, PREP)))
  {
    PoisedCanExit(s);
    FirstFinalizes(s);
    TornApart(Gathered(s, 0));
  }

  lemma FirstCompletes() returns (states: seq<State>, events: seq<Event>)
    ensures IsRun(states, events) && Torn(states[|events|]) && |events| > 1 && events[..2] == [FIRST, SECOND]
  {
    states, events := SecondCompletes();
    assert Enabled(states[|events|], Exit(0, ORDER, PREP)) && Torn(Next(states[|events|], Exit(0, ORDER, PREP))) by {
      RunKeepsInv(states, events, |events|);
      PoisedTears(states[|events|]);
    }
    states, events := Extend(states, events, Exit(0, ORDER, PREP));
  }

  /**
  A run in which a transaction is torn apart: the first job completes last and so finalizes the transaction; the
  prepare callback of the second fails; the second is aborted, and the first is committed.
  */
  lemma TornTransaction() returns (states: seq<State>, events: seq<Event>)
    ensures IsRun(states, events) && |events| > 1 && events[..2] == [FIRST, SECOND] && FIRST.txn == SECOND.txn
    ensures Commit(FIRST.id) in states[|events|].log && Abort(SECOND.id) in states[|events|].log
  {
    states, events := FirstCompletes();
    states, events := AbortBoth(states, events);
  }

  /**
  A run in which the assertion fails that a job has not completed: neither job was started, and the first is cancelled
  twice.  It is the last in the list of the transaction, so that after the first cancel it stays ABORTING while the
  abort loop waits for the other job.
  */
  lemma CancelTwice() returns (states: seq<State>, events: seq<Event>)
    ensures IsRun(states, events) && |events| > 0
    ensures CancelledTwice(states[|events| - 1], events[|events| - 1])
    ensures !Asserts(states[|events| - 1], events[|events| - 1])
    ensures events == [FIRST, SECOND, Cancel(0, true, true), Cancel(0, true, true)]
    ensures 1 in states[3].jobs && !IsCompleted(states[3].jobs[1].status)
  {
    var e := Cancel(0, true, true);
    states, events := CreateBoth();
    CancelFirst(NewJob(FIRST), NewJob(SECOND), e);
    states, events := Extend(states, events, e);
    states, events := Extend(states, events, e);
    AssertsHold(states, events, |events| - 1);
  }

  lemma CancelFirst(first: Job, second: Job, e: Event)
    requires e == Cancel(0, true, true) && first.co.NotStarted? && first.status.Created?
    ensures Enabled(Both(first, second, []), e)
    ensures CancelledTwice(Next(Both(first, second, []), e), e) && Enabled(Next(Both(first, second, []), e), e)
    ensures
      var s2 := Next(Both(first, second, []), e);
      1 in s2.jobs && s2.jobs[1].status == second.status
  {
  }
}
