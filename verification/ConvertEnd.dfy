/** Every run of a conversion comes to an end: all coroutines have left, and the conversion has succeeded or failed. */
module ConvertEnd {
  import opened ConvertRun

  // ---------------------------------------------------------------------------------------------
  // A bound on the number of steps

  function Length(claims: seq<Claim>, c: nat): nat {
    if c < |claims| then claims[c].n else 0
  }

  /** A bound on the steps of a coroutine at `pc` before it claims another part, and on those that wake others. */
  function StepsLeft(claims: seq<Claim>, pc: Pc): nat {
    match pc
    case NotEntered => 4
    case Idle => 3
    case Querying => 2
    case Failing(_) => 1
    case Claimed(c) => Length(claims, c) + 8
    case Filled(c, _) => Length(claims, c) + 7
    case Waiting(c, _) => Length(claims, c) + 6
    case Writing(c, _, count) => if count <= Length(claims, c) then 5 + Length(claims, c) - count else 5
    case Finishing(_) => 5
    case Done => 0
  }

  function AllStepsLeft(claims: seq<Claim>, cos: seq<Pc>): nat {
    if cos == [] then 0 else AllStepsLeft(claims, cos[..|cos| - 1]) + StepsLeft(claims, cos[|cos| - 1])
  }

  /** Every sector that nobody has claimed is worth eight steps. */
  function Measure(u: Setup, s: State): int {
    8 * (|u.source| - s.sector) + AllStepsLeft(s.claims, s.cos)
  }

  lemma {:induction false} StepsLeftUpdate(claims: seq<Claim>, cos: seq<Pc>, i: nat, pc: Pc)
    requires i < |cos|
    ensures AllStepsLeft(claims, cos[i := pc]) ==
      AllStepsLeft(claims, cos) - StepsLeft(claims, cos[i]) + StepsLeft(claims, pc)
    decreases |cos|
  {
    var n := |cos| - 1;
    if i == n {
      assert cos[i := pc][..n] == cos[..n];
    } else {
      assert cos[i := pc][..n] == cos[..n][i := pc];
      StepsLeftUpdate(claims, cos[..n], i, pc);
    }
  }

  /** The lengths of the claims that coroutines hold are all that counts. */
  lemma {:induction false} SameStepsLeft(claims: seq<Claim>, claims2: seq<Claim>, cos: seq<Pc>)
    requires forall i :: 0 <= i < |cos| && Active(cos[i]) ==> Length(claims2, cos[i].c) == Length(claims, cos[i].c)
    ensures AllStepsLeft(claims2, cos) == AllStepsLeft(claims, cos)
    decreases |cos|
  {
    if cos != [] { SameStepsLeft(claims, claims2, cos[..|cos| - 1]); }
  }

  lemma {:induction false} StartStepsLeft(cos: seq<Pc>)
    requires forall i :: 0 <= i < |cos| ==> cos[i].NotEntered?
    ensures AllStepsLeft([], cos) == 4 * |cos|
    decreases |cos|
  {
    if cos != [] { StartStepsLeft(cos[..|cos| - 1]); }
  }

  lemma TakeDecreases(u: Setup, s: State, e: Step)
    requires Inv(u, s) && Enabled(u, s, e) && e.Take?
    ensures Measure(u, Next(u, s, e)) < Measure(u, s)
  {
    var s2 := Next(u, s, e);
    forall i | 0 <= i < |s.cos| && Active(s.cos[i])
      ensures Length(s2.claims, s.cos[i].c) == Length(s.claims, s.cos[i].c)
    {
      assert AtWork(u, s, s.cos[i]);
    }
    SameStepsLeft(s.claims, s2.claims, s.cos);
    StepsLeftUpdate(s2.claims, s.cos, e.i, Claimed(|s.claims|));
  }

  lemma WakeAddsOne(s: State, offs: nat)
    ensures AllStepsLeft(s.claims, Wake(s, offs).cos) <= AllStepsLeft(s.claims, s.cos) + 1
  {
    var w := FirstWaiter(s, offs, 0);
    if w < |s.cos| { StepsLeftUpdate(s.claims, s.cos, w, Filled(s.cos[w].c, s.cos[w].data)); }
  }

  lemma FinishDecreases(u: Setup, s: State, e: Step)
    requires Inv(u, s) && Enabled(u, s, e) && e.Finish?
    ensures Measure(u, Next(u, s, e)) < Measure(u, s)
  {
    var s1 := Finished(s, e.i);
    StepsLeftUpdate(s.claims, s.cos, e.i, Idle);
    SameStepsLeft(s.claims, s1.claims, s1.cos);
    WakeAddsOne(s1, End(s.claims[s.cos[e.i].c]));
  }

  /** What a coroutine writes is as long as its claim. */
  lemma DataFits(u: Setup, s: State, i: nat)
    requires Inv(u, s) && i < |s.cos|
    ensures s.cos[i].Writing? ==> s.cos[i].c < |s.claims| && |s.cos[i].data| == s.claims[s.cos[i].c].n
  {
    assert AtWork(u, s, s.cos[i]);
  }

  /** The steps of one coroutine that leave the claims alone. */
  lemma MoveForm(u: Setup, s: State, e: Step)
    requires Enabled(u, s, e) && !e.Take? && !e.Finish?
    ensures
      var s2 := Next(u, s, e);
      && |s2.cos| == |s.cos| && s2.cos == s.cos[e.i := s2.cos[e.i]]
      && s2.claims == s.claims && s2.sector == s.sector
  {
  }

  lemma MoveAdvances(u: Setup, s: State, e: Step)
    requires Inv(u, s) && Enabled(u, s, e) && !e.Take? && !e.Finish?
    ensures
      var s2 := Next(u, s, e);
      e.i < |s2.cos| && StepsLeft(s.claims, s2.cos[e.i]) < StepsLeft(s.claims, s.cos[e.i])
  {
    DataFits(u, s, e.i);
  }

  lemma MoveDecreases(u: Setup, s: State, e: Step)
    requires Inv(u, s) && Enabled(u, s, e) && !e.Take? && !e.Finish?
    ensures Measure(u, Next(u, s, e)) < Measure(u, s)
  {
    MoveForm(u, s, e);
    MoveAdvances(u, s, e);
    StepsLeftUpdate(s.claims, s.cos, e.i, Next(u, s, e).cos[e.i]);
  }

  /** Every step brings the conversion nearer to its end. */
  lemma StepDecreases(u: Setup, s: State, e: Step)
    requires Inv(u, s) && Enabled(u, s, e)
    ensures Measure(u, Next(u, s, e)) < Measure(u, s)
  {
    if e.Take? {
      TakeDecreases(u, s, e);
    } else if e.Finish? {
      FinishDecreases(u, s, e);
    } else {
      MoveDecreases(u, s, e);
    }
  }

  lemma {:induction false} MeasureBounds(u: Setup, states: seq<State>, steps: seq<Step>, i: nat)
    requires IsRun(u, states, steps) && i < |states|
    ensures Measure(u, states[i]) + i <= 8 * |u.source| + 4 * |states[0].cos|
    decreases i
  {
    if i == 0 {
      StartStepsLeft(states[0].cos);
    } else {
      RunKeepsInv(u, states, steps, i - 1);
      MeasureBounds(u, states, steps, i - 1);
      StepDecreases(u, states[i - 1], steps[i - 1]);
    }
  }

  /** Every run is finite: it has at most eight steps per sector and four per coroutine, whatever fails in between. */
  lemma RunsAreFinite(u: Setup, states: seq<State>, steps: seq<Step>)
    requires IsRun(u, states, steps)
    ensures |steps| <= 8 * |u.source| + 4 * |states[0].cos|
  {
    RunKeepsInv(u, states, steps, |steps|);
    MeasureBounds(u, states, steps, |steps|);
  }

  // ---------------------------------------------------------------------------------------------
  // How a run ends

  /** Somebody is at work, nobody has begun, or the outcome is known. */
  ghost predicate Accounted(s: State) {
    s.running > 0 || (forall i :: 0 <= i < |s.cos| ==> s.cos[i].NotEntered?) || !s.ret.InProgress?
  }

  lemma StepIsAccounted(u: Setup, s: State, e: Step)
    requires Inv(u, s) && Enabled(u, s, e)
    ensures Accounted(Next(u, s, e)) && |Next(u, s, e).cos| == |s.cos|
  {
    if Running(s.cos) == 0 { NoneRunning(s.cos, e.i); }
  }

  lemma {:induction false} RunIsAccounted(u: Setup, states: seq<State>, steps: seq<Step>, i: nat)
    requires IsRun(u, states, steps) && i < |states|
    ensures Accounted(states[i]) && |states[i].cos| == |states[0].cos|
    decreases i
  {
    if i > 0 {
      RunKeepsInv(u, states, steps, i - 1);
      RunIsAccounted(u, states, steps, i - 1);
      StepIsAccounted(u, states[i - 1], steps[i - 1]);
    }
  }

  lemma {:induction false} AllDoneRunning(cos: seq<Pc>)
    requires forall i :: 0 <= i < |cos| ==> cos[i].Done?
    ensures Running(cos) == 0
    decreases |cos|
  {
    if cos != [] { AllDoneRunning(cos[..|cos| - 1]); }
  }

  /**
  A run that cannot go on has ended: all coroutines have left, and the conversion has failed, or it has succeeded and
  the target is the concatenation of the sources.
  */
  lemma RunEnds(u: Setup, states: seq<State>, steps: seq<Step>)
    requires IsRun(u, states, steps) && |states[0].cos| > 0
    requires forall e :: !Enabled(u, states[|steps|], e)
    ensures
      var s := states[|steps|];
      && (forall i :: 0 <= i < |s.cos| ==> s.cos[i].Done?)
      && (s.ret.Failed? || (s.ret.Succeeded? && s.target == u.source))
  {
    var s := states[|steps|];
    forall i | 0 <= i < |s.cos|
      ensures s.cos[i].Done?
    {
      if !s.cos[i].Done? {
        var e := NoDeadlock(u, states, steps, |steps|, i);
      }
    }
    RunKeepsInv(u, states, steps, |steps|);
    RunIsAccounted(u, states, steps, |steps|);
    AllDoneRunning(s.cos);
    assert !s.cos[0].NotEntered?;
  }
}
