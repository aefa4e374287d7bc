/**
The hand-shake between exclusive sections and guest execution.

Each virtual CPU is driven by one thread.  The thread either executes guest code, between
`cpu_exec_start` and `cpu_exec_end`, or runs an exclusive section, between `start_exclusive` and
`end_exclusive`.  The model is an interleaving of the threads of any number of CPUs with one atomic
step per access to shared memory, to the mutex `qemu_cpu_list_lock` or to a condition variable.
*/
module Exclusive {

  /** Program counters inside start_exclusive, each named after the access it is about to make. */
  datatype SePc =
    | SeLock
    | SeIdleCheck                        // exclusive_idle: test pending_cpus
    | SeIdleSleep | SeIdleWoken          // exclusive_idle: asleep on exclusive_resume / about to retake the mutex
    | SeSetPending                       // pending_cpus = 1
    | SeScan(todo: set<nat>, count: nat) // read `running` of some CPU of todo; running_cpus is count
    | SeMark(marked: nat, todo: set<nat>, count: nat) // saw `marked` running: set its has_waiter
    | SeSetCount(count: nat)             // pending_cpus = running_cpus + 1
    | SeCondCheck                        // test pending_cpus > 1
    | SeCondSleep | SeCondWoken          // asleep on exclusive_cond / about to retake the mutex
    | SeUnlock
    | SeEnter                            // exclusive_context_count = 1

  /** Program counters inside end_exclusive, once exclusive_context_count is zero. */
  datatype XePc = XeLock | XeClear | XeBroadcast | XeUnlock

  /** Program counters inside cpu_exec_start, once `running` is set. */
  datatype EsPc =
    | EsReadPending | EsLock | EsTestWaiter | EsClearRunning
    | EsIdleCheck | EsIdleSleep | EsIdleWoken
    | EsSetRunning | EsUnlock

  /** Program counters inside cpu_exec_end, once `running` is cleared. */
  datatype EePc =
    | EeReadPending | EeLock | EeTestWaiter | EeClearWaiter | EeDecrement | EeTestOne | EeSignal | EeUnlock

  datatype Pc =
    | Outside            // in none of the four functions and in no exclusive section
    | Starting(se: SePc) // in start_exclusive
    | InExclusive        // after start_exclusive, before the end_exclusive that matches it
    | Ending(xe: XePc)   // in end_exclusive
    | Entering(es: EsPc) // in cpu_exec_start
    | Executing          // after cpu_exec_start, before cpu_exec_end
    | Leaving(ee: EePc)  // in cpu_exec_end

  datatype Cpu = Cpu(pc: Pc, running: bool, hasWaiter: bool, contextCount: nat)

  datatype Lock = Free | Held(holder: nat)

  datatype State = State(cpu: seq<Cpu>, pending: int, lock: Lock)

  ghost predicate Init(s: State) {
    s.pending == 0 && s.lock == Free &&
    forall c :: 0 <= c < |s.cpu| ==> s.cpu[c] == Cpu(Outside, false, false, 0)
  }

  // ---------------------------------------------------------------------------------------------
  // Steps

  /** What a thread does where it has a choice; `Advance` is the next step of the function it is in. */
  datatype Choice =
    | Advance
    | BeginExec              // call cpu_exec_start
    | EndExec                // call cpu_exec_end
    | BeginExclusive         // call start_exclusive
    | EndExclusive           // call end_exclusive
    | SetRunning(on: bool)   // cpu_exec_step_atomic marks the CPU running inside its exclusive section
    | Look(at: nat)          // the CPU that CPU_FOREACH visits next
    | Wake(sleeper: nat)     // the thread that a signal wakes
    | Spurious               // a condition variable wakes up without a signal

  predicate SleepsOnResume(pc: Pc) {
    pc == Starting(SeIdleSleep) || pc == Entering(EsIdleSleep)
  }

  predicate SleepsOnCond(pc: Pc) {
    pc == Starting(SeCondSleep)
  }

  predicate WantsLock(pc: Pc) {
    match pc
    case Starting(se) => se.SeLock? || se.SeIdleWoken? || se.SeCondWoken?
    case Ending(xe) => xe.XeLock?
    case Entering(es) => es.EsLock? || es.EsIdleWoken?
    case Leaving(ee) => ee.EeLock?
    case _ => false
  }

  function Woken(pc: Pc): Pc {
    if pc == Starting(SeIdleSleep) then Starting(SeIdleWoken)
    else if pc == Entering(EsIdleSleep) then Entering(EsIdleWoken)
    else if pc == Starting(SeCondSleep) then Starting(SeCondWoken)
    else pc
  }

  /** A step that CPU state `me` allows, apart from what it needs of the mutex. */
  predicate Possible(me: Cpu, ch: Choice) {
    match ch
    case Advance =>
      && (me.pc.Starting? || me.pc.Ending? || me.pc.Entering? || me.pc.Leaving?)
      && !SleepsOnResume(me.pc) && !SleepsOnCond(me.pc)
      && me.pc != Leaving(EeSignal)
      && (me.pc.Starting? && me.pc.se.SeScan? ==> me.pc.se.todo == {})
    case BeginExec => me.pc == Outside
    case EndExec => me.pc == Executing
    case BeginExclusive => me.pc == Outside || (me.pc == InExclusive && !me.running)
    case EndExclusive => me.pc == InExclusive && !me.running
    case SetRunning(on) => me.pc == InExclusive && me.running != on
    case Look(at) => me.pc.Starting? && me.pc.se.SeScan? && at in me.pc.se.todo
    case Wake(w) => me.pc == Leaving(EeSignal)
    case Spurious => SleepsOnResume(me.pc) || SleepsOnCond(me.pc)
  }

  /** A signal of exclusive_cond wakes a thread asleep on it, if there is one. */
  predicate SignalWakes(s: State, w: nat) {
    && w < |s.cpu|
    && (SleepsOnCond(s.cpu[w].pc) || forall d :: 0 <= d < |s.cpu| ==> !SleepsOnCond(s.cpu[d].pc))
  }

  predicate Enabled(s: State, c: nat, ch: Choice) {
    && c < |s.cpu|
    && Possible(s.cpu[c], ch)
    && (WantsLock(s.cpu[c].pc) ==> s.lock == Free)
    && (ch.Wake? ==> SignalWakes(s, ch.sleeper))
  }

  datatype LockOp = Keep | Take | Release

  datatype Remote = Nobody | SetWaiter(cpu: nat) | WakeOne(cpu: nat) | WakeAll

  /** What a step does: the CPU's new state, the new pending_cpus, and the effect on the mutex and on other CPUs. */
  datatype Effect = Effect(me: Cpu, pending: int, lock: LockOp, remote: Remote)

  /** The step does `op` on the mutex and moves on to `pc`. */
  function Move(me: Cpu, pending: int, op: LockOp, pc: Pc): Effect {
    Effect(me.(pc := pc), pending, op, Nobody)
  }

  function StartExclusive(me: Cpu, se: SePc, cpus: nat, pending: int): Effect {
    match se
    case SeLock => Move(me, pending, Take, Starting(SeIdleCheck))
    case SeIdleCheck =>
      if pending != 0 then Move(me, pending, Release, Starting(SeIdleSleep))
      else Move(me, pending, Keep, Starting(SeSetPending))
    case SeIdleSleep => Move(me, pending, Keep, Starting(SeIdleWoken))
    case SeIdleWoken => Move(me, pending, Take, Starting(SeIdleCheck))
    case SeSetPending => Move(me, 1, Keep, Starting(SeScan(AllCpus(cpus), 0)))
    case SeScan(_, n) => Move(me, pending, Keep, Starting(SeSetCount(n)))
    case SeMark(m, todo, n) => Effect(me.(pc := Starting(SeScan(todo, n + 1))), pending, Keep, SetWaiter(m))
    case SeSetCount(n) => Move(me, n + 1, Keep, Starting(SeCondCheck))
    case SeCondCheck =>
      if pending > 1 then Move(me, pending, Release, Starting(SeCondSleep))
      else Move(me, pending, Keep, Starting(SeUnlock))
    case SeCondSleep => Move(me, pending, Keep, Starting(SeCondWoken))
    case SeCondWoken => Move(me, pending, Take, Starting(SeCondCheck))
    case SeUnlock => Move(me, pending, Release, Starting(SeEnter))
    case SeEnter => Effect(me.(contextCount := 1, pc := InExclusive), pending, Keep, Nobody)
  }

  /** The step of CPU_FOREACH that reads `running` of CPU `at`. */
  function LookAt(me: Cpu, se: SePc, pending: int, at: nat, running: bool): Effect {
    if !se.SeScan? then Move(me, pending, Keep, me.pc)
    else if running then Move(me, pending, Keep, Starting(SeMark(at, se.todo - {at}, se.count)))
    else Move(me, pending, Keep, Starting(SeScan(se.todo - {at}, se.count)))
  }

  function FinishExclusive(me: Cpu, xe: XePc, pending: int): Effect {
    match xe
    case XeLock => Move(me, pending, Take, Ending(XeClear))
    case XeClear => Move(me, 0, Keep, Ending(XeBroadcast))
    case XeBroadcast => Effect(me.(pc := Ending(XeUnlock)), pending, Keep, WakeAll)
    case XeUnlock => Move(me, pending, Release, Outside)
  }

  function ExecStart(me: Cpu, es: EsPc, pending: int): Effect {
    match es
    case EsReadPending => Move(me, pending, Keep, if pending != 0 then Entering(EsLock) else Executing)
    case EsLock => Move(me, pending, Take, Entering(EsTestWaiter))
    case EsTestWaiter => Move(me, pending, Keep, Entering(if me.hasWaiter then EsUnlock else EsClearRunning))
    case EsClearRunning => Effect(me.(running := false, pc := Entering(EsIdleCheck)), pending, Keep, Nobody)
    case EsIdleCheck =>
      if pending != 0 then Move(me, pending, Release, Entering(EsIdleSleep))
      else Move(me, pending, Keep, Entering(EsSetRunning))
    case EsIdleSleep => Move(me, pending, Keep, Entering(EsIdleWoken))
    case EsIdleWoken => Move(me, pending, Take, Entering(EsIdleCheck))
    case EsSetRunning => Effect(me.(running := true, pc := Entering(EsUnlock)), pending, Keep, Nobody)
    case EsUnlock => Move(me, pending, Release, Executing)
  }

  function ExecEnd(me: Cpu, ee: EePc, pending: int, sleeper: nat): Effect {
    match ee
    case EeReadPending => Move(me, pending, Keep, if pending != 0 then Leaving(EeLock) else Outside)
    case EeLock => Move(me, pending, Take, Leaving(EeTestWaiter))
    case EeTestWaiter => Move(me, pending, Keep, Leaving(if me.hasWaiter then EeClearWaiter else EeUnlock))
    case EeClearWaiter => Effect(me.(hasWaiter := false, pc := Leaving(EeDecrement)), pending, Keep, Nobody)
    case EeDecrement => Move(me, pending - 1, Keep, Leaving(EeTestOne))
    case EeTestOne => Move(me, pending, Keep, Leaving(if pending == 1 then EeSignal else EeUnlock))
    case EeSignal => Effect(me.(pc := Leaving(EeUnlock)), pending, Keep, WakeOne(sleeper))
    case EeUnlock => Move(me, pending, Release, Outside)
  }

  /** The steps taken outside the four functions, which are the calls to them. */
  function Call(me: Cpu, pending: int, ch: Choice): Effect {
    match ch
    case BeginExec => Effect(me.(running := true, pc := Entering(EsReadPending)), pending, Keep, Nobody)
    case EndExec => Effect(me.(running := false, pc := Leaving(EeReadPending)), pending, Keep, Nobody)
    case BeginExclusive =>
      if me.contextCount != 0 then Effect(me.(contextCount := me.contextCount + 1), pending, Keep, Nobody)
      else Move(me, pending, Keep, Starting(SeLock))
    case EndExclusive =>
      if me.contextCount > 1 then Effect(me.(contextCount := me.contextCount - 1), pending, Keep, Nobody)
      else Effect(me.(contextCount := 0, pc := Ending(XeLock)), pending, Keep, Nobody)
    case SetRunning(on) => Effect(me.(running := on), pending, Keep, Nobody)
    case _ => Move(me, pending, Keep, me.pc)
  }

  function EffectOf(s: State, c: nat, ch: Choice): Effect
    requires c < |s.cpu|
  {
    var me := s.cpu[c];
    match me.pc
    case Starting(se) =>
      if ch.Look? then LookAt(me, se, s.pending, ch.at, ch.at < |s.cpu| && s.cpu[ch.at].running)
      else StartExclusive(me, se, |s.cpu|, s.pending)
    case Ending(xe) => FinishExclusive(me, xe, s.pending)
    case Entering(es) => ExecStart(me, es, s.pending)
    case Leaving(ee) => ExecEnd(me, ee, s.pending, if ch.Wake? then ch.sleeper else 0)
    case _ => Call(me, s.pending, ch)
  }

  /** CPU `d` after a step of another CPU with the effect `remote`. */
  function Touch(cpu: Cpu, d: nat, remote: Remote): Cpu {
    match remote
    case Nobody => cpu
    case SetWaiter(m) => if d == m then cpu.(hasWaiter := true) else cpu
    case WakeOne(w) => if d == w && SleepsOnCond(cpu.pc) then cpu.(pc := Woken(cpu.pc)) else cpu
    case WakeAll => if SleepsOnResume(cpu.pc) then cpu.(pc := Woken(cpu.pc)) else cpu
  }

  function AllCpus(n: nat): (all: set<nat>)
    ensures forall c: nat :: c in all <==> c < n
  {
    if n == 0 then {} else AllCpus(n - 1) + {n - 1}
  }

  function Apply(s: State, c: nat, e: Effect): (s2: State)
    requires c < |s.cpu|
    ensures |s2.cpu| == |s.cpu| && s2.cpu[c] == e.me
    ensures forall d: nat :: d < |s.cpu| && d != c ==> s2.cpu[d] == Touch(s.cpu[d], d, e.remote)
  {
    State(seq(|s.cpu|, d requires 0 <= d < |s.cpu| => if d == c then e.me else Touch(s.cpu[d], d, e.remote)),
          e.pending,
          match e.lock case Keep => s.lock case Take => Held(c) case Release => Free)
  }

  /** One atomic step of CPU `c`. */
  function Next(s: State, c: nat, ch: Choice): State
    requires Enabled(s, c, ch)
  {
    Apply(s, c, EffectOf(s, c, ch))
  }

  datatype Event = Event(cpu: nat, choice: Choice)

  /** The states of a run from an initial state, one event between each two. */
  ghost predicate IsRun(states: seq<State>, events: seq<Event>) {
    |states| == |events| + 1 && Init(states[0]) &&
    forall i :: 0 <= i < |events| ==>
      Enabled(states[i], events[i].cpu, events[i].choice) &&
      states[i + 1] == Next(states[i], events[i].cpu, events[i].choice)
  }

  // ---------------------------------------------------------------------------------------------
  // The invariant.  `r` is the requester: the CPU whose start_exclusive has set pending_cpus and
  // whose end_exclusive has not cleared it yet; -1 when there is none.

  predicate HoldsLock(pc: Pc) {
    match pc
    case Starting(se) =>
      se.SeIdleCheck? || se.SeSetPending? || se.SeScan? || se.SeMark? || se.SeSetCount? || se.SeCondCheck? ||
        se.SeUnlock?
    case Ending(xe) => !xe.XeLock?
    case Entering(es) => es.EsTestWaiter? || es.EsClearRunning? || es.EsIdleCheck? || es.EsSetRunning? || es.EsUnlock?
    case Leaving(ee) => !ee.EeReadPending? && !ee.EeLock?
    case _ => false
  }

  predicate Counting(pc: Pc) {
    pc.Starting? && (pc.se.SeScan? || pc.se.SeMark? || pc.se.SeSetCount?)
  }

  /** Past the wait for the running CPUs, and pending_cpus not cleared yet. */
  predicate Admitted(pc: Pc) {
    pc == Starting(SeUnlock) || pc == Starting(SeEnter) || pc == InExclusive || pc == Ending(XeLock) ||
      pc == Ending(XeClear)
  }

  predicate Waiting(pc: Pc) {
    pc.Starting? && (pc.se.SeCondCheck? || pc.se.SeCondSleep? || pc.se.SeCondWoken?)
  }

  predicate IsRequester(pc: Pc) {
    Counting(pc) || Waiting(pc) || Admitted(pc)
  }

  /** Where `running` is set; inside an exclusive section it may be either. */
  predicate MarksRunning(pc: Pc) {
    pc == Executing ||
    (pc.Entering? &&
      (pc.es.EsReadPending? || pc.es.EsLock? || pc.es.EsTestWaiter? || pc.es.EsClearRunning? || pc.es.EsUnlock?))
  }

  /** Where guest code follows without another look at pending_cpus. */
  predicate MayExecute(pc: Pc) {
    pc == Executing || pc == Entering(EsUnlock)
  }

  /** Where a CPU whose has_waiter is set can be: on its way to cpu_exec_end, never parked in exclusive_idle. */
  predicate WillRelease(pc: Pc) {
    || pc == Executing
    || (pc.Entering? && (pc.es.EsReadPending? || pc.es.EsLock? || pc.es.EsTestWaiter? || pc.es.EsUnlock?))
    || (pc.Leaving? && (pc.ee.EeReadPending? || pc.ee.EeLock? || pc.ee.EeTestWaiter? || pc.ee.EeClearWaiter?))
  }

  /** Where a CPU seen running can be before has_waiter is set: the mutex is not its own. */
  predicate BeforeMark(pc: Pc) {
    || pc == Executing
    || (pc.Entering? && (pc.es.EsReadPending? || pc.es.EsLock?))
    || (pc.Leaving? && (pc.ee.EeReadPending? || pc.ee.EeLock?))
  }

  /** The requester at `pc` has dealt with CPU `c`. */
  predicate Seen(pc: Pc, c: nat) {
    pc.Starting? ==>
      match pc.se
      case SeScan(todo, _) => c !in todo
      case SeMark(m, todo, _) => c !in todo && c != m
      case _ => true
  }

  /** This CPU's decrement of pending_cpus is still to come. */
  predicate Owes(me: Cpu) {
    me.hasWaiter || me.pc == Leaving(EeDecrement)
  }

  ghost function Owed(s: State): set<nat> {
    set c: nat | c < |s.cpu| && Owes(s.cpu[c])
  }

  ghost predicate LockOk(s: State) {
    && (s.lock.Held? ==> s.lock.holder < |s.cpu|)
    && forall c: nat :: c < |s.cpu| ==> (HoldsLock(s.cpu[c].pc) <==> s.lock == Held(c))
  }

  ghost predicate RequesterOk(s: State, r: int) {
    && -1 <= r < |s.cpu|
    && (r == -1 <==> s.pending == 0)
    && (forall c: nat :: c < |s.cpu| ==> (IsRequester(s.cpu[c].pc) <==> c == r))
  }

  /** What holds of a CPU and pending_cpus, with `active` when there is a requester. */
  predicate CpuOk(me: Cpu, pending: int, active: bool) {
    && (me.pc != InExclusive ==> (me.running <==> MarksRunning(me.pc)))
    && (me.contextCount > 0 <==> me.pc == InExclusive)
    && (me.hasWaiter ==> active && WillRelease(me.pc))
    && (me.pc == Leaving(EeClearWaiter) ==> me.hasWaiter)
    && (me.pc == Entering(EsClearRunning) ==> !me.hasWaiter)
    && (me.pc == Starting(SeSetPending) || me.pc == Entering(EsSetRunning) ==> pending == 0)
    && (me.pc == Leaving(EeDecrement) || me.pc == Leaving(EeTestOne) ==> active)
    && (me.pc == Leaving(EeSignal) ==> pending == 1)
  }

  /** What holds of CPU `c` while the requester stands at `pc`. */
  predicate ScanOk(pc: Pc, c: nat, me: Cpu) {
    && (Seen(pc, c) && MayExecute(me.pc) ==> me.hasWaiter)
    && (!Seen(pc, c) ==> !me.hasWaiter)
    && (pc.Starting? && pc.se.SeMark? && pc.se.marked == c ==> BeforeMark(me.pc))
  }

  ghost predicate CountOk(s: State, pc: Pc) {
    && (Counting(pc) ==> s.pending == 1 && pc.se.count == |Owed(s)|)
    && (!Counting(pc) ==> s.pending == 1 + |Owed(s)|)
    && (Admitted(pc) ==> s.pending == 1)
    && (pc.Starting? && pc.se.SeScan? ==> forall c :: c in pc.se.todo ==> c < |s.cpu|)
    && (pc.Starting? && pc.se.SeMark? ==>
          pc.se.marked < |s.cpu| && pc.se.marked !in pc.se.todo && forall c :: c in pc.se.todo ==> c < |s.cpu|)
  }

  /** The mutex holder stands at `pc`. */
  predicate HolderAt(s: State, pc: Pc) {
    s.lock.Held? && s.lock.holder < |s.cpu| && s.cpu[s.lock.holder].pc == pc
  }

  /** Whoever sleeps has a wake-up to come. */
  ghost predicate WakeOk(s: State) {
    forall c: nat :: c < |s.cpu| ==>
      && (SleepsOnCond(s.cpu[c].pc) ==>
           s.pending > 1 || HolderAt(s, Leaving(EeTestOne)) || HolderAt(s, Leaving(EeSignal)))
      && (SleepsOnResume(s.cpu[c].pc) ==> s.pending != 0 || HolderAt(s, Ending(XeBroadcast)))
  }

  ghost predicate Inv(s: State, r: int) {
    && LockOk(s)
    && RequesterOk(s, r)
    && (forall c: nat :: c < |s.cpu| ==> CpuOk(s.cpu[c], s.pending, r != -1))
    && (r != -1 ==> CountOk(s, s.cpu[r].pc) && forall c: nat :: c < |s.cpu| ==> ScanOk(s.cpu[r].pc, c, s.cpu[c]))
    && WakeOk(s)
  }

  /** The requester after a step of `c`. */
  function Requester(s: State, r: int, c: nat): int
    requires c < |s.cpu|
  {
    if s.cpu[c].pc == Starting(SeSetPending) then c
    else if s.cpu[c].pc == Ending(XeClear) then -1
    else r
  }

  // ---------------------------------------------------------------------------------------------
  // Steps that change nothing shared but the mutex

  /** Steps that change pending_cpus or another CPU, or move the scan on. */
  predicate Shared(pc: Pc) {
    match pc
    case Starting(se) => se.SeSetPending? || se.SeScan? || se.SeMark? || se.SeSetCount?
    case Ending(xe) => xe.XeClear? || xe.XeBroadcast?
    case Leaving(ee) => ee.EeDecrement? || ee.EeSignal?
    case _ => false
  }

  /** What a step that is not `Shared` can do to its own CPU. */
  predicate Quiet(me: Cpu, e: Effect, pending: int) {
    QuietRole(me, e, pending) && CpuOk(e.me, pending, pending != 0)
  }

  predicate QuietRole(me: Cpu, e: Effect, pending: int) {
    && e.pending == pending && e.remote == Nobody
    && (match e.lock
        case Keep => HoldsLock(e.me.pc) <==> HoldsLock(me.pc)
        case Take => HoldsLock(e.me.pc) && WantsLock(me.pc)
        case Release => !HoldsLock(e.me.pc) && HoldsLock(me.pc))
    && !Counting(me.pc) && !Counting(e.me.pc)
    && (IsRequester(e.me.pc) <==> IsRequester(me.pc))
    && (Admitted(e.me.pc) ==> Admitted(me.pc) || pending <= 1)
    && Owes(e.me) == Owes(me)
    && (e.me.hasWaiter ==> me.hasWaiter)
    && (MayExecute(e.me.pc) ==> e.me.hasWaiter || pending == 0 || MayExecute(me.pc))
    && (pending != 0 && BeforeMark(me.pc) && !WantsLock(me.pc) ==> BeforeMark(e.me.pc))
    && (SleepsOnCond(e.me.pc) ==> pending > 1)
    && (SleepsOnResume(e.me.pc) ==> pending != 0)
    && (me.pc == Leaving(EeTestOne) ==> pending != 1 || e.me.pc == Leaving(EeSignal))
  }

  lemma StartIsQuiet(me: Cpu, se: SePc, cpus: nat, pending: int)
    requires CpuOk(me, pending, pending != 0) && me.pc == Starting(se) && !Shared(me.pc)
    requires !se.SeCondSleep? && !se.SeIdleSleep?
    ensures Quiet(me, StartExclusive(me, se, cpus, pending), pending)
  {
  }

  lemma FinishIsQuiet(me: Cpu, xe: XePc, pending: int)
    requires CpuOk(me, pending, pending != 0) && me.pc == Ending(xe) && !Shared(me.pc)
    ensures Quiet(me, FinishExclusive(me, xe, pending), pending)
  {
  }

  lemma ExecStartKeepsCpu(me: Cpu, es: EsPc, pending: int)
    requires CpuOk(me, pending, pending != 0) && me.pc == Entering(es) && !es.EsIdleSleep?
    ensures CpuOk(ExecStart(me, es, pending).me, pending, pending != 0)
  {
  }

  lemma ExecStartIsQuiet(me: Cpu, es: EsPc, pending: int)
    requires CpuOk(me, pending, pending != 0) && me.pc == Entering(es) && !es.EsIdleSleep?
    ensures QuietRole(me, ExecStart(me, es, pending), pending)
  {
  }

  lemma ExecEndKeepsCpu(me: Cpu, ee: EePc, pending: int)
    requires CpuOk(me, pending, pending != 0) && me.pc == Leaving(ee) && !Shared(me.pc)
    ensures CpuOk(ExecEnd(me, ee, pending, 0).me, pending, pending != 0)
  {
  }

  lemma ExecEndIsQuiet(me: Cpu, ee: EePc, pending: int)
    requires CpuOk(me, pending, pending != 0) && me.pc == Leaving(ee) && !Shared(me.pc)
    ensures QuietRole(me, ExecEnd(me, ee, pending, 0), pending)
  {
  }

  lemma CallKeepsCpu(me: Cpu, pending: int, ch: Choice)
    requires CpuOk(me, pending, pending != 0) && Possible(me, ch)
    requires me.pc == Outside || me.pc == InExclusive || me.pc == Executing
    ensures CpuOk(Call(me, pending, ch).me, pending, pending != 0)
  {
  }

  lemma CallIsQuiet(me: Cpu, pending: int, ch: Choice)
    requires CpuOk(me, pending, pending != 0) && Possible(me, ch)
    requires me.pc == Outside || me.pc == InExclusive || me.pc == Executing
    ensures QuietRole(me, Call(me, pending, ch), pending)
  {
  }

  lemma StepIsQuiet(s: State, c: nat, ch: Choice)
    requires Enabled(s, c, ch) && CpuOk(s.cpu[c], s.pending, s.pending != 0) && !Shared(s.cpu[c].pc) && ch != Spurious
    ensures Quiet(s.cpu[c], EffectOf(s, c, ch), s.pending)
  {
    var me := s.cpu[c];
    match me.pc {
      case Starting(se) => StartIsQuiet(me, se, |s.cpu|, s.pending);
      case Ending(xe) => FinishIsQuiet(me, xe, s.pending);
      case Entering(es) => ExecStartIsQuiet(me, es, s.pending); ExecStartKeepsCpu(me, es, s.pending);
      case Leaving(ee) => ExecEndIsQuiet(me, ee, s.pending); ExecEndKeepsCpu(me, ee, s.pending);
      case _ => CallIsQuiet(me, s.pending, ch); CallKeepsCpu(me, s.pending, ch);
    }
  }

  /** Equal debts are counted the same. */
  lemma SameOwed(s: State, s2: State)
    requires |s2.cpu| == |s.cpu| && forall d: nat :: d < |s.cpu| ==> Owes(s2.cpu[d]) == Owes(s.cpu[d])
    ensures Owed(s2) == Owed(s)
  {
    assert forall d: nat :: d in Owed(s2) <==> d in Owed(s);
  }

  lemma QuietKeepsWake(s: State, r: int, c: nat, e: Effect)
    requires Inv(s, r) && c < |s.cpu| && Quiet(s.cpu[c], e, s.pending) && !Shared(s.cpu[c].pc)
    requires WantsLock(s.cpu[c].pc) ==> s.lock == Free
    ensures WakeOk(Apply(s, c, e))
  {
    var s2 := Apply(s, c, e);
    var me := s.cpu[c];
    assert HoldsLock(me.pc) <==> s.lock == Held(c);
    assert HolderAt(s, Ending(XeBroadcast)) ==> HolderAt(s2, Ending(XeBroadcast));
    assert HolderAt(s, Leaving(EeSignal)) ==> HolderAt(s2, Leaving(EeSignal));
    assert HolderAt(s, Leaving(EeTestOne)) ==>
      s.pending > 1 || HolderAt(s2, Leaving(EeSignal)) || HolderAt(s2, Leaving(EeTestOne));
    forall d: nat | d < |s.cpu|
      ensures SleepsOnCond(s2.cpu[d].pc) ==>
                s2.pending > 1 || HolderAt(s2, Leaving(EeTestOne)) || HolderAt(s2, Leaving(EeSignal))
      ensures SleepsOnResume(s2.cpu[d].pc) ==> s2.pending != 0 || HolderAt(s2, Ending(XeBroadcast))
    {
      if d != c { assert s2.cpu[d] == s.cpu[d]; }
    }
  }

  /** A quiet step keeps the invariant, apart from the wake-ups. */
  lemma QuietKeepsRest(s: State, r: int, c: nat, e: Effect)
    requires Inv(s, r) && c < |s.cpu| && Quiet(s.cpu[c], e, s.pending)
    requires WantsLock(s.cpu[c].pc) ==> s.lock == Free
    ensures WakeOk(Apply(s, c, e)) ==> Inv(Apply(s, c, e), r)
  {
    var s2 := Apply(s, c, e);
    assert forall d: nat :: d < |s.cpu| && d != c ==> s2.cpu[d] == s.cpu[d];
    SameOwed(s, s2);
    if r != -1 {
      forall d: nat | d < |s.cpu|
        ensures ScanOk(s2.cpu[r].pc, d, s2.cpu[d])
      {
        assert ScanOk(s.cpu[r].pc, d, s.cpu[d]);
      }
    }
  }

  lemma QuietKeepsInv(s: State, r: int, c: nat, e: Effect)
    requires Inv(s, r) && c < |s.cpu| && Quiet(s.cpu[c], e, s.pending) && !Shared(s.cpu[c].pc)
    requires WantsLock(s.cpu[c].pc) ==> s.lock == Free
    ensures Inv(Apply(s, c, e), r)
  {
    QuietKeepsRest(s, r, c, e);
    QuietKeepsWake(s, r, c, e);
  }

  // ---------------------------------------------------------------------------------------------
  // Wake-ups

  /** `s2` is `s` with some of the sleeping threads woken. */
  ghost predicate Roused(s: State, s2: State) {
    && |s2.cpu| == |s.cpu| && s2.pending == s.pending && s2.lock == s.lock
    && forall d: nat :: d < |s.cpu| ==> s2.cpu[d] == s.cpu[d] || s2.cpu[d] == s.cpu[d].(pc := Woken(s.cpu[d].pc))
  }

  lemma WokenCpu(me: Cpu, pending: int, active: bool)
    requires CpuOk(me, pending, active)
    ensures
      var now := me.(pc := Woken(me.pc));
      && CpuOk(now, pending, active) && Owes(now) == Owes(me)
      && HoldsLock(now.pc) == HoldsLock(me.pc) && (HoldsLock(me.pc) ==> now == me)
      && IsRequester(now.pc) == IsRequester(me.pc) && (IsRequester(me.pc) ==> Counting(now.pc) == Counting(me.pc))
      && (Counting(me.pc) ==> now == me) && Admitted(now.pc) == Admitted(me.pc)
      && MayExecute(now.pc) == MayExecute(me.pc) && BeforeMark(now.pc) == BeforeMark(me.pc)
      && !SleepsOnCond(now.pc) && !SleepsOnResume(now.pc)
  {
  }

  lemma RousedKeepsInv(s: State, s2: State, r: int)
    requires Inv(s, r) && Roused(s, s2)
    ensures Inv(s2, r)
  {
    forall d: nat | d < |s.cpu|
      ensures CpuOk(s2.cpu[d], s.pending, r != -1) && Owes(s2.cpu[d]) == Owes(s.cpu[d])
      ensures HoldsLock(s2.cpu[d].pc) <==> s2.lock == Held(d)
      ensures IsRequester(s2.cpu[d].pc) <==> d == r
      ensures HoldsLock(s.cpu[d].pc) ==> s2.cpu[d] == s.cpu[d]
      ensures SleepsOnCond(s2.cpu[d].pc) ==> SleepsOnCond(s.cpu[d].pc)
      ensures SleepsOnResume(s2.cpu[d].pc) ==> SleepsOnResume(s.cpu[d].pc)
      ensures r != -1 ==> ScanOk(s2.cpu[r].pc, d, s2.cpu[d])
    {
      WokenCpu(s.cpu[d], s.pending, r != -1);
      if r != -1 { WokenCpu(s.cpu[r], s.pending, true); }
    }
    SameOwed(s, s2);
    if r != -1 { WokenCpu(s.cpu[r], s.pending, true); }
  }

  // ---------------------------------------------------------------------------------------------
  // Steps that change pending_cpus or another CPU

  lemma SetPendingKeepsInv(s: State, r: int, c: nat)
    requires Inv(s, r) && Enabled(s, c, Advance) && s.cpu[c].pc == Starting(SeSetPending)
    ensures Inv(Next(s, c, Advance), c)
  {
    var s2 := Next(s, c, Advance);
    assert r == -1;
    assert forall d: nat :: d < |s.cpu| && d != c ==> s2.cpu[d] == s.cpu[d];
    assert forall d: nat :: d < |s.cpu| ==> !Owes(s2.cpu[d]);
    assert Owed(s2) == {};
    assert s2.lock == s.lock;
  }

  lemma EndScanKeepsInv(s: State, r: int, c: nat)
    requires Inv(s, r) && Enabled(s, c, Advance) && s.cpu[c].pc.Starting? && s.cpu[c].pc.se.SeScan?
    ensures Inv(Next(s, c, Advance), r)
  {
    var s2 := Next(s, c, Advance);
    assert r == c;
    assert forall d: nat :: d < |s.cpu| && d != c ==> s2.cpu[d] == s.cpu[d];
    SameOwed(s, s2);
    forall d: nat | d < |s.cpu|
      ensures ScanOk(s2.cpu[r].pc, d, s2.cpu[d])
    {
      assert ScanOk(s.cpu[r].pc, d, s.cpu[d]);
    }
  }

  lemma LookKeepsInv(s: State, r: int, c: nat, at: nat)
    requires Inv(s, r) && Enabled(s, c, Look(at))
    ensures Inv(Next(s, c, Look(at)), r)
  {
    var s2 := Next(s, c, Look(at));
    assert r == c;
    assert at < |s.cpu|;
    assert s.lock == Held(c);
    assert forall d: nat :: d < |s.cpu| && d != c ==> s2.cpu[d] == s.cpu[d];
    SameOwed(s, s2);
    forall d: nat | d < |s.cpu|
      ensures ScanOk(s2.cpu[r].pc, d, s2.cpu[d])
    {
      assert ScanOk(s.cpu[r].pc, d, s.cpu[d]);
      assert HoldsLock(s.cpu[d].pc) <==> s.lock == Held(d);
      assert CpuOk(s.cpu[d], s.pending, true);
    }
  }

  /** Marking a CPU adds it to those that owe a decrement. */
  lemma MarkCounts(s: State, r: int, c: nat)
    requires Inv(s, r) && Enabled(s, c, Advance) && s.cpu[c].pc.Starting? && s.cpu[c].pc.se.SeMark?
    ensures
      var m, s2 := s.cpu[c].pc.se.marked, Next(s, c, Advance);
      && r == c && m != c && m < |s.cpu| && s.lock == s2.lock == Held(c) && BeforeMark(s.cpu[m].pc)
      && s2.pending == s.pending && s2.cpu[m] == s.cpu[m].(hasWaiter := true)
      && (forall d: nat :: d < |s.cpu| && d != c && d != m ==> s2.cpu[d] == s.cpu[d])
      && |Owed(s2)| == |Owed(s)| + 1
  {
    var m, s2 := s.cpu[c].pc.se.marked, Next(s, c, Advance);
    assert IsRequester(s.cpu[c].pc) <==> c == r;
    assert ScanOk(s.cpu[r].pc, m, s.cpu[m]);
    assert HoldsLock(s.cpu[c].pc) <==> s.lock == Held(c);
    assert s2.cpu[m] == Touch(s.cpu[m], m, SetWaiter(m));
    assert m !in Owed(s) && Owed(s2) == Owed(s) + {m};
  }

  lemma MarkKeepsInv(s: State, r: int, c: nat)
    requires Inv(s, r) && Enabled(s, c, Advance) && s.cpu[c].pc.Starting? && s.cpu[c].pc.se.SeMark?
    ensures Inv(Next(s, c, Advance), r)
  {
    MarkCounts(s, r, c);
    var m, s2 := s.cpu[c].pc.se.marked, Next(s, c, Advance);
    assert s2.cpu[c] == s.cpu[c].(pc := Starting(SeScan(s.cpu[c].pc.se.todo, s.cpu[c].pc.se.count + 1)));
    assert CountOk(s2, s2.cpu[c].pc);
    forall d: nat | d < |s.cpu|
      ensures ScanOk(s2.cpu[r].pc, d, s2.cpu[d]) && CpuOk(s2.cpu[d], s2.pending, true)
      ensures (HoldsLock(s2.cpu[d].pc) <==> s2.lock == Held(d)) && (IsRequester(s2.cpu[d].pc) <==> d == r)
    {
      assert CpuOk(s.cpu[d], s.pending, true) && ScanOk(s.cpu[r].pc, d, s.cpu[d]);
      if d == m { assert BeforeMark(s2.cpu[d].pc); }
    }
  }

  lemma SetCountKeepsInv(s: State, r: int, c: nat)
    requires Inv(s, r) && Enabled(s, c, Advance) && s.cpu[c].pc.Starting? && s.cpu[c].pc.se.SeSetCount?
    ensures Inv(Next(s, c, Advance), r)
  {
    var s2 := Next(s, c, Advance);
    assert r == c;
    assert s.lock == Held(c);
    assert forall d: nat :: d < |s.cpu| && d != c ==> s2.cpu[d] == s.cpu[d];
    SameOwed(s, s2);
    forall d: nat | d < |s.cpu|
      ensures ScanOk(s2.cpu[r].pc, d, s2.cpu[d])
    {
      assert ScanOk(s.cpu[r].pc, d, s.cpu[d]);
    }
    forall d: nat | d < |s.cpu|
      ensures CpuOk(s2.cpu[d], s2.pending, true)
    {
      assert HoldsLock(s.cpu[d].pc) <==> s.lock == Held(d);
    }
  }

  lemma ClearKeepsInv(s: State, r: int, c: nat)
    requires Inv(s, r) && Enabled(s, c, Advance) && s.cpu[c].pc == Ending(XeClear)
    ensures Inv(Next(s, c, Advance), -1)
  {
    var s2 := Next(s, c, Advance);
    assert r == c;
    assert s.lock == Held(c);
    assert forall d: nat :: d < |s.cpu| && d != c ==> s2.cpu[d] == s.cpu[d];
    assert |Owed(s)| == 0;
    forall d: nat | d < |s.cpu|
      ensures CpuOk(s2.cpu[d], s2.pending, false)
    {
      assert d !in Owed(s);
      assert HoldsLock(s.cpu[d].pc) <==> s.lock == Held(d);
    }
    assert HolderAt(s2, Ending(XeBroadcast));
  }

  lemma UnlockNextIsQuiet(me: Cpu, pending: int, pc: Pc)
    requires CpuOk(me, pending, pending != 0)
    requires (me.pc == Ending(XeBroadcast) && pc == Ending(XeUnlock)) ||
      (me.pc == Leaving(EeSignal) && pc == Leaving(EeUnlock))
    ensures Quiet(me, Effect(me.(pc := pc), pending, Keep, Nobody), pending)
  {
  }

  lemma BroadcastWakes(s: State, r: int, c: nat)
    requires Inv(s, r) && Enabled(s, c, Advance) && s.cpu[c].pc == Ending(XeBroadcast)
    ensures WakeOk(Next(s, c, Advance))
  {
    var s2 := Next(s, c, Advance);
    assert HoldsLock(s.cpu[c].pc) <==> s.lock == Held(c);
    forall d: nat | d < |s.cpu|
      ensures !SleepsOnResume(s2.cpu[d].pc) && (SleepsOnCond(s2.cpu[d].pc) ==> s2.pending > 1)
    {
      if d != c { assert s2.cpu[d] == Touch(s.cpu[d], d, WakeAll); }
    }
  }

  lemma BroadcastKeepsInv(s: State, r: int, c: nat)
    requires Inv(s, r) && Enabled(s, c, Advance) && s.cpu[c].pc == Ending(XeBroadcast)
    ensures Inv(Next(s, c, Advance), r)
  {
    var woken := Apply(s, c, Effect(s.cpu[c], s.pending, Keep, WakeAll));
    assert Roused(s, woken);
    RousedKeepsInv(s, woken, r);
    var e := Effect(s.cpu[c].(pc := Ending(XeUnlock)), s.pending, Keep, Nobody);
    UnlockNextIsQuiet(s.cpu[c], s.pending, Ending(XeUnlock));
    QuietKeepsRest(woken, r, c, e);
    assert Apply(woken, c, e).cpu == Next(s, c, Advance).cpu;
    BroadcastWakes(s, r, c);
  }

  lemma DecrementKeepsInv(s: State, r: int, c: nat)
    requires Inv(s, r) && Enabled(s, c, Advance) && s.cpu[c].pc == Leaving(EeDecrement)
    ensures Inv(Next(s, c, Advance), r)
  {
    var s2 := Next(s, c, Advance);
    assert s.lock == Held(c) && r != c && r != -1;
    assert forall d: nat :: d < |s.cpu| && d != c ==> s2.cpu[d] == s.cpu[d];
    assert c in Owed(s);
    assert Owed(s2) == Owed(s) - {c};
    forall d: nat | d < |s.cpu|
      ensures ScanOk(s2.cpu[r].pc, d, s2.cpu[d])
    {
      assert ScanOk(s.cpu[r].pc, d, s.cpu[d]);
    }
    forall d: nat | d < |s.cpu|
      ensures CpuOk(s2.cpu[d], s2.pending, true)
    {
      assert HoldsLock(s.cpu[d].pc) <==> s.lock == Held(d);
    }
    assert HolderAt(s2, Leaving(EeTestOne));
  }

  lemma SignalWakesRequester(s: State, r: int, c: nat, w: nat)
    requires Inv(s, r) && Enabled(s, c, Wake(w))
    ensures WakeOk(Next(s, c, Wake(w)))
  {
    var s2 := Next(s, c, Wake(w));
    assert HoldsLock(s.cpu[c].pc) <==> s.lock == Held(c);
    forall d: nat | d < |s.cpu|
      ensures !SleepsOnCond(s2.cpu[d].pc) && (SleepsOnResume(s2.cpu[d].pc) ==> s2.pending != 0)
    {
      assert IsRequester(s.cpu[d].pc) <==> d == r;
      assert IsRequester(s.cpu[w].pc) <==> w == r;
      if d != c { assert s2.cpu[d] == Touch(s.cpu[d], d, WakeOne(w)); }
    }
  }

  lemma SignalKeepsInv(s: State, r: int, c: nat, w: nat)
    requires Inv(s, r) && Enabled(s, c, Wake(w))
    ensures Inv(Next(s, c, Wake(w)), r)
  {
    var woken := Apply(s, c, Effect(s.cpu[c], s.pending, Keep, WakeOne(w)));
    assert Roused(s, woken);
    RousedKeepsInv(s, woken, r);
    var e := Effect(s.cpu[c].(pc := Leaving(EeUnlock)), s.pending, Keep, Nobody);
    UnlockNextIsQuiet(s.cpu[c], s.pending, Leaving(EeUnlock));
    QuietKeepsRest(woken, r, c, e);
    assert Apply(woken, c, e).cpu == Next(s, c, Wake(w)).cpu;
    SignalWakesRequester(s, r, c, w);
  }

  lemma SharedKeepsInv(s: State, r: int, c: nat, ch: Choice)
    requires Inv(s, r) && Enabled(s, c, ch) && Shared(s.cpu[c].pc)
    ensures Inv(Next(s, c, ch), Requester(s, r, c))
  {
    match s.cpu[c].pc {
      case Starting(se) =>
        match se {
          case SeSetPending => SetPendingKeepsInv(s, r, c);
          case SeScan(_, _) => if ch.Look? { LookKeepsInv(s, r, c, ch.at); } else { EndScanKeepsInv(s, r, c); }
          case SeMark(_, _, _) => MarkKeepsInv(s, r, c);
          case SeSetCount(_) => SetCountKeepsInv(s, r, c);
        }
      case Ending(xe) => if xe == XeClear { ClearKeepsInv(s, r, c); } else { BroadcastKeepsInv(s, r, c); }
      case Leaving(ee) =>
        if ee == EeDecrement { DecrementKeepsInv(s, r, c); } else { SignalKeepsInv(s, r, c, ch.sleeper); }
    }
  }

  /** Every step of every CPU keeps the invariant. */
  lemma StepKeepsInv(s: State, r: int, c: nat, ch: Choice)
    requires Inv(s, r) && Enabled(s, c, ch)
    ensures Inv(Next(s, c, ch), Requester(s, r, c))
  {
    if ch == Spurious {
      RousedKeepsInv(s, Next(s, c, ch), r);
    } else if Shared(s.cpu[c].pc) {
      SharedKeepsInv(s, r, c, ch);
    } else {
      StepIsQuiet(s, c, ch);
      QuietKeepsInv(s, r, c, EffectOf(s, c, ch));
    }
  }

  // ---------------------------------------------------------------------------------------------
  // What holds in every state of every run

  /** The invariant holds in every state of every run; the result is that state's requester. */
  lemma {:induction false} RunKeepsInv(states: seq<State>, events: seq<Event>, i: nat) returns (r: int)
    requires IsRun(states, events) && i < |states|
    ensures Inv(states[i], r)
    decreases i
  {
    if i == 0 {
      r := -1;
    } else {
      var q := RunKeepsInv(states, events, i - 1);
      StepKeepsInv(states[i - 1], q, events[i - 1].cpu, events[i - 1].choice);
      r := Requester(states[i - 1], q, events[i - 1].cpu);
    }
  }

  /** While a CPU is in an exclusive section, no CPU executes guest code and no other is in an exclusive section. */
  lemma MutualExclusion(states: seq<State>, events: seq<Event>, i: nat, x: nat, d: nat)
    requires IsRun(states, events) && i < |states| && x < |states[i].cpu| && d < |states[i].cpu|
    requires states[i].cpu[x].pc == InExclusive
    ensures states[i].cpu[d].pc != Executing
    ensures states[i].cpu[d].pc == InExclusive ==> d == x
  {
    var r := RunKeepsInv(states, events, i);
    var s := states[i];
    assert IsRequester(s.cpu[x].pc) <==> x == r;
    assert IsRequester(s.cpu[d].pc) <==> d == r;
    assert |Owed(s)| == 0;
    assert d !in Owed(s);
    assert ScanOk(s.cpu[r].pc, d, s.cpu[d]);
  }

  /** The CPUs that start_exclusive saw running and that have not reached cpu_exec_end's hand-over yet. */
  ghost function Waiters(s: State): set<nat> {
    set c: nat | c < |s.cpu| && s.cpu[c].hasWaiter
  }

  /**
  Once a requester has counted the running CPUs, pending_cpus is one more than the CPUs with
  has_waiter set, except between the two writes of the hand-over in cpu_exec_end.
  */
  lemma PendingCountsWaiters(states: seq<State>, events: seq<Event>, i: nat, x: nat)
    requires IsRun(states, events) && i < |states| && x < |states[i].cpu|
    requires Waiting(states[i].cpu[x].pc) || Admitted(states[i].cpu[x].pc)
    ensures
      var s := states[i];
      s.pending == 1 + |Waiters(s)| + (if HolderAt(s, Leaving(EeDecrement)) then 1 else 0)
  {
    var r := RunKeepsInv(states, events, i);
    var s := states[i];
    assert IsRequester(s.cpu[x].pc) <==> x == r;
    OwedAreWaiters(s, r);
  }

  /** Who owes a decrement has has_waiter set, except the CPU between the two writes of the hand-over. */
  lemma OwedAreWaiters(s: State, r: int)
    requires Inv(s, r)
    ensures |Owed(s)| == |Waiters(s)| + (if HolderAt(s, Leaving(EeDecrement)) then 1 else 0)
  {
    var h := if HolderAt(s, Leaving(EeDecrement)) then {s.lock.holder} else {};
    forall c: nat | c < |s.cpu|
      ensures c in h <==> s.cpu[c].pc == Leaving(EeDecrement)
      ensures c in h ==> !s.cpu[c].hasWaiter
    {
      if s.cpu[c].pc == Leaving(EeDecrement) { HandOverHoldsLock(s, c); }
      assert CpuOk(s.cpu[c], s.pending, r != -1);
    }
    CountOwed(s, h);
  }

  lemma HandOverHoldsLock(s: State, c: nat)
    requires LockOk(s) && c < |s.cpu| && s.cpu[c].pc == Leaving(EeDecrement)
    ensures s.lock == Held(c)
  {
    assert HoldsLock(s.cpu[c].pc) <==> s.lock == Held(c);
  }

  lemma CountOwed(s: State, h: set<nat>)
    requires forall c: nat :: c < |s.cpu| ==>
      (c in h <==> s.cpu[c].pc == Leaving(EeDecrement)) && (c in h ==> !s.cpu[c].hasWaiter)
    requires forall c :: c in h ==> c < |s.cpu|
    ensures |Owed(s)| == |Waiters(s)| + |h|
  {
    assert Owed(s) == Waiters(s) + h && Waiters(s) !! h;
  }

  /**
  has_waiter is clear on return from cpu_exec_end and while a CPU is parked in exclusive_idle, and
  the assertion at the head of start_exclusive holds.
  */
  lemma OutsideIsClean(states: seq<State>, events: seq<Event>, i: nat, c: nat)
    requires IsRun(states, events) && i < |states| && c < |states[i].cpu|
    ensures
      var me := states[i].cpu[c];
      && (me.pc == Outside ==> !me.hasWaiter && !me.running && me.contextCount == 0)
      && (SleepsOnResume(me.pc) ==> !me.hasWaiter && !me.running)
      && (me.contextCount > 0 <==> me.pc == InExclusive)
  {
    var r := RunKeepsInv(states, events, i);
    assert CpuOk(states[i].cpu[c], states[i].pending, r != -1);
  }

  /**
  No lost wake-up: a thread asleep on exclusive_cond still has CPUs to wait for or the signal is about
  to be sent, and a thread asleep on exclusive_resume still has an exclusive section to wait for or the
  broadcast is about to be sent.
  */
  lemma NoLostWakeup(states: seq<State>, events: seq<Event>, i: nat, c: nat)
    requires IsRun(states, events) && i < |states| && c < |states[i].cpu|
    ensures
      var s := states[i];
      && (SleepsOnCond(s.cpu[c].pc) && s.pending <= 1 ==>
            s.pending == 1 && (HolderAt(s, Leaving(EeTestOne)) || HolderAt(s, Leaving(EeSignal))))
      && (SleepsOnResume(s.cpu[c].pc) && s.pending == 0 ==> HolderAt(s, Ending(XeBroadcast)))
  {
    var r := RunKeepsInv(states, events, i);
    var s := states[i];
    assert SleepsOnCond(s.cpu[c].pc) ==> IsRequester(s.cpu[c].pc);
  }

  /** A step that carries on with a call already made. */
  predicate Progress(ch: Choice) {
    ch.Advance? || ch.Look? || ch.Wake? || ch.EndExec? || ch.EndExclusive? || ch == SetRunning(false)
  }

  /**
  No deadlock: as long as some CPU is inside one of the four functions, executes or holds an exclusive
  section, some CPU can carry on, without a spurious wake-up and without another call.
  */
  lemma NoDeadlock(states: seq<State>, events: seq<Event>, i: nat, c: nat) returns (d: nat, ch: Choice)
    requires IsRun(states, events) && i < |states| && c < |states[i].cpu| && states[i].cpu[c].pc != Outside
    ensures d < |states[i].cpu| && Progress(ch) && Enabled(states[i], d, ch)
  {
    var r := RunKeepsInv(states, events, i);
    var s := states[i];
    if s.lock.Held? {
      d, ch := HolderCanMove(s, r);
    } else if !Asleep(s.cpu[c].pc) {
      d := c;
      ch := FreeMove(s, r, c);
    } else {
      // Everyone still waited for is awake.
      var q;
      q, d := SleeperWaitsFor(s, r, c);
      ch := FreeMove(s, r, d);
    }
  }

  predicate Asleep(pc: Pc) {
    SleepsOnResume(pc) || SleepsOnCond(pc)
  }

  lemma HolderCanMove(s: State, r: int) returns (d: nat, ch: Choice)
    requires Inv(s, r) && s.lock.Held?
    ensures d < |s.cpu| && Progress(ch) && Enabled(s, d, ch)
  {
    d := s.lock.holder;
    var pc := s.cpu[d].pc;
    assert HoldsLock(pc);
    ch := Advance;
    if pc == Leaving(EeSignal) {
      if w: nat :| w < |s.cpu| && SleepsOnCond(s.cpu[w].pc) {
        ch := Wake(w);
      } else {
        ch := Wake(d);
      }
    } else if pc.Starting? && pc.se.SeScan? && pc.se.todo != {} {
      var at :| at in pc.se.todo;
      ch := Look(at);
    }
  }

  /** With the mutex free, a CPU that is neither outside nor asleep can carry on. */
  lemma FreeMove(s: State, r: int, d: nat) returns (ch: Choice)
    requires Inv(s, r) && s.lock == Free
    requires d < |s.cpu| && s.cpu[d].pc != Outside && !Asleep(s.cpu[d].pc)
    ensures Progress(ch) && Enabled(s, d, ch)
  {
    var pc := s.cpu[d].pc;
    assert HoldsLock(pc) <==> s.lock == Held(d);
    ch := if pc == Executing then EndExec
          else if pc != InExclusive then Advance
          else if s.cpu[d].running then SetRunning(false) else EndExclusive;
  }

  /** CPU `c` sleeps until CPU `d` has done its part. */
  ghost predicate WaitsFor(s: State, c: nat, d: nat)
    requires c < |s.cpu| && d < |s.cpu|
  {
    && (SleepsOnCond(s.cpu[c].pc) ==> Owes(s.cpu[d]))             // d's decrement of pending_cpus is to come
    && (SleepsOnResume(s.cpu[c].pc) ==> IsRequester(s.cpu[d].pc)) // d's end_exclusive is to come
  }

  /**
  With the mutex free, a sleeper waits for a CPU that is awake and inside one of the functions or sections, or, in
  exclusive_idle, for a requester that in turn waits for such a CPU.  So no two CPUs wait for each other.
  */
  lemma SleeperWaitsFor(s: State, r: int, c: nat) returns (q: nat, d: nat)
    requires Inv(s, r) && s.lock == Free
    requires c < |s.cpu| && Asleep(s.cpu[c].pc)
    ensures q < |s.cpu| && d < |s.cpu| && c != d && q != c && WaitsFor(s, c, q)
    ensures q == d || (SleepsOnCond(s.cpu[q].pc) && WaitsFor(s, q, d))
    ensures s.cpu[d].pc != Outside && !Asleep(s.cpu[d].pc)
  {
    assert IsRequester(s.cpu[c].pc) <==> c == r;
    assert s.pending != 0;
    q, d := r, r;
    if Asleep(s.cpu[r].pc) {
      assert IsRequester(s.cpu[r].pc);
      assert s.pending > 1;
      assert Owed(s) != {};
      var o :| o in Owed(s);
      assert CpuOk(s.cpu[o], s.pending, true);
      d := o;
      if c == r { q := o; }
    }
  }
}
