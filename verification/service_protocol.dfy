/** The service controller as a system of interleaved threads: callers, one supervisor,
    reaper and worker per generation, and recoverers of a poisoned mutex. Each critical
    section is one step; whatever a thread does after unlocking is a list of further steps. */
module ServiceProtocol {
  import opened Optional
  import opened ServiceCore
  import opened ServiceWorker

  /** What the startup gate reports (StartupOutcome), or that it panicked. */
  datatype Outcome = Ready(port: Port) | ReadyError(code: Code) | GateTimeout | WorkerGone | GatePanicked

  /** The supervisor's program counter. */
  datatype Sup =
    | NotRun                     // the starting caller has not spawned it yet
    | Dropped                    // its task was handed back or lost before it ran
    | AtFactory
    | AtReaperSpawn
    | AtGate
    | AtDecision(outcome: Outcome)
    | WaitingRunning
    | WaitingStopping(recovering: bool)
    | WaitingOnly                // stop_after_startup found the mutex poisoned
    | AtFinish(exit: Exit, recovering: bool, keepsOwner: bool)
    | AtCreationFailure(code: Code, terminal: bool)
    | AtTransition               // recovering from a panic
    | Leaving
    | Gone

  datatype Reaper = NoReaper | ReaperSpawned | Joining | Reporting(exit: Exit) | Waking(exit: Exit) | ReaperGone

  /** Where the worker's join handle is. */
  datatype Handle = NoHandle | InOwner | WithReaper | Joined | Lost

  datatype Gen = Gen(
    options: Options,
    starter: nat,
    sup: Sup,
    reaper: Reaper,
    worker: Option<Worker>,
    handle: Handle,
    lc: Lifecycle,
    cancelled: bool,
    ch: Channel)

  datatype CallerPc =
    | Returning
    | Spawning(generation: nat)
    | SpawnCancel(generation: nat, code: Code)
    | SpawnFail(generation: nat, code: Code)

  datatype Thread = Caller(call: nat) | Supervisor(generation: nat) | Recoverer(number: nat)

  /** `decided` records the event drawn for a generation's gathered starts; `excused` records
      that the mutex was poisoned or that a spawner ran its task before panicking. */
  datatype Sys = Sys(
    inner: Inner,
    poisoned: bool,
    gens: map<nat, Gen>,
    callers: map<nat, CallerPc>,
    todo: map<Thread, seq<Op>>,
    queue: seq<Item>,
    accepted: map<nat, Completion>,
    refused: map<nat, Code>,
    recoveries: nat,
    decided: map<nat, Event>,
    excused: bool)

  datatype SpawnOutcome = SpawnOk | SpawnFailed(code: Code) | SpawnPanicked(ran: bool)

  datatype Step =
    | CallStart(call: nat, options: Options)
    | CallStop(call: nat, generation: nat)
    | Perform(thread: Thread)
    | SpawnSupervisor(call: nat, outcome: SpawnOutcome)
    | CancelCurrent(call: nat)
    | FailSpawn(call: nat)
    | RunFactory(g: nat, failure: Option<Code>)
    | SpawnReaper(g: nat, failure: Option<Code>)
    | PassGate(g: nat, report: Outcome)
    | Decide(g: nat)
    | LeaveRunning(g: nat)
    | LeaveStopping(g: nat)
    | Finish(g: nat)
    | FailCreation(g: nat)
    | Leave(g: nat)
    | SupervisorPanics(g: nat)
    | Transition(g: nat)
    | TakeHandle(g: nat)
    | JoinWorker(g: nat)
    | ReportExit(g: nat)
    | WakeGate(g: nat)
    | Work(g: nat, choice: Choice)
    | Poison

  function Todo(s: Sys, t: Thread): seq<Op> {
    if t in s.todo then s.todo[t] else []
  }

  function CallerAt(s: Sys, call: nat): CallerPc {
    if call in s.callers then s.callers[call] else Returning
  }

  predicate FreshCall(s: Sys, call: nat) {
    call !in s.accepted && call !in s.refused
  }

  predicate SupIdle(s: Sys, g: nat) {
    g in s.gens && Todo(s, Supervisor(g)) == []
  }

  predicate NoQueueing(ops: seq<Op>) {
    forall i :: 0 <= i < |ops| ==> !ops[i].Queue?
  }

  /** Program points at which a panic of the supervisor reaches its recovery. */
  predicate MayPanic(sup: Sup) {
    match sup
    case AtFactory => true
    case AtReaperSpawn => true
    case AtGate => true
    case AtDecision(_) => true
    case WaitingRunning => true
    case WaitingStopping(recovering) => !recovering
    case WaitingOnly => true
    case AtFinish(_, recovering, _) => !recovering
    case AtCreationFailure(_, _) => true
    case _ => false
  }

  predicate Enabled(s: Sys, e: Step) {
    match e
    case CallStart(call, o) => FreshCall(s, call) && o.generation <= MAX_GENERATION
    case CallStop(call, g) => FreshCall(s, call) && g <= MAX_GENERATION
    case Perform(t) => Todo(s, t) != []
    case SpawnSupervisor(call, _) => CallerAt(s, call).Spawning? && CallerAt(s, call).generation in s.gens
    case CancelCurrent(call) => CallerAt(s, call).SpawnCancel? && Todo(s, Caller(call)) == []
    case FailSpawn(call) => CallerAt(s, call).SpawnFail? && Todo(s, Caller(call)) == []
    case RunFactory(g, _) => SupIdle(s, g) && s.gens[g].sup.AtFactory?
    case SpawnReaper(g, _) => SupIdle(s, g) && s.gens[g].sup.AtReaperSpawn?
    case PassGate(g, _) => SupIdle(s, g) && s.gens[g].sup.AtGate?
    case Decide(g) => SupIdle(s, g) && s.gens[g].sup.AtDecision?
    case LeaveRunning(g) =>
      SupIdle(s, g) && s.gens[g].sup.WaitingRunning? && !WaitRunningTurn(s.gens[g].lc).1.StillRunning?
    case LeaveStopping(g) =>
      SupIdle(s, g) && (s.gens[g].sup.WaitingStopping? || s.gens[g].sup.WaitingOnly?)
    case Finish(g) => SupIdle(s, g) && s.gens[g].sup.AtFinish?
    case FailCreation(g) => SupIdle(s, g) && s.gens[g].sup.AtCreationFailure?
    case Leave(g) => SupIdle(s, g) && s.gens[g].sup.Leaving?
    case SupervisorPanics(g) => g in s.gens && MayPanic(s.gens[g].sup) && NoQueueing(Todo(s, Supervisor(g)))
    case Transition(g) => SupIdle(s, g) && s.gens[g].sup.AtTransition?
    case TakeHandle(g) => g in s.gens && s.gens[g].reaper.ReaperSpawned?
    case JoinWorker(g) =>
      g in s.gens && s.gens[g].reaper.Joining? && s.gens[g].worker.Some? && s.gens[g].worker.value.pc.Exited?
    case ReportExit(g) => g in s.gens && s.gens[g].reaper.Reporting?
    case WakeGate(g) => g in s.gens && s.gens[g].reaper.Waking?
    case Work(g, choice) =>
      g in s.gens && s.gens[g].worker.Some?
          && CanStep(s.gens[g].worker.value, s.gens[g].cancelled, s.gens[g].ch, choice)
    case Poison => !s.poisoned
  }

  function StopOps(g: nat): seq<Op> {
    [Cancel(g), RequestStop(g)]
  }

  /** What an operation does to the record of the generation it names. */
  function OpGen(gen: Gen, op: Op): Gen {
    match op
    case Cancel(_) => gen.(cancelled := true)
    case RequestStop(_) => gen.(lc := gen.lc.(stopRequested := true))
    case Wake(_) => gen.(ch := TrySend(gen.ch, ReadyFault(Cancelled)))
    case Queue(_) => gen
  }

  function SpawnedSup(outcome: SpawnOutcome): Sup {
    if outcome.SpawnOk? || (outcome.SpawnPanicked? && outcome.ran) then AtFactory else Dropped
  }

  /** The gate reported a usable port. */
  predicate Usable(report: Outcome) {
    report.Ready? && report.port != 0
  }

  /** The reason stop_after_startup is given for each report that is not a usable port. */
  function StartupFault(report: Outcome): Code {
    match report
    case Ready(_) => Bind
    case ReadyError(code) => code
    case GateTimeout => Timeout
    case WorkerGone => Bootstrap
    case GatePanicked => Shutdown
  }

  /** Where the supervisor goes after mark_running or stop_after_startup. */
  function DecidedSup(s: Sys, o: Options, report: Outcome): Sup {
    if Usable(report) then
      if !s.poisoned && MarkRunningSection(s.inner.state, o, report.port).1.Some? then WaitingRunning
      else WaitingStopping(false)
    else if s.poisoned then WaitingOnly
    else WaitingStopping(false)
  }

  /** A handle nobody keeps any more is lost: its thread runs on, detached. */
  function Kept(gen: Gen, st: State): Handle {
    if gen.handle == InOwner && gen.reaper.NoReaper? && !(st.Failed? && st.quarantine == Some(gen.options.generation))
    then Lost else gen.handle
  }

  /** The critical section of finish_worker or finish_creation_failure, as the supervisor runs it. */
  function EndSection(s: Sys, gen: Gen): (State, Drain)
    requires gen.sup.AtFinish? || gen.sup.AtCreationFailure?
  {
    var g := gen.options.generation;
    if gen.sup.AtFinish? then
      FinishSection(s.inner.state, g, gen.sup.exit, if gen.sup.keepsOwner then Some(g) else None)
    else
      CreationFailureSection(s.inner.state, g, gen.sup.code, gen.sup.terminal,
                             if gen.sup.terminal then Some(g) else None)
  }

  function EndState(s: Sys, gen: Gen): State
    requires gen.sup.AtFinish? || gen.sup.AtCreationFailure?
  {
    if s.poisoned then RecoverSection(s.inner).0 else EndSection(s, gen).0
  }

  function NewGen(o: Options, call: nat): Gen {
    Gen(o, call, NotRun, NoReaper, None, NoHandle, Lifecycle(false, None), false, Channel(None, true))
  }

  /** The steps of a supervisor, a reaper or a worker, which change one generation's record. */
  predicate IsGenStep(e: Step) {
    match e
    case CallStart(_, _) => false
    case CallStop(_, _) => false
    case Perform(_) => false
    case SpawnSupervisor(_, _) => false
    case CancelCurrent(_) => false
    case FailSpawn(_) => false
    case Poison => false
    case _ => true
  }

  function NextGen(s: Sys, e: Step): Gen
    requires IsGenStep(e) && Enabled(s, e)
  {
    var gen := s.gens[e.g];
    match e
    case RunFactory(_, failure) =>
      if failure.Some? then gen.(sup := AtCreationFailure(failure.value, false))
      else gen.(sup := AtReaperSpawn, worker := Some(Spawned), handle := InOwner)
    case SpawnReaper(_, failure) =>
      if failure.Some? then gen.(sup := AtCreationFailure(failure.value, true))
      else gen.(sup := AtGate, reaper := ReaperSpawned)
    case PassGate(_, report) => gen.(sup := AtDecision(report), ch := ClosedChannel)
    case Decide(_) => gen.(sup := DecidedSup(s, gen.options, gen.sup.outcome))
    case LeaveRunning(_) =>
      var (lc, outcome) := WaitRunningTurn(gen.lc);
      gen.(sup := if outcome.WorkerEnded? then AtFinish(outcome.exit, false, false) else WaitingStopping(false),
           lc := lc)
    case LeaveStopping(_) =>
      // the wait ends with the worker's result, or by its deadline while there is none
      var (lc, exit) := WaitStoppingTurn(gen.lc, true);
      gen.(sup := if gen.sup.WaitingOnly? then Leaving
                  else AtFinish(exit.value, gen.sup.recovering, gen.sup.recovering && gen.handle == InOwner),
           lc := lc)
    case Finish(_) => gen.(sup := Leaving, handle := Kept(gen, EndState(s, gen)))
    case FailCreation(_) => gen.(sup := Leaving, handle := Kept(gen, EndState(s, gen)))
    case Leave(_) => gen.(sup := Gone, ch := ClosedChannel)
    case SupervisorPanics(_) => gen.(sup := AtTransition, ch := ClosedChannel)
    case Transition(_) => gen.(sup := WaitingStopping(true))
    case TakeHandle(_) =>
      if gen.handle == InOwner then gen.(handle := WithReaper, reaper := Joining)
      else gen.(reaper := Reporting(Fault(Shutdown)))
    case JoinWorker(_) => gen.(handle := Joined, reaper := Reporting(gen.worker.value.pc.exit))
    case ReportExit(_) => gen.(lc := gen.lc.(result := Some(gen.reaper.exit)), reaper := Waking(gen.reaper.exit))
    case WakeGate(_) =>
      var code := if gen.reaper.exit.Clean? then Bootstrap else gen.reaper.exit.code;
      gen.(reaper := ReaperGone, ch := TrySend(gen.ch, ReadyFault(code)))
    case Work(_, choice) =>
      var (w, ch) := WorkerStep(gen.worker.value, gen.cancelled, gen.ch, choice);
      gen.(worker := Some(w), ch := ch)
  }

  // ---------------------------------------------------------------- what a step does to the shared state

  /** The outcome of one step for the shared state: the new inner state, the acting thread's
      new list (None keeps it), the list of a recoverer if a poisoned mutex was recovered, and
      the completions drained. */
  datatype Out = Out(inner: Inner, own: Option<seq<Op>>, recovery: Option<seq<Op>>, drain: Drain)

  function Unlocked(s: Sys, own: Option<seq<Op>>): Out {
    Out(s.inner, own, None, NothingDrained)
  }

  /** lock_inner on a poisoned mutex: the state fails and a recoverer drains it. */
  function RecoveredOut(s: Sys, own: Option<seq<Op>>): Out {
    var (st, ops, d) := RecoverSection(s.inner);
    Out(s.inner.(state := st), own, Some(ops + DrainOps(d)), d)
  }

  function DrainedOut(s: Sys, st: State, d: Drain): Out {
    Out(s.inner.(state := st), Some(DrainOps(d)), None, d)
  }

  function StartCompletion(call: nat, o: Options): Completion {
    Completion(call, StartCall, o.generation)
  }

  function StartOut(s: Sys, call: nat, o: Options): Out {
    if s.poisoned then RecoveredOut(s, None)
    else
      var (inner, verdict) := StartSection(s.inner, o, StartCompletion(call, o));
      Out(inner,
          if verdict.JoinRunning? then
            Some([Queue(Item(StartCompletion(call, o), RunningEvent(o.generation, verdict.port), false))])
          else None,
          None, NothingDrained)
  }

  function StopOut(s: Sys, call: nat, g: nat): Out {
    if s.poisoned then RecoveredOut(s, None)
    else
      var c := Completion(call, StopCall, g);
      var (inner, verdict) := StopSection(s.inner, g, c);
      Out(inner,
          match verdict
          case Stale => Some([Queue(Item(c, StoppedEvent(g), false))])
          case BeginStop(wake) => Some(StopOps(g) + if wake then [Wake(g)] else [])
          case _ => None,
          None, NothingDrained)
  }

  function CancelCurrentOut(s: Sys, g: nat): Out {
    if s.poisoned then RecoveredOut(s, None)
    else if s.inner.state.Starting? && s.inner.state.options.generation == g then
      Unlocked(s, Some(StopOps(g) + [Wake(g)]))
    else Unlocked(s, None)
  }

  function FailSpawnOut(s: Sys, g: nat, code: Code): Out {
    if s.poisoned then RecoveredOut(s, None)
    else
      var (st, d) := CreationFailureSection(s.inner.state, g, code, true, None);
      DrainedOut(s, st, d)
  }

  function DecideOut(s: Sys, o: Options, report: Outcome): Out {
    var g := o.generation;
    if s.poisoned then RecoveredOut(s, Some(StopOps(g)))
    else if Usable(report) then
      match MarkRunningSection(s.inner.state, o, report.port)
      case (st, Some(starts)) => DrainedOut(s, st, Drain(starts, RunningEvent(g, report.port), [], StoppedEvent(g)))
      case (_, None) => Unlocked(s, Some(StopOps(g)))
    else
      Unlocked(s, Some(StopOps(g))).(
        inner := s.inner.(state := StopAfterStartupSection(s.inner.state, g, StartupFault(report))))
  }

  /** finish_worker and finish_creation_failure. */
  function EndOut(s: Sys, gen: Gen): Out
    requires gen.sup.AtFinish? || gen.sup.AtCreationFailure?
  {
    if s.poisoned then RecoveredOut(s, None)
    else
      var (st, d) := EndSection(s, gen);
      DrainedOut(s, st, d)
  }

  function TransitionOut(s: Sys, g: nat): Out {
    if s.poisoned then RecoveredOut(s, None)
    else Unlocked(s, None).(inner := s.inner.(state := TransitionSection(s.inner.state, g, Shutdown)))
  }

  function OutOf(s: Sys, e: Step): Out
    requires Enabled(s, e)
  {
    match e
    case CallStart(call, o) => StartOut(s, call, o)
    case CallStop(call, g) => StopOut(s, call, g)
    case Perform(t) => Unlocked(s, Some(Todo(s, t)[1..]))
    case CancelCurrent(call) => CancelCurrentOut(s, CallerAt(s, call).generation)
    case FailSpawn(call) => FailSpawnOut(s, CallerAt(s, call).generation, CallerAt(s, call).code)
    case SpawnReaper(g, failure) => Unlocked(s, if failure.Some? then Some([Cancel(g)]) else None)
    case Decide(g) => DecideOut(s, s.gens[g].options, s.gens[g].sup.outcome)
    case Finish(g) => EndOut(s, s.gens[g])
    case FailCreation(g) => EndOut(s, s.gens[g])
    case SupervisorPanics(g) => Unlocked(s, Some(StopOps(g)))
    case Transition(g) => TransitionOut(s, g)
    case _ => Unlocked(s, None)
  }

  /** The thread that takes the step, for the steps that give a thread a new list. */
  function Actor(e: Step): Thread {
    match e
    case CallStart(call, _) => Caller(call)
    case CallStop(call, _) => Caller(call)
    case Perform(t) => t
    case SpawnSupervisor(call, _) => Caller(call)
    case CancelCurrent(call) => Caller(call)
    case FailSpawn(call) => Caller(call)
    case Poison => Recoverer(0)
    case _ => Supervisor(e.g)
  }

  /** The completion a call hands in, if it is accepted. */
  function AcceptedBy(s: Sys, e: Step): Option<Completion> {
    match e
    case CallStart(call, o) =>
      if s.poisoned || StartSection(s.inner, o, StartCompletion(call, o)).1.Refused? then None
      else Some(StartCompletion(call, o))
    case CallStop(call, g) =>
      if s.poisoned || StopSection(s.inner, g, Completion(call, StopCall, g)).1.StopRefused? then None
      else Some(Completion(call, StopCall, g))
    case _ => None
  }

  // ---------------------------------------------------------------- the new value of each part

  /** The call starts a new generation. */
  predicate StartsAfresh(s: Sys, e: Step) {
    e.CallStart? && !s.poisoned && StartSection(s.inner, e.options, StartCompletion(e.call, e.options)).1.Fresh?
  }

  function NextGens(s: Sys, e: Step): map<nat, Gen>
    requires Enabled(s, e)
  {
    match e
    case CallStart(call, o) => if StartsAfresh(s, e) then s.gens[o.generation := NewGen(o, call)] else s.gens
    case Perform(t) =>
      var op := Todo(s, t)[0];
      if !op.Queue? && op.generation in s.gens then s.gens[op.generation := OpGen(s.gens[op.generation], op)]
      else s.gens
    case SpawnSupervisor(call, outcome) =>
      var g := CallerAt(s, call).generation;
      s.gens[g := s.gens[g].(sup := SpawnedSup(outcome))]
    case CallStop(_, _) => s.gens
    case CancelCurrent(_) => s.gens
    case FailSpawn(_) => s.gens
    case Poison => s.gens
    case _ => s.gens[e.g := NextGen(s, e)]
  }

  function NextCallers(s: Sys, e: Step): map<nat, CallerPc>
    requires Enabled(s, e)
  {
    match e
    case CallStart(call, o) => if StartsAfresh(s, e) then s.callers[call := Spawning(o.generation)] else s.callers
    case SpawnSupervisor(call, outcome) =>
      var code := if outcome.SpawnFailed? then outcome.code else Shutdown;
      s.callers[call := if outcome.SpawnOk? then Returning else SpawnCancel(CallerAt(s, call).generation, code)]
    case CancelCurrent(call) => s.callers[call := SpawnFail(CallerAt(s, call).generation, CallerAt(s, call).code)]
    case FailSpawn(call) => s.callers[call := Returning]
    case _ => s.callers
  }

  function PutOps(todo: map<Thread, seq<Op>>, t: Thread, ops: Option<seq<Op>>): map<Thread, seq<Op>> {
    if ops.Some? then todo[t := ops.value] else todo
  }

  function NextTodo(s: Sys, e: Step): map<Thread, seq<Op>>
    requires Enabled(s, e)
  {
    PutOps(PutOps(s.todo, Actor(e), OutOf(s, e).own), Recoverer(s.recoveries), OutOf(s, e).recovery)
  }

  function NextQueue(s: Sys, e: Step): seq<Item>
    requires Enabled(s, e)
  {
    if e.Perform? && Todo(s, e.thread)[0].Queue? then s.queue + [Todo(s, e.thread)[0].item] else s.queue
  }

  function NextAccepted(s: Sys, e: Step): map<nat, Completion> {
    var c := AcceptedBy(s, e);
    if c.Some? then s.accepted[c.value.call := c.value] else s.accepted
  }

  /** The code a call is refused with, if it is refused. */
  function RefusedBy(s: Sys, e: Step): Option<Code> {
    match e
    case CallStart(call, o) =>
      if s.poisoned then Some(Shutdown)
      else
        var verdict := StartSection(s.inner, o, StartCompletion(call, o)).1;
        if verdict.Refused? then Some(verdict.code) else None
    case CallStop(call, g) =>
      if s.poisoned then Some(Shutdown)
      else
        var verdict := StopSection(s.inner, g, Completion(call, StopCall, g)).1;
        if verdict.StopRefused? then Some(verdict.code) else None
    case _ => None
  }

  function NextRefused(s: Sys, e: Step): map<nat, Code> {
    var code := RefusedBy(s, e);
    if (e.CallStart? || e.CallStop?) && code.Some? then s.refused[e.call := code.value] else s.refused
  }

  /** The event of the gathered starts is fixed when a section takes them out of the state. */
  function NextDecided(s: Sys, e: Step): map<nat, Event>
    requires Enabled(s, e)
  {
    var d := OutOf(s, e).drain;
    if d.starts == [] then s.decided else s.decided[d.startEvent.generation := d.startEvent]
  }

  function NextExcused(s: Sys, e: Step): bool {
    s.excused || e.Poison? || (e.SpawnSupervisor? && e.outcome.SpawnPanicked? && e.outcome.ran)
  }

  function Apply(s: Sys, e: Step): Sys
    requires Enabled(s, e)
  {
    var out := OutOf(s, e);
    Sys(out.inner,
        e.Poison? || (s.poisoned && out.recovery.None?),
        NextGens(s, e),
        NextCallers(s, e),
        NextTodo(s, e),
        NextQueue(s, e),
        NextAccepted(s, e),
        NextRefused(s, e),
        s.recoveries + if out.recovery.Some? then 1 else 0,
        NextDecided(s, e),
        NextExcused(s, e))
  }

  /** A new controller; without a completion dispatcher it is failed from the start. */
  function Initial(dispatching: bool): Sys {
    Sys(Inner(if dispatching then Stopped else Failed(Shutdown, None), 0),
        false, map[], map[], map[], [], map[], map[], 0, map[], false)
  }

  predicate Feasible(s: Sys, run: seq<Step>)
    decreases |run|
  {
    run == [] || (Enabled(s, run[0]) && Feasible(Apply(s, run[0]), run[1..]))
  }

  /** The state after a run of steps. */
  function Exec(s: Sys, run: seq<Step>): Sys
    requires Feasible(s, run)
    decreases |run|
  {
    if run == [] then s else Exec(Apply(s, run[0]), run[1..])
  }

  lemma {:induction false} ExecConcat(s: Sys, a: seq<Step>, b: seq<Step>)
    requires Feasible(s, a) && Feasible(Exec(s, a), b)
    ensures Feasible(s, a + b) && Exec(s, a + b) == Exec(Exec(s, a), b)
    decreases |a|
  {
    hide Apply, Enabled;
    if a == [] {
      assert a + b == b;
    } else {
      assert (a + b)[1..] == a[1..] + b;
      ExecConcat(Apply(s, a[0]), a[1..], b);
    }
  }

  /** A step that another run can be put before. */
  lemma Unroll(s: Sys, e: Step, rest: seq<Step>)
    requires Enabled(s, e) && Feasible(Apply(s, e), rest)
    ensures Feasible(s, [e] + rest) && Exec(s, [e] + rest) == Exec(Apply(s, e), rest)
  {
    assert ([e] + rest)[1..] == rest;
  }
}
