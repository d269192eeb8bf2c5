/** Runs that show what the exact conditions are for. In each of them the gate is the production gate:
    it reports a port only when the worker has sent it. */
module ServiceRuns {
  import opened Optional
  import opened ServiceCore
  import opened ServiceWorker
  import opened ServiceProtocol
  import opened ServiceParts
  import opened ServiceCustody
  import opened ServiceOutcome
  import opened ServiceOrder
  import opened ServiceTheorems
  import opened ServiceStale
  import opened ServicePorts

  // ---------------------------------------------------------------- a worker that nobody keeps

  /** After the first call, which started generation 1: it is Starting, its record is `gen`, and
      its supervisor's list is `ops`. */
  predicate Stage(s: Sys, poisoned: bool, gen: Gen, ops: seq<Op>) {
    && s.poisoned == poisoned && s.excused == poisoned && s.accepted.Keys <= {0} && s.refused == map[] && s.queue == []
    && s.inner == Inner(Starting(Options(1, 0), [Completion(0, StartCall, 1)]), 1)
    && 1 in s.gens && s.gens[1] == gen && Todo(s, Supervisor(1)) == ops
  }

  lemma StageStart()
    ensures var e, s := CallStart(0, Options(1, 0)), Initial(true);
            Enabled(s, e) && Stage(Apply(s, e), false, NewGen(Options(1, 0), 0), [])
                && CallerAt(Apply(s, e), 0) == Spawning(1)
  {
  }

  lemma StageSpawn(s: Sys)
    requires Stage(s, false, NewGen(Options(1, 0), 0), []) && CallerAt(s, 0) == Spawning(1)
    ensures var e := SpawnSupervisor(0, SpawnOk);
            Enabled(s, e) && Stage(Apply(s, e), false, NewGen(Options(1, 0), 0).(sup := AtFactory), [])
  {
  }

  const Started := NewGen(Options(1, 0), 0).(worker := Some(Spawned), handle := InOwner)

  lemma StageFactory(s: Sys)
    requires Stage(s, false, NewGen(Options(1, 0), 0).(sup := AtFactory), [])
    ensures var e := RunFactory(1, None); Enabled(s, e) && Stage(Apply(s, e), false, Started.(sup := AtReaperSpawn), [])
  {
  }

  lemma StageReaper(s: Sys)
    requires Stage(s, false, Started.(sup := AtReaperSpawn), [])
    ensures var e := SpawnReaper(1, Some(Shutdown));
            Enabled(s, e) && Stage(Apply(s, e), false, Started.(sup := AtCreationFailure(Shutdown, true)), [Cancel(1)])
  {
  }

  lemma StageCancel(s: Sys)
    requires Stage(s, false, Started.(sup := AtCreationFailure(Shutdown, true)), [Cancel(1)])
    ensures var e := Perform(Supervisor(1));
            Enabled(s, e) && Stage(Apply(s, e), false,
                Started.(sup := AtCreationFailure(Shutdown, true), cancelled := true), [])
  {
  }

  lemma StagePoison(s: Sys, gen: Gen)
    requires Stage(s, false, gen, [])
    ensures Enabled(s, Poison) && Stage(Apply(s, Poison), true, gen, [])
  {
  }

  lemma StageFail(s: Sys)
    requires Stage(s, true, Started.(sup := AtCreationFailure(Shutdown, true), cancelled := true), [])
    ensures var e := FailCreation(1);
            && Enabled(s, e)
            && var s' := Apply(s, e);
            s'.inner.state == Failed(Shutdown, None) && 1 in s'.gens && s'.gens[1].handle == Lost
                && s'.gens[1].reaper.NoReaper?
  {
  }

  lemma ReachFactory() returns (s: Sys)
    ensures Produced(s) && Stage(s, false, NewGen(Options(1, 0), 0).(sup := AtFactory), [])
  {
    s := Initial(true);
    NothingProducedYet();
    hide Produced, Reachable, Stage, Enabled, Apply, Initial, CallerAt;
    StageStart();
    ProducedStep(s, CallStart(0, Options(1, 0)));
    s := Apply(s, CallStart(0, Options(1, 0)));
    StageSpawn(s);
    ProducedStep(s, SpawnSupervisor(0, SpawnOk));
    s := Apply(s, SpawnSupervisor(0, SpawnOk));
  }

  lemma ReachSpawned() returns (s: Sys)
    ensures Produced(s) && Stage(s, false, Started.(sup := AtReaperSpawn), [])
  {
    s := ReachFactory();
    hide Produced, Reachable, Stage, Enabled, Apply, Initial, CallerAt;
    StageFactory(s);
    ProducedStep(s, RunFactory(1, None));
    s := Apply(s, RunFactory(1, None));
  }

  lemma ReachUnrecorded() returns (s: Sys)
    ensures Produced(s) && Stage(s, false, Started.(sup := AtCreationFailure(Shutdown, true), cancelled := true), [])
  {
    s := ReachSpawned();
    hide Produced, Reachable, Stage, Enabled, Apply, Initial, CallerAt;
    StageReaper(s);
    ProducedStep(s, SpawnReaper(1, Some(Shutdown)));
    s := Apply(s, SpawnReaper(1, Some(Shutdown)));
    StageCancel(s);
    ProducedStep(s, Perform(Supervisor(1)));
    s := Apply(s, Perform(Supervisor(1)));
  }

  /** The exclusion in FailedKeepsWorkers is needed: when the reaper cannot be spawned and the
      mutex is poisoned before the supervisor records it, the quarantine is lost and a Failed
      controller is left with a worker that nobody keeps. */
  lemma PoisonLosesWorker() returns (s: Sys)
    ensures Produced(s) && s.inner.state.Failed? && 1 in s.gens && Unjoined(s.gens[1])
    ensures s.gens[1].reaper.NoReaper? && s.inner.state.quarantine == None
  {
    s := ReachUnrecorded();
    hide Produced, Reachable, Stage, Enabled, Apply, Initial, CallerAt;
    StagePoison(s, Started.(sup := AtCreationFailure(Shutdown, true), cancelled := true));
    ProducedStep(s, Poison);
    s := Apply(s, Poison);
    StageFail(s);
    ProducedStep(s, FailCreation(1));
    s := Apply(s, FailCreation(1));
  }

  // ---------------------------------------------------------------- an order that breaks

  /** Generation 1 is past mark_running, and its supervisor still holds the gathered start. */
  predicate JustRunning(s: Sys) {
    && !s.poisoned && s.accepted.Keys <= {0} && s.refused == map[]
    && s.inner.state == Running(Options(1, 0), 80) && StartAt(s, Supervisor(1), 0, 1)
  }

  lemma StageGate(s: Sys)
    requires Stage(s, false, Started.(sup := AtReaperSpawn), [])
    ensures var e := SpawnReaper(1, None);
            Enabled(s, e) && Stage(Apply(s, e), false, Started.(sup := AtGate, reaper := ReaperSpawned), [])
  {
  }

  /** The worker takes its next step. */
  lemma StageWork(s: Sys, gen: Gen, choice: Choice)
    requires Stage(s, false, gen, []) && gen.worker.Some? && CanStep(gen.worker.value, gen.cancelled, gen.ch, choice)
    ensures var (w, ch) := WorkerStep(gen.worker.value, gen.cancelled, gen.ch, choice);
            && Enabled(s, Work(1, choice))
            && Stage(Apply(s, Work(1, choice)), false, gen.(worker := Some(w), ch := ch), [])
  {
    hide WorkerStep, CanStep;
  }

  const Listening := Started.(reaper := ReaperSpawned)

  const Ready80 :=
    Listening.(worker := Some(Worker(Serving, 1, 80, 0, false)), ch := Channel(Some(ReadyPort(80)), true))

  lemma WorkOn(s: Sys, gen: Gen, choice: Choice) returns (t: Sys)
    requires Produced(s) && Stage(s, false, gen, []) && gen.worker.Some?
    requires CanStep(gen.worker.value, gen.cancelled, gen.ch, choice)
    ensures var (w, ch) := WorkerStep(gen.worker.value, gen.cancelled, gen.ch, choice);
            Produced(t) && Stage(t, false, gen.(worker := Some(w), ch := ch), [])
  {
    hide Produced, Stage, Enabled, Apply, WorkerStep, CanStep;
    StageWork(s, gen, choice);
    ProducedStep(s, Work(1, choice));
    t := Apply(s, Work(1, choice));
  }

  /** The worker binds port 80, sends it and serves. */
  lemma ReachReady() returns (s: Sys)
    ensures Produced(s) && Stage(s, false, Ready80.(sup := AtGate), [])
  {
    s := ReachSpawned();
    hide Produced, Reachable, Stage, Enabled, Apply;
    StageGate(s);
    ProducedStep(s, SpawnReaper(1, None));
    s := Apply(s, SpawnReaper(1, None));
    var gen := Listening.(sup := AtGate);
    s := WorkOn(s, gen, Succeed);
    s := WorkOn(s, gen.(worker := Some(Spawned.(pc := Preparing))), Succeed);
    s := WorkOn(s, gen.(worker := Some(Spawned.(pc := Bootstrapping))), Succeed);
    s := WorkOn(s, gen.(worker := Some(Spawned.(pc := Binding))), BindTo(80));
    s := WorkOn(s, gen.(worker := Some(Worker(Bound(80), 1, 80, 0, false))), Succeed);
    s := WorkOn(s, gen.(worker := Some(Worker(Sending(ReadyPort(80), ThenServe), 1, 80, 0, false))), Succeed);
  }

  lemma StageReady(s: Sys)
    requires Stage(s, false, Ready80.(sup := AtGate), [])
    ensures var e := PassGate(1, Ready(80));
            && Enabled(s, e) && Honest(s, e)
            && Stage(Apply(s, e), false, Ready80.(sup := AtDecision(Ready(80)), ch := ClosedChannel), [])
  {
  }

  lemma StageRunning(s: Sys)
    requires Stage(s, false, Ready80.(sup := AtDecision(Ready(80)), ch := ClosedChannel), [])
    requires StateOk(s.inner.state, s.decided)
    ensures Enabled(s, Decide(1)) && JustRunning(Apply(s, Decide(1)))
  {
    var e := Decide(1);
    TodoAfter(s, e, Supervisor(1));
    hide NextGens;
    assert Todo(Apply(s, e), Supervisor(1)) == DrainOps(OutOf(s, e).drain);
  }

  lemma ReachRunning() returns (s: Sys)
    ensures Produced(s) && JustRunning(s)
  {
    s := ReachReady();
    hide Produced, Reachable, Stage, Enabled, Apply, JustRunning;
    StageReady(s);
    ProducedStep(s, PassGate(1, Ready(80)));
    s := Apply(s, PassGate(1, Ready(80)));
    assert StateOk(s.inner.state, s.decided) by { ProducedReachable(s); ReachableInv(s); }
    hide StateOk;
    StageRunning(s);
    ProducedStep(s, Decide(1));
    s := Apply(s, Decide(1));
  }

  /** A stop of generation 1 is held in the state, with the start still in its supervisor's hand. */
  predicate StopHeldBack(s: Sys, poisoned: bool) {
    && s.poisoned == poisoned && FreshCall(s, 2)
    && s.inner.state == Stopping(1, true, [], [Completion(1, StopCall, 1)], Cancelled)
         && StartAt(s, Supervisor(1), 0, 1)
  }

  lemma StageStop(s: Sys)
    requires JustRunning(s)
    ensures Enabled(s, CallStop(1, 1)) && StopHeldBack(Apply(s, CallStop(1, 1)), false)
  {
    TodoAfter(s, CallStop(1, 1), Supervisor(1));
  }

  lemma StageStopPoison(s: Sys)
    requires StopHeldBack(s, false)
    ensures Enabled(s, Poison) && StopHeldBack(Apply(s, Poison), true)
  {
    TodoAfter(s, Poison, Supervisor(1));
  }

  lemma StageOvertake(s: Sys)
    requires StopHeldBack(s, true)
    ensures Enabled(s, CallStop(2, 1)) && Overtakes(s, CallStop(2, 1), 1)
  {
  }

  /** The order of generation 1 breaks: it is marked running, its stop is accepted, the mutex is
      poisoned, and a second stop call recovers it and queues the held stop while the supervisor
      has not yet queued the start. */
  lemma PoisonReordersDelivery() returns (s: Sys)
    ensures Produced(s) && OutOfOrder(s, 1)
  {
    s := ReachRunning();
    hide Produced, Reachable, Enabled, Apply, JustRunning, StopHeldBack, OutOfOrder, Overtakes;
    StageStop(s);
    ProducedStep(s, CallStop(1, 1));
    s := Apply(s, CallStop(1, 1));
    StageStopPoison(s);
    ProducedStep(s, Poison);
    s := Apply(s, Poison);
    StageOvertake(s);
    ProducedReachable(s);
    var run := OvertakenReorders(s, CallStop(2, 1), 1);
    ProducedStep(s, CallStop(2, 1));
    s := Apply(s, CallStop(2, 1));
    ProducedRun(s, run);
    s := Exec(s, run);
  }

  // ---------------------------------------------------------------- a run in which it happens

  const LateStart := Item(Completion(0, StartCall, 1), FailedEvent(1, Bootstrap), true)
  const EarlyStop := Item(Completion(1, StopCall, 1), StoppedEvent(1), false)

  /** Generation 1 is over, its supervisor has its failed start in hand, and the caller of a stop the
      answer `mine`. */
  predicate Window(s: Sys, calls: set<nat>, mine: seq<Op>, queue: seq<Item>) {
    && !s.poisoned && !s.excused && s.accepted.Keys <= calls && s.refused == map[]
    && s.inner == Inner(Stopped, 1) && s.queue == queue
    && Todo(s, Supervisor(1)) == [Queue(LateStart)] && Todo(s, Caller(1)) == mine
  }

  lemma StageNoWorker(s: Sys)
    requires Stage(s, false, NewGen(Options(1, 0), 0).(sup := AtFactory), [])
    ensures var e := RunFactory(1, Some(Bootstrap));
            && Enabled(s, e)
            && Stage(Apply(s, e), false, NewGen(Options(1, 0), 0).(sup := AtCreationFailure(Bootstrap, false)), [])
  {
  }

  lemma StageOver(s: Sys)
    requires Stage(s, false, NewGen(Options(1, 0), 0).(sup := AtCreationFailure(Bootstrap, false)), [])
    requires KeysOk(s)
    ensures var e := FailCreation(1); Enabled(s, e) && Window(Apply(s, e), {0}, [], [])
  {
    var e := FailCreation(1);
    TodoAfter(s, e, Supervisor(1));
    TodoAfter(s, e, Caller(1));
    hide NextGens;
  }

  lemma StageStale(s: Sys)
    requires Window(s, {0}, [], [])
    ensures Passes(s, CallStop(1, 1), 1) && Enabled(s, CallStop(1, 1))
    ensures Window(Apply(s, CallStop(1, 1)), {0, 1}, [Queue(EarlyStop)], [])
  {
    var e := CallStop(1, 1);
    TodoAfter(s, e, Supervisor(1));
    TodoAfter(s, e, Caller(1));
    assert StartAt(s, Supervisor(1), 0, 1);
  }

  lemma StageEarly(s: Sys)
    requires Window(s, {0, 1}, [Queue(EarlyStop)], [])
    ensures Enabled(s, Perform(Caller(1))) && Window(Apply(s, Perform(Caller(1))), {0, 1}, [], [EarlyStop])
  {
    TodoAfter(s, Perform(Caller(1)), Supervisor(1));
    TodoAfter(s, Perform(Caller(1)), Caller(1));
    hide NextGens;
  }

  predicate NextStarted(s: Sys, queue: seq<Item>) {
    && !s.poisoned && !s.excused && s.inner.state == Starting(Options(2, 0), [Completion(2, StartCall, 2)])
    && s.queue == queue && (queue == [EarlyStop] ==> Todo(s, Supervisor(1)) == [Queue(LateStart)])
  }

  lemma StageNext(s: Sys)
    requires Window(s, {0, 1}, [], [EarlyStop])
    ensures var e := CallStart(2, Options(2, 0)); Enabled(s, e) && NextStarted(Apply(s, e), [EarlyStop])
  {
    TodoAfter(s, CallStart(2, Options(2, 0)), Supervisor(1));
    hide NextGens;
  }

  lemma StageLate(s: Sys)
    requires NextStarted(s, [EarlyStop])
    ensures var e := Perform(Supervisor(1)); Enabled(s, e) && NextStarted(Apply(s, e), [EarlyStop, LateStart])
  {
    hide NextGens;
  }

  /** A stale stop does get ahead, in a controller that is neither poisoned nor failed: the worker of
      generation 1 cannot be created, its supervisor unlocks, the stop is called and queued, and
      generation 2 is Starting before the first start hears of its failure. */
  lemma StaleStopHappens() returns (s: Sys)
    ensures Produced(s) && !s.excused && !s.poisoned && s.inner.state.Starting? && s.inner.state.options.generation == 2
    ensures s.queue == [Item(Completion(1, StopCall, 1), StoppedEvent(1), false),
                        Item(Completion(0, StartCall, 1), FailedEvent(1, Bootstrap), true)]
  {
    s := ReachFactory();
    hide Produced, Reachable, Stage, Enabled, Apply, Window, NextStarted;
    StageNoWorker(s);
    ProducedStep(s, RunFactory(1, Some(Bootstrap)));
    s := Apply(s, RunFactory(1, Some(Bootstrap)));
    assert KeysOk(s) by { ProducedReachable(s); ReachableInv(s); }
    StageOver(s);
    ProducedStep(s, FailCreation(1));
    s := Apply(s, FailCreation(1));
    StageStale(s);
    ProducedStep(s, CallStop(1, 1));
    s := Apply(s, CallStop(1, 1));
    StageEarly(s);
    ProducedStep(s, Perform(Caller(1)));
    s := Apply(s, Perform(Caller(1)));
    StageNext(s);
    ProducedStep(s, CallStart(2, Options(2, 0)));
    s := Apply(s, CallStart(2, Options(2, 0)));
    StageLate(s);
    ProducedStep(s, Perform(Supervisor(1)));
    s := Apply(s, Perform(Supervisor(1)));
    NextShows(s);
  }

  lemma NextShows(s: Sys)
    requires NextStarted(s, [EarlyStop, LateStart])
    ensures s.queue == [EarlyStop, LateStart] && s.inner.state == Starting(Options(2, 0), [Completion(2, StartCall, 2)])
    ensures !s.excused && !s.poisoned
  {
  }
}
