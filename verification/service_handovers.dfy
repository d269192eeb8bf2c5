/** What the threads of one generation hand to each other: the worker's exit to the reaper, the
    monitor, the gate and the supervisor, a failed spawn to the supervisor that gives up, and a
    panic of the supervisor to its recovery. */
module ServiceHandovers {
  import opened Optional
  import opened ServiceCore
  import opened ServiceWorker
  import opened ServiceProtocol
  import opened ServiceParts
  import opened ServicePlace
  import opened ServiceCustody
  import opened ServiceOutcome
  import opened ServiceSignals
  import opened ServiceOrder
  import opened ServiceProgress
  import opened ServiceTheorems

  // ---------------------------------------------------------------- the worker's own end

  predicate EndedWith(gen: Gen, exit: Exit) {
    gen.worker.Some? && gen.worker.value.pc == Exited(exit)
  }

  /** The worker has reported this fault to the gate and ends with it, unless it panics first. */
  predicate Reported(gen: Gen, code: Code) {
    gen.worker.Some?
    && (gen.worker.value.pc == Exited(Fault(code)) || gen.worker.value.pc == ShuttingDown(ByInvalidPort(code))
        || gen.worker.value.panicked)
  }

  /** What the gate is told of a worker that has ended. */
  function Obituary(exit: Exit): Code {
    if exit.Clean? then Bootstrap else exit.code
  }

  predicate Wakened(gen: Gen, code: Code) {
    gen.worker.Some? && gen.worker.value.pc.Exited? && code == Obituary(gen.worker.value.pc.exit)
  }

  /** Nobody is told of another end of the worker than its own. */
  predicate TruthTold(gen: Gen) {
    && (gen.reaper.Reporting? || gen.reaper.Waking? ==> EndedWith(gen, gen.reaper.exit))
    && (gen.lc.result.Some? ==> EndedWith(gen, gen.lc.result.value))
    && (gen.sup.AtFinish? && gen.sup.exit != Fault(Shutdown) ==> EndedWith(gen, gen.sup.exit))
    && (gen.ch.buffer.Some? && gen.ch.buffer.value.ReadyFault? ==>
         var code := gen.ch.buffer.value.code; code == Cancelled || Reported(gen, code) || Wakened(gen, code))
  }

  /** A worker reports a fault in the step before it exits or shuts its service down. */
  predicate Speaks(w: Worker) {
    w.pc.Sending? && w.pc.message.ReadyFault? ==>
      w.pc.after == ThenExit(w.pc.message.code) || w.pc.after == ThenShutdown(w.pc.message.code)
  }

  lemma WorkTells(gen: Gen, choice: Choice)
    requires TruthTold(gen) && gen.worker.Some? && Speaks(gen.worker.value)
    requires GenPartsOk(gen) && CanStep(gen.worker.value, gen.cancelled, gen.ch, choice)
    ensures var (w, ch) := WorkerStep(gen.worker.value, gen.cancelled, gen.ch, choice);
            TruthTold(gen.(worker := Some(w), ch := ch)) && Speaks(w)
  {
  }

  predicate GenTells(gen: Gen) {
    TruthTold(gen) && (gen.worker.Some? ==> Speaks(gen.worker.value))
  }

  lemma NextGenTells(s: Sys, e: Step)
    requires IsGenStep(e) && Enabled(s, e) && GenPartsOk(s.gens[e.g]) && GenTells(s.gens[e.g])
    ensures GenTells(NextGen(s, e))
  {
    if e.Work? { WorkTells(s.gens[e.g], e.choice); }
    hide EndState, WorkerStep, CanStep, DecidedSup;
  }

  lemma OpTells(gen: Gen, op: Op)
    requires GenTells(gen)
    ensures GenTells(OpGen(gen, op))
  {
  }

  lemma SpawnTells(gen: Gen, outcome: SpawnOutcome)
    requires GenTells(gen) && gen.sup.NotRun?
    ensures GenTells(gen.(sup := SpawnedSup(outcome)))
  {
  }

  lemma BornTells(s: Sys, e: Step, g: nat)
    requires Enabled(s, e) && g !in s.gens && g in NextGens(s, e)
    ensures GenTells(NextGens(s, e)[g])
  {
    hide NextGen;
  }

  lemma GenKeepsTelling(s: Sys, e: Step, g: nat)
    requires PlaceInv(s) && Enabled(s, e) && g in s.gens && GenTells(s.gens[g])
    ensures g in NextGens(s, e) && GenTells(NextGens(s, e)[g])
  {
    hide PlacesOk, CallersOk, OwnerOk, NextGen, NextGens, OpGen, StartsAfresh, GenPartsOk, GenTells;
    if StartsAfresh(s, e) { FreshIsNew(s, e); }
    GenAt(s, e, g);
    if IsGenStep(e) && e.g == g { NextGenTells(s, e); }
    if e.Perform? { OpTells(s.gens[g], Todo(s, e.thread)[0]); }
    if e.SpawnSupervisor? && CallerAt(s, e.call).generation == g { SpawningIsNew(s, e);
        SpawnTells(s.gens[g], e.outcome); }
  }

  lemma SpawningIsNew(s: Sys, e: Step)
    requires PlaceInv(s) && Enabled(s, e) && e.SpawnSupervisor?
    ensures s.gens[CallerAt(s, e.call).generation].sup.NotRun?
  {
    hide PartsOk, PlacesOk, OwnerOk;
    assert e.call in s.callers && CallerOk(s.gens, s.excused, e.call, s.callers[e.call]);
  }

  lemma {:induction false} TellingRun(s: Sys, run: seq<Step>, g: nat)
    requires Inv(s) && Feasible(s, run) && (forall h :: h in s.gens ==> GenTells(s.gens[h])) && g in Exec(s, run).gens
    ensures GenTells(Exec(s, run).gens[g])
    decreases |run|
  {
    if run != [] {
      var t := Apply(s, run[0]);
      assert t.gens == NextGens(s, run[0]);
      hide PlaceInv, Enabled, Apply, NextGens, GenTells;
      forall h | h in t.gens ensures GenTells(t.gens[h]) {
        if h in s.gens { GenKeepsTelling(s, run[0], h); } else { BornTells(s, run[0], h); }
      }
      InvKept(s, run[0]);
      TellingRun(t, run[1..], g);
    }
  }

  /** Nobody hears of another end of the worker than its own: what the reaper carries, what the
      monitor stores and what the supervisor finishes with is the worker's exit, or the deadline;
      and a fault in the ready channel is a cancellation, the worker's own report, or its exit. */
  lemma TruthIsTold(s: Sys, g: nat)
    requires Reachable(s) && g in s.gens
    ensures TruthTold(s.gens[g])
  {
    var dispatching: bool, run: seq<Step> :| Feasible(Initial(dispatching), run)
        && s == Exec(Initial(dispatching), run);
    InitialInv(dispatching);
    assert Initial(dispatching).gens == map[];
    hide Inv, Exec, Feasible, TruthTold;
    TellingRun(Initial(dispatching), run, g);
  }

  /** The reaper puts the end of the worker into an empty slot that the gate still listens to. */
  lemma ReaperTellsGate(s: Sys, g: nat)
    requires Reachable(s) && Enabled(s, WakeGate(g))
    ensures g in Apply(s, WakeGate(g)).gens && s.gens[g].worker.Some? && s.gens[g].worker.value.pc.Exited?
    ensures var was, now := s.gens[g], Apply(s, WakeGate(g)).gens[g];
            && now.reaper.ReaperGone?
            && now.ch == (if was.ch.receiving && was.ch.buffer.None? then
                            Channel(Some(ReadyFault(Obituary(was.worker.value.pc.exit))), true)
                          else was.ch)
  {
    TruthIsTold(s, g);
    hide Reachable, OutOf;
  }

  // ---------------------------------------------------------------- spawning the three threads

  /** What becomes of an attempt to spawn the supervisor. If the spawner fails or panics the caller
      gives the generation up, with the spawner's error or Shutdown; the supervisor runs if it was
      spawned, even by a spawner that then panicked. */
  lemma SupervisorSpawned(s: Sys, call: nat, outcome: SpawnOutcome)
    requires Enabled(s, SpawnSupervisor(call, outcome))
    ensures var s', g := Apply(s, SpawnSupervisor(call, outcome)), CallerAt(s, call).generation;
            && s'.inner == s.inner && s'.todo == s.todo && g in s'.gens
            && (outcome.SpawnOk? ==> CallerAt(s', call).Returning? && s'.gens[g].sup.AtFactory?)
            && (outcome.SpawnFailed? ==>
                 CallerAt(s', call) == SpawnCancel(g, outcome.code) && s'.gens[g].sup.Dropped?)
            && (outcome.SpawnPanicked? ==>
                 && CallerAt(s', call) == SpawnCancel(g, Shutdown)
                 && (if outcome.ran then s'.gens[g].sup.AtFactory? else s'.gens[g].sup.Dropped?))
  {
  }

  /** A caller that gives up cancels a generation that is still Starting, asks its monitor to stop and
      wakes its gate; then it fails the generation with the same error. */
  lemma GivesUp(s: Sys, call: nat)
    requires Enabled(s, CancelCurrent(call)) && !s.poisoned
    ensures var s', g, st := Apply(s, CancelCurrent(call)), CallerAt(s, call).generation, s.inner.state;
            && s'.inner == s.inner && s'.gens == s.gens
            && CallerAt(s', call) == SpawnFail(g, CallerAt(s, call).code)
            && (st.Starting? && Owns(st, g) ==> Todo(s', Caller(call)) == [Cancel(g), RequestStop(g), Wake(g)])
            && (!(st.Starting? && Owns(st, g)) ==> Todo(s', Caller(call)) == [])
  {
    assert StopOps(CallerAt(s, call).generation) + [Wake(CallerAt(s, call).generation)]
        == [Cancel(CallerAt(s, call).generation), RequestStop(CallerAt(s, call).generation),
            Wake(CallerAt(s, call).generation)];
  }

  /** A worker that cannot be created leaves nothing behind; a reaper that cannot be spawned leaves a
      worker that is cancelled and a failure that is terminal. */
  lemma CreationAnswers(s: Sys, g: nat, failure: Option<Code>)
    ensures Enabled(s, RunFactory(g, failure)) ==>
              var s' := Apply(s, RunFactory(g, failure));
              && s'.inner == s.inner && g in s'.gens
              && (failure.Some? ==> s'.gens[g] == s.gens[g].(sup := AtCreationFailure(failure.value, false)))
              && (failure.None? ==>
                   && s'.gens[g].sup.AtReaperSpawn? && s'.gens[g].handle == InOwner
                   && s'.gens[g].worker.Some? && s'.gens[g].worker.value.pc.Building?)
    ensures Enabled(s, SpawnReaper(g, failure)) ==>
              var s' := Apply(s, SpawnReaper(g, failure));
              && s'.inner == s.inner && g in s'.gens
              && (failure.Some? ==>
                   && s'.gens[g] == s.gens[g].(sup := AtCreationFailure(failure.value, true))
                   && Todo(s', Supervisor(g)) == [Cancel(g)])
              && (failure.None? ==> s'.gens[g].sup.AtGate? && s'.gens[g].reaper.ReaperSpawned?)
  {
  }

  // ---------------------------------------------------------------- a panic of the supervisor

  /** The panic is caught: the worker is cancelled, the monitor asked to stop, the gate closed. */
  lemma PanicAnswers(s: Sys, g: nat)
    requires Enabled(s, SupervisorPanics(g))
    ensures var s' := Apply(s, SupervisorPanics(g));
            && s'.inner == s.inner && g in s'.gens && s'.gens[g].sup.AtTransition? && !s'.gens[g].ch.receiving
            && Todo(s', Supervisor(g)) == [Cancel(g), RequestStop(g)]
  {
  }

  /** Then a generation that was Starting or Running is Stopping for the reason Shutdown, with the
      starts it had gathered, and one that was being stopped stays so. */
  lemma TransitionAnswers(s: Sys, g: nat)
    requires Enabled(s, Transition(g)) && !s.poisoned
    ensures var s', st := Apply(s, Transition(g)), s.inner.state;
            && g in s'.gens && s'.gens[g].sup == WaitingStopping(true)
            && (Owns(st, g) && st.Starting? ==> s'.inner.state == Stopping(g, false, st.starts, [], Shutdown))
            && (Owns(st, g) && st.Running? ==> s'.inner.state == Stopping(g, true, [], [], Shutdown))
            && (!Owns(st, g) || st.Stopping? ==> s'.inner == s.inner)
  {
  }

  predicate Doomed(st: State, g: nat) {
    st.Stopping? && st.generation == g && st.reason == Shutdown
  }

  /** The generation is being stopped for a panic of its supervisor, whose recovery finishes it. */
  predicate Panicked(s: Sys, g: nat) {
    s.inner.state.Failed? || (Doomed(s.inner.state, g) && g in s.gens && Recovers(s.gens[g].sup))
  }

  /** Calls add to the lists that the state holds, and change neither its generation nor its reason. */
  lemma PanickedCall(s: Sys, e: Step, g: nat)
    requires Enabled(s, e) && Doomed(s.inner.state, g) && (e.CallStart? || e.CallStop? || e.CancelCurrent?)
    ensures var st := OutOf(s, e).inner.state; (st.Failed? || Doomed(st, g)) && !StartsAfresh(s, e)
  {
    hide DrainOps, StopOps;
  }

  /** Whoever ends the generation fails the controller. */
  lemma PanickedEnd(s: Sys, e: Step, g: nat)
    requires Enabled(s, e) && Doomed(s.inner.state, g) && (e.Finish? || e.FailCreation?)
    requires s.gens[e.g].options.generation == e.g
    ensures var st := OutOf(s, e).inner.state;
            st.Failed? || (Doomed(st, g) && e.g != g) || (e.FailCreation? && e.g == g)
  {
    hide DrainOps;
  }

  lemma PanickedSection(s: Sys, e: Step, g: nat)
    requires Enabled(s, e) && Doomed(s.inner.state, g) && !(e.CallStart? || e.CallStop? || e.CancelCurrent?)
    requires !(e.Finish? || e.FailCreation?)
    ensures var st := OutOf(s, e).inner.state; (st.Failed? || Doomed(st, g)) && !StartsAfresh(s, e)
  {
    hide DrainOps, StopOps;
  }

  predicate Recovers(sup: Sup) {
    sup == WaitingStopping(true) || (sup.AtFinish? && sup.recovering)
  }

  lemma PanickedState(s: Sys, e: Step, g: nat)
    requires PlaceInv(s) && Enabled(s, e) && Doomed(s.inner.state, g) && g in s.gens && Recovers(s.gens[g].sup)
    ensures var st := OutOf(s, e).inner.state;
            st.Failed? || (Doomed(st, g) && !(e.Finish? && e.g == g) && !StartsAfresh(s, e))
  {
    if e.CallStart? || e.CallStop? || e.CancelCurrent? {
      PanickedCall(s, e, g);
    } else if e.Finish? || e.FailCreation? {
      EndIsOwn(s, e);
      PanickedEnd(s, e, g);
    } else {
      PanickedSection(s, e, g);
    }
    hide PlaceInv, OutOf, Doomed, StartSection;
  }

  lemma EndIsOwn(s: Sys, e: Step)
    requires PlaceInv(s) && Enabled(s, e) && (e.Finish? || e.FailCreation?)
    ensures e.g in s.gens && s.gens[e.g].options.generation == e.g
    ensures e.FailCreation? ==> s.gens[e.g].sup.AtCreationFailure?
  {
    hide PartsOk, PlaceOk, CallersOk, OwnerOk;
  }

  lemma NextGenRecovers(s: Sys, e: Step)
    requires IsGenStep(e) && Enabled(s, e) && Recovers(s.gens[e.g].sup) && !e.Finish?
    ensures Recovers(NextGen(s, e).sup)
  {
    hide EndState, WorkerStep, CanStep, DecidedSup;
  }

  lemma PanickedSupervisor(s: Sys, e: Step, g: nat)
    requires PlaceInv(s) && Enabled(s, e) && g in s.gens && !StartsAfresh(s, e) && !(e.Finish? && e.g == g)
    requires Recovers(s.gens[g].sup)
    ensures g in NextGens(s, e) && Recovers(NextGens(s, e)[g].sup)
  {
    GenAt(s, e, g);
    if IsGenStep(e) && e.g == g { NextGenRecovers(s, e); }
    if e.SpawnSupervisor? { SpawningIsNew(s, e); }
    hide PlaceInv, NextGens, NextGen, StartsAfresh, Enabled;
  }

  lemma PanickedStays(s: Sys, e: Step, g: nat)
    requires PlaceInv(s) && Enabled(s, e) && Panicked(s, g)
    ensures Panicked(Apply(s, e), g)
  {
    assert Apply(s, e).inner == OutOf(s, e).inner && Apply(s, e).gens == NextGens(s, e);
    if s.inner.state.Failed? {
      FailedStep(s, e);
    } else {
      PanickedState(s, e, g);
      hide PlaceInv, Enabled, Apply, OutOf, StartsAfresh, NextGens, Doomed, Recovers;
      if !OutOf(s, e).inner.state.Failed? { PanickedSupervisor(s, e, g); }
    }
  }

  lemma {:induction false} PanickedRun(s: Sys, run: seq<Step>, g: nat)
    requires Inv(s) && Feasible(s, run) && Panicked(s, g)
    ensures Panicked(Exec(s, run), g)
    decreases |run|
  {
    if run != [] {
      PanickedStays(s, run[0], g);
      hide PlaceInv, Enabled, Apply, Panicked;
      InvKept(s, run[0]);
      PanickedRun(Apply(s, run[0]), run[1..], g);
    }
  }

  lemma PanicBegins(s: Sys, g: nat)
    requires Enabled(s, Transition(g)) && Owns(s.inner.state, g) && !s.inner.state.Stopping?
    ensures Panicked(Apply(s, Transition(g)), g)
  {
    if s.poisoned { PoisonFails(s, g); } else { TransitionAnswers(s, g); }
    hide Enabled, Apply;
  }

  /** A panic in a supervisor whose generation is Starting or Running is never survived: from then on
      the controller is Stopping that generation for the reason Shutdown, or has failed. */
  lemma PanicIsFinal(s: Sys, g: nat, run: seq<Step>)
    requires Reachable(s) && Enabled(s, Transition(g)) && Owns(s.inner.state, g) && !s.inner.state.Stopping?
    requires Feasible(Apply(s, Transition(g)), run)
    ensures var st := Exec(Apply(s, Transition(g)), run).inner.state;
            st.Failed? || (st.Stopping? && st.generation == g && st.reason == Shutdown)
  {
    PanicBegins(s, g);
    hide Enabled, Apply, PlaceInv, Feasible, Owns;
    ReachableInv(s);
    InvKept(s, Transition(g));
    hide Inv, Reachable, Recovers;
    PanickedRun(Apply(s, Transition(g)), run, g);
  }

  lemma PoisonFails(s: Sys, g: nat)
    requires Enabled(s, Transition(g)) && s.poisoned
    ensures Apply(s, Transition(g)).inner.state.Failed?
  {
  }

  // ---------------------------------------------------------------- a poisoned mutex

  /** The steps that lock the controller's mutex. */
  predicate Locks(e: Step) {
    e.CallStart? || e.CallStop? || e.CancelCurrent? || e.FailSpawn? || e.Decide? || e.Finish? || e.FailCreation?
    || e.Transition?
  }

  /** Whoever finds the mutex poisoned fails the controller, unless it has failed already, and does for
      the generation that had the state what a stop would have done: its worker is cancelled, its
      monitor asked to stop, the gate of a startup woken, and everybody who waits is told. */
  lemma RecoveryAnswers(s: Sys, e: Step)
    requires Enabled(s, e) && s.poisoned && Locks(e)
    ensures var s', st, list := Apply(s, e), s.inner.state, Todo(Apply(s, e), Recoverer(s.recoveries));
            && !s'.poisoned && s'.inner.lastGeneration == s.inner.lastGeneration
            && (st.Failed? ==> s'.inner == s.inner && list == [])
            && (!st.Failed? ==> s'.inner.state == Failed(Shutdown, None))
            && (st.Stopped? ==> list == [])
            && (st.Starting? ==>
                 var g := st.options.generation;
                 list == [Cancel(g), RequestStop(g), Wake(g)] + QueueOps(st.starts, FailedEvent(g, Shutdown)))
            && (st.Running? ==> list == [Cancel(st.options.generation), RequestStop(st.options.generation)])
            && (st.Stopping? ==>
                 var g := st.generation;
                 list == [Cancel(g), RequestStop(g)] + QueueOps(st.starts, FailedEvent(g, Shutdown))
                           + QueueOps(st.stops, FailedEvent(g, Shutdown)))
  {
    RecoveryOut(s, e);
    TodoAfter(s, e, Recoverer(s.recoveries));
    assert Apply(s, e).inner == OutOf(s, e).inner;
    RecoveryHands(s.inner);
    hide OutOf, NextGens, RecoverSection, DrainOps, QueueOps;
  }

  lemma RecoveryOut(s: Sys, e: Step)
    requires Enabled(s, e) && s.poisoned && Locks(e)
    ensures OutOf(s, e) == RecoveredOut(s, OutOf(s, e).own) && !Apply(s, e).poisoned
  {
    hide RecoverSection, DrainOps, NextGens;
  }

  lemma RecoveryHands(inner: Inner)
    ensures var st, (st', ops, d) := inner.state, RecoverSection(inner);
            var list := ops + DrainOps(d);
            && (st.Failed? || st.Stopped? ==> list == []) && (st.Failed? ==> st' == st)
            && (!st.Failed? ==> st' == Failed(Shutdown, None))
            && (st.Starting? ==>
                 var g := st.options.generation;
                 list == [Cancel(g), RequestStop(g), Wake(g)] + QueueOps(st.starts, FailedEvent(g, Shutdown)))
            && (st.Running? ==> list == [Cancel(st.options.generation), RequestStop(st.options.generation)])
            && (st.Stopping? ==>
                 var g := st.generation;
                 list == [Cancel(g), RequestStop(g)] + QueueOps(st.starts, FailedEvent(g, Shutdown))
                           + QueueOps(st.stops, FailedEvent(g, Shutdown)))
  {
    assert forall event: Event :: QueueOps([], event) == [];
  }
}
