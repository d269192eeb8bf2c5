/** Progress: every step of a supervisor brings it closer to its end, and while the state holds
    completions some thread that owes their retirement can move. */
module ServiceProgress {
  import opened Optional
  import opened ServiceCore
  import opened ServiceWorker
  import opened ServiceProtocol
  import opened ServiceParts
  import opened ServicePlace
  import opened ServiceCustody

  function SupRank(sup: Sup): nat {
    match sup
    case NotRun => 20
    case AtFactory => 19
    case AtReaperSpawn => 18
    case AtGate => 17
    case AtDecision(_) => 16
    case WaitingRunning => 15
    case WaitingStopping(recovering) => if recovering then 8 else 14
    case WaitingOnly => 14
    case AtFinish(_, recovering, _) => if recovering then 7 else 13
    case AtCreationFailure(_, _) => 13
    case AtTransition => 9
    case Leaving => 2
    case Gone => 0
    case Dropped => 0
  }

  /** No step moves a supervisor back, and each of its own moves it on: it ends after at most
      twenty steps besides the operations in its list, whatever the gate, the factory, the
      reaper and the deadlines do, panics included. */
  lemma SupervisorDescends(s: Sys, e: Step, g: nat)
    requires PlaceInv(s) && Enabled(s, e) && g in s.gens
    ensures g in NextGens(s, e)
    ensures SupRank(NextGens(s, e)[g].sup) <= SupRank(s.gens[g].sup)
    ensures IsGenStep(e) && !IsReaperStep(e) && e.g == g ==> SupRank(NextGens(s, e)[g].sup) < SupRank(s.gens[g].sup)
  {
    hide NextGen, NextGens, PlaceInv, StartsAfresh, Enabled;
    if StartsAfresh(s, e) { FreshIsNew(s, e); }
    GenAt(s, e, g);
    if IsGenStep(e) { OwnDescent(s, e); }
    if e.SpawnSupervisor? { SpawnsNotRun(s, e); }
  }

  lemma NotRunYet(s: Sys, call: nat)
    requires PlaceInv(s) && call in s.callers && s.callers[call].Spawning?
    ensures s.callers[call].generation in s.gens && s.gens[s.callers[call].generation].sup.NotRun?
  {
    assert CallerOk(s.gens, s.excused, call, s.callers[call]);
    hide PartsOk, PlacesOk;
  }

  lemma OwnDescent(s: Sys, e: Step)
    requires IsGenStep(e) && Enabled(s, e)
    ensures SupRank(NextGen(s, e).sup) <= SupRank(s.gens[e.g].sup)
    ensures !IsReaperStep(e) ==> SupRank(NextGen(s, e).sup) < SupRank(s.gens[e.g].sup)
  {
    hide EndState, WorkerStep, TrySend;
  }

  // ---------------------------------------------------------------- a stop reaches a waiting supervisor

  /** Some caller or recoverer will still ask the monitor of `g` to stop. */
  ghost predicate StopComing(s: Sys, g: nat) {
    exists t: Thread, i: nat :: ComingAt(s, t, i, g)
  }

  predicate ComingAt(s: Sys, t: Thread, i: nat, g: nat) {
    !t.Supervisor? && i < |Todo(s, t)| && Todo(s, t)[i] == RequestStop(g)
  }

  ghost predicate WaitOk(s: Sys, g: nat)
    requires g in s.gens
  {
    s.gens[g].sup.WaitingRunning? && !(s.inner.state.Running? && Owns(s.inner.state, g)) ==>
      s.gens[g].lc.stopRequested || s.gens[g].lc.result.Some? || StopComing(s, g)
  }

  ghost predicate WaitInv(s: Sys) {
    forall g :: g in s.gens ==> WaitOk(s, g)
  }

  lemma ComingKept(s: Sys, e: Step, t: Thread, i: nat, g: nat)
    requires KeysOk(s) && Enabled(s, e) && ComingAt(s, t, i, g) && g in s.gens && g in NextGens(s, e)
    ensures StopComing(Apply(s, e), g) || NextGens(s, e)[g].lc.stopRequested
  {
    var s' := Apply(s, e);
    TodoAfter(s, e, t);
    if e == Perform(t) {
      if i > 0 { assert ComingAt(s', t, i - 1, g); }
    } else {
      ListStays(s, e, t);
      hide Apply, OutOf, Todo, NextGens;
      assert ComingAt(s', t, i, g);
    }
  }

  /** Only its own performing shortens the list of a caller or a recoverer. */
  lemma ListStays(s: Sys, e: Step, t: Thread)
    requires KeysOk(s) && Enabled(s, e) && e != Perform(t) && !t.Supervisor? && Todo(s, t) != []
    ensures !(t == Recoverer(s.recoveries))
    ensures t == Actor(e) ==> OutOf(s, e).own.None?
  {
    assert t in s.todo;
    hide RecoverSection, EndSection, CreationFailureSection, DrainOps;
  }

  /** Leaving the Running state always comes with a stop on its way. */
  lemma RunningLeft(s: Sys, e: Step, g: nat)
    requires PlaceInv(s) && Enabled(s, e) && g in s.gens && g in NextGens(s, e)
    requires s.inner.state.Running? && Owns(s.inner.state, g)
    requires !(OutOf(s, e).inner.state.Running? && Owns(OutOf(s, e).inner.state, g))
    requires NextGens(s, e)[g].sup.WaitingRunning?
    ensures StopComing(Apply(s, e), g)
  {
    var s' := Apply(s, e);
    if OutOf(s, e).recovery.Some? {
      RecoveryStops(s, e, g);
      TodoAfter(s, e, Recoverer(s.recoveries));
      assert ComingAt(s', Recoverer(s.recoveries), 1, g);
    } else {
      RunningLeftBy(s, e, g);
      TodoAfter(s, e, Caller(e.call));
      assert ComingAt(s', Caller(e.call), 1, g);
    }
  }

  lemma RecoveryStops(s: Sys, e: Step, g: nat)
    requires Enabled(s, e) && OutOf(s, e).recovery.Some? && s.inner.state.Running? && Owns(s.inner.state, g)
    ensures |OutOf(s, e).recovery.value| > 1 && OutOf(s, e).recovery.value[1] == RequestStop(g)
  {
    assert RecoverSection(s.inner).1 == [Cancel(g), RequestStop(g)];
    hide Enabled;
  }

  /** While the state is Running, its supervisor takes no section and goes on waiting. */
  lemma SectionLeavesWait(s: Sys, e: Step, g: nat)
    requires PlaceInv(s) && Enabled(s, e) && IsSection(e) && g in s.gens && Owns(s.inner.state, g)
              && s.inner.state.Running?
    ensures e.g == g && !NextGens(s, e)[g].sup.WaitingRunning?
  {
    OwnerSteps(s, e, g);
    hide PartsOk, CallersOk, OwnerOk;
  }

  lemma OwnerSteps(s: Sys, e: Step, g: nat)
    requires PlaceInv(s) && Enabled(s, e) && IsSection(e) && g in s.gens && Owns(s.inner.state, g)
    ensures e.g == g
  {
    SectionIsPending(s, e);
    OwnerIsLast(s, e.g);
    OwnerIsLast(s, g);
    hide PlaceInv, Enabled, Owns, Pending;
  }

  lemma SectionIsPending(s: Sys, e: Step)
    requires Enabled(s, e) && IsSection(e)
    ensures e.g in s.gens && Pending(s.gens[e.g].sup)
  {
  }

  lemma OwnerIsLast(s: Sys, g: nat)
    requires PlaceInv(s) && g in s.gens && (Owns(s.inner.state, g) || Pending(s.gens[g].sup))
    ensures g == s.inner.lastGeneration
  {
    assert s.gens[g].options.generation == g;
    assert PlaceOk(s.inner.state, s.inner.lastGeneration, s.excused, CallerAt(s, s.gens[g].starter), s.gens[g]);
    hide PartsOk, CallersOk;
  }

  lemma RunningLeftBy(s: Sys, e: Step, g: nat)
    requires PlaceInv(s) && Enabled(s, e) && g in s.gens && OutOf(s, e).recovery.None?
    requires s.inner.state.Running? && Owns(s.inner.state, g)
    requires !(OutOf(s, e).inner.state.Running? && Owns(OutOf(s, e).inner.state, g))
    requires g in NextGens(s, e) && NextGens(s, e)[g].sup.WaitingRunning?
    ensures e.CallStop? && e.generation == g && !s.poisoned
    ensures OutOf(s, e).own == Some(StopOps(g) + [])
  {
    hide PlaceInv, DrainOps, RecoverSection, NextGens;
    if IsSection(e) { SectionLeavesWait(s, e, g); }
  }

  lemma WaitKept(s: Sys, e: Step)
    requires PlaceInv(s) && KeysOk(s) && WaitInv(s) && Enabled(s, e)
    ensures WaitInv(Apply(s, e))
  {
    var s' := Apply(s, e);
    GensGrow(s, e);
    hide PlaceInv, KeysOk, Enabled, OutOf, NextGens, Apply;
    forall g | g in s'.gens
      ensures WaitOk(s', g)
    {
      WaitKeptAt(s, e, g);
    }
  }

  lemma WaitKeptAt(s: Sys, e: Step, g: nat)
    requires PlaceInv(s) && KeysOk(s) && WaitInv(s) && Enabled(s, e) && g in NextGens(s, e)
    ensures WaitOk(Apply(s, e), g)
  {
    var s' := Apply(s, e);
    assert g in s.gens ==> WaitOk(s, g);
    hide PlaceInv, KeysOk, Enabled, OutOf, NextGens;
    if s'.gens[g].sup.WaitingRunning? && !(s'.inner.state.Running? && Owns(s'.inner.state, g)) {
      WaitingBefore(s, e, g);
      if s.inner.state.Running? && Owns(s.inner.state, g) {
        RunningLeft(s, e, g);
      } else if StopComing(s, g) {
        var t, i :| ComingAt(s, t, i, g);
        ComingKept(s, e, t, i, g);
      }
    }
  }

  /** A supervisor that waits was waiting before, with no less news, unless it has just marked Running. */
  lemma WaitingBefore(s: Sys, e: Step, g: nat)
    requires PlaceInv(s) && Enabled(s, e) && g in NextGens(s, e) && NextGens(s, e)[g].sup.WaitingRunning?
    ensures g in s.gens
    ensures (OutOf(s, e).inner.state.Running? && Owns(OutOf(s, e).inner.state, g))
            || (s.gens[g].sup.WaitingRunning?
                && (s.gens[g].lc.stopRequested ==> NextGens(s, e)[g].lc.stopRequested)
                && (s.gens[g].lc.result.Some? ==> NextGens(s, e)[g].lc.result.Some?))
  {
    hide NextGen, NextGens, PlaceInv, StartsAfresh, Enabled, OutOf, Owns;
    if StartsAfresh(s, e) { FreshIsNew(s, e); }
    if g !in s.gens { BornOf(s, e, g); }
    GenAt(s, e, g);
    if IsGenStep(e) && e.g == g { MarkedWaiting(s, e); }
    if e.SpawnSupervisor? { SpawnsNotRun(s, e); }
  }

  lemma MarkedWaiting(s: Sys, e: Step)
    requires PlaceInv(s) && IsGenStep(e) && Enabled(s, e) && NextGen(s, e).sup.WaitingRunning?
    ensures (OutOf(s, e).inner.state.Running? && Owns(OutOf(s, e).inner.state, e.g))
            || (s.gens[e.g].sup.WaitingRunning?
                && (s.gens[e.g].lc.stopRequested ==> NextGen(s, e).lc.stopRequested)
                && (s.gens[e.g].lc.result.Some? ==> NextGen(s, e).lc.result.Some?))
  {
    assert s.gens[e.g].options.generation == e.g;
    hide PlaceInv;
    if e.Decide? { DecidedRunning(s, e.g); } else { KeepsWaiting(s, e); }
    hide NextGen, OutOf, Enabled;
  }

  /** Only mark_running makes a supervisor wait while Running. */
  lemma DecidedRunning(s: Sys, g: nat)
    requires Enabled(s, Decide(g)) && NextGen(s, Decide(g)).sup.WaitingRunning? && s.gens[g].options.generation == g
    ensures OutOf(s, Decide(g)).inner.state.Running? && Owns(OutOf(s, Decide(g)).inner.state, g)
  {
    hide DrainOps, RecoverSection;
  }

  lemma KeepsWaiting(s: Sys, e: Step)
    requires IsGenStep(e) && !e.Decide? && Enabled(s, e) && NextGen(s, e).sup.WaitingRunning?
    ensures s.gens[e.g].sup.WaitingRunning?
    ensures s.gens[e.g].lc.stopRequested ==> NextGen(s, e).lc.stopRequested
    ensures s.gens[e.g].lc.result.Some? ==> NextGen(s, e).lc.result.Some?
  {
    hide EndState, WorkerStep, TrySend;
  }

  // ---------------------------------------------------------------- who retires the last generation

  ghost predicate ProgressInv(s: Sys) {
    PlaceInv(s) && CustodyInv(s) && WaitInv(s)
  }

  lemma ProgressKept(s: Sys, e: Step)
    requires ProgressInv(s) && Enabled(s, e)
    ensures ProgressInv(Apply(s, e))
  {
    hide PlaceInv, WaitInv, Conserved, Apply, Enabled;
    PlaceKept(s, e);
    CustodyKept(s, e);
    WaitKept(s, e);
  }

  /** Start or stop completions are still held in the state. */
  predicate Unretired(st: State) {
    st.Starting? || st.Stopping?
  }

  /** Who still has to retire the generation that holds completions. */
  lemma OwedCaller(s: Sys, g: nat)
    requires PlaceInv(s) && Unretired(s.inner.state) && g == s.inner.lastGeneration && g in s.gens
    ensures Owns(s.inner.state, g) && s.gens[g].options.generation == g
    ensures s.gens[g].sup.Dropped? ==>
              CallerAt(s, s.gens[g].starter).SpawnCancel? || CallerAt(s, s.gens[g].starter).SpawnFail?
    ensures s.gens[g].sup.Dropped? ==> CallerAt(s, s.gens[g].starter).generation == g
    ensures s.gens[g].sup.NotRun? ==> CallerAt(s, s.gens[g].starter) == Spawning(g)
    ensures !s.gens[g].sup.Leaving? && !s.gens[g].sup.Gone?
    ensures s.inner.state.Starting? ==> !s.gens[g].sup.WaitingRunning?
  {
    assert CallerOk(s.gens, s.excused, s.gens[g].starter, CallerAt(s, s.gens[g].starter));
  }

  /** The next step of a supervisor whose list is empty, given a gate that reports and a deadline that passes. */
  function NextDuty(gen: Gen, g: nat): Step {
    match gen.sup
    case AtFactory => RunFactory(g, None)
    case AtReaperSpawn => SpawnReaper(g, None)
    case AtGate => PassGate(g, GateTimeout)
    case AtDecision(_) => Decide(g)
    case WaitingRunning => LeaveRunning(g)
    case AtFinish(_, _, _) => Finish(g)
    case AtCreationFailure(_, _) => FailCreation(g)
    case AtTransition => Transition(g)
    case _ => LeaveStopping(g)
  }

  /** Only a supervisor that waits while Running can be held up, and then a stop is on its way. */
  lemma HeldUp(s: Sys, g: nat)
    requires ProgressInv(s) && Unretired(s.inner.state) && g == s.inner.lastGeneration && g in s.gens
    requires !s.gens[g].sup.NotRun? && !s.gens[g].sup.Dropped? && Todo(s, Supervisor(g)) == []
    requires !Enabled(s, NextDuty(s.gens[g], g))
    ensures s.gens[g].sup.WaitingRunning? && StopComing(s, g)
  {
    OwedCaller(s, g);
    OnlyWaiting(s, g);
    hide Enabled, PlaceInv, CustodyInv;
    assert WaitOk(s, g);
  }

  lemma OnlyWaiting(s: Sys, g: nat)
    requires SupIdle(s, g) && !Enabled(s, NextDuty(s.gens[g], g))
    requires !s.gens[g].sup.NotRun? && !s.gens[g].sup.Dropped? && !s.gens[g].sup.Leaving? && !s.gens[g].sup.Gone?
    ensures s.gens[g].sup.WaitingRunning? && !s.gens[g].lc.stopRequested && s.gens[g].lc.result.None?
  {
  }

  function Busy(s: Sys): set<Thread> {
    set t | t in s.todo && s.todo[t] != []
  }

  lemma NothingInHand(s: Sys)
    requires Busy(s) == {}
    ensures forall t: Thread :: Todo(s, t) == []
  {
    forall t: Thread
      ensures Todo(s, t) == []
    {
      assert t !in Busy(s);
    }
  }

  lemma AllQueued(s: Sys)
    requires CustodyInv(s) && !Unretired(s.inner.state) && Busy(s) == {}
    ensures forall call :: call in s.accepted ==> exists j :: 0 <= j < |s.queue| && s.queue[j].completion.call == call
  {
    forall call | call in s.accepted
      ensures exists j :: 0 <= j < |s.queue| && s.queue[j].completion.call == call
    {
      assert Spotted(s, call);
      var p :| Filled(s, p) && At(s, p).call == call;
      NothingInHand(s);
      assert s.queue[p.i].completion.call == call;
    }
  }
}
