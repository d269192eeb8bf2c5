/** What every run of the service controller guarantees. */
module ServiceTheorems {
  import opened Optional
  import opened ServiceCore
  import opened ServiceWorker
  import opened ServiceProtocol
  import opened ServiceParts
  import opened ServicePlace
  import opened ServiceCustody
  import opened ServiceOutcome
  import opened ServiceSignals
  import opened ServiceOrder
  import opened ServiceProgress
  import opened ServiceDelivery

  ghost predicate Inv(s: Sys) {
    ProgressInv(s) && OutcomeInv(s) && SignalInv(s) && OrderInv(s)
  }

  lemma InitialInv(dispatching: bool)
    ensures Inv(Initial(dispatching))
  {
  }

  lemma BelowLast(s: Sys)
    requires OwnerOk(s)
    ensures OwnerBelow(s.inner.state, s.inner.lastGeneration)
  {
  }

  lemma InvKept(s: Sys, e: Step)
    requires Inv(s) && Enabled(s, e)
    ensures Inv(Apply(s, e))
  {
    BelowLast(s);
    hide Apply, Enabled, PlaceInv, Conserved, OutcomeInv, SignalInv, OrderInv, WaitInv, OwnerBelow;
    ProgressKept(s, e);
    OutcomeKept(s, e);
    SignalKept(s, e);
    OrderKept(s, e);
  }

  lemma ExcusedGrows(s: Sys, e: Step)
    requires Enabled(s, e)
    ensures s.excused ==> Apply(s, e).excused
  {
    hide OutOf, NextGens;
  }

  lemma {:induction false} RunInv(s: Sys, run: seq<Step>)
    requires Inv(s) && Feasible(s, run)
    ensures Inv(Exec(s, run))
    decreases |run|
  {
    if run != [] {
      InvKept(s, run[0]);
      RunInv(Apply(s, run[0]), run[1..]);
    }
  }

  /** A state of some controller after some run. */
  ghost predicate Reachable(s: Sys) {
    exists dispatching: bool, run: seq<Step> ::
        Feasible(Initial(dispatching), run) && s == Exec(Initial(dispatching), run)
  }

  lemma ReachableInv(s: Sys)
    requires Reachable(s)
    ensures Inv(s)
  {
    var dispatching: bool, run: seq<Step> :| Feasible(Initial(dispatching), run)
        && s == Exec(Initial(dispatching), run);
    InitialInv(dispatching);
    RunInv(Initial(dispatching), run);
  }

  lemma ReachableStep(s: Sys, e: Step)
    requires Reachable(s) && Enabled(s, e)
    ensures Reachable(Apply(s, e))
  {
    var dispatching: bool, run: seq<Step> :| Feasible(Initial(dispatching), run)
        && s == Exec(Initial(dispatching), run);
    hide Enabled, Apply, Initial;
    assert Feasible(Apply(s, e), []) && Exec(Apply(s, e), []) == Apply(s, e);
    Unroll(s, e, []);
    assert [e] + [] == [e];
    ExecConcat(Initial(dispatching), run, [e]);
  }

  lemma ReachableRun(s: Sys, run: seq<Step>)
    requires Reachable(s) && Feasible(s, run)
    ensures Reachable(Exec(s, run))
  {
    var dispatching: bool, before: seq<Step> :| Feasible(Initial(dispatching), before)
        && s == Exec(Initial(dispatching), before);
    hide Enabled, Apply, Initial;
    ExecConcat(Initial(dispatching), before, run);
  }

  // ---------------------------------------------------------------- workers

  /** Stopped means that every worker ever spawned has ended and been joined, and two
      workers are never unjoined at once. */
  lemma StoppedMeansJoined(s: Sys)
    requires Reachable(s)
    ensures s.inner.state.Stopped? ==>
              forall g :: g in s.gens && s.gens[g].worker.Some? ==>
                  s.gens[g].handle == Joined && s.gens[g].worker.value.pc.Exited?
    ensures forall g, h :: g in s.gens && h in s.gens && Unjoined(s.gens[g]) && Unjoined(s.gens[h]) ==> g == h
  {
    ReachableInv(s);
    forall g | g in s.gens
      ensures GenPartsOk(s.gens[g])
      ensures PlaceOk(s.inner.state, s.inner.lastGeneration, s.excused, CallerAt(s, s.gens[g].starter), s.gens[g])
    {
    }
  }

  /** A new generation begins only when every earlier worker has been joined. */
  lemma NewGenerationAfterJoin(s: Sys, call: nat, o: Options, g: nat)
    requires Reachable(s) && Enabled(s, CallStart(call, o)) && StartsAfresh(s, CallStart(call, o))
    requires g in s.gens && s.gens[g].worker.Some?
    ensures s.gens[g].handle == Joined && g < o.generation
  {
    StoppedMeansJoined(s);
    ReachableInv(s);
    assert PlaceOk(s.inner.state, s.inner.lastGeneration, s.excused, CallerAt(s, s.gens[g].starter), s.gens[g]);
  }

  /** A supervisor that did not see the join before its deadline leaves the controller Failed,
      even if the join lands before it finishes. */
  lemma MissedJoinFails(s: Sys, g: nat)
    requires Reachable(s) && Enabled(s, Finish(g))
              && (s.gens[g].sup.exit == Fault(Shutdown) || s.gens[g].handle != Joined)
    ensures Apply(s, Finish(g)).inner.state.Failed?
  {
    hide NextGens, DrainOps, PartsOk, CallersOk, CustodyInv, WaitInv, OutcomeInv, SignalInv, OrderInv, Reachable;
    ReachableInv(s);
    PartsAt(s, g);
    assert PlaceOk(s.inner.state, s.inner.lastGeneration, s.excused, CallerAt(s, s.gens[g].starter), s.gens[g]);
    hide PlacesOk;
  }

  /** The wait that ends by its deadline records a shutdown fault. */
  lemma DeadlineIsRecorded(s: Sys, g: nat)
    requires Enabled(s, LeaveStopping(g)) && s.gens[g].sup.WaitingStopping? && s.gens[g].lc.result.None?
    ensures var sup := Apply(s, LeaveStopping(g)).gens[g].sup; sup.AtFinish? && sup.exit == Fault(Shutdown)
  {
  }

  /** What was observed stays until the supervisor finishes or panics. */
  lemma ObservationStays(s: Sys, e: Step, g: nat)
    requires Inv(s) && Enabled(s, e) && g in s.gens && s.gens[g].sup.AtFinish? && e != Finish(g)
              && e != SupervisorPanics(g)
    ensures g in Apply(s, e).gens && Apply(s, e).gens[g].sup == s.gens[g].sup
  {
    hide Inv, Apply, Enabled, NextGen;
    GenAfter(s, e, g);
    if IsGenStep(e) && e.g == g { NextGenStays(s, e); }
  }

  lemma NextGenStays(s: Sys, e: Step)
    requires IsGenStep(e) && Enabled(s, e)
    ensures s.gens[e.g].sup.AtFinish? && !e.Finish? && !e.SupervisorPanics? ==> NextGen(s, e).sup == s.gens[e.g].sup
    ensures s.gens[e.g].handle != Lost && !e.Finish? && !e.FailCreation? ==> NextGen(s, e).handle != Lost
  {
    hide EndState, WorkerStep, TrySend, DecidedSup;
  }

  /** What a step makes of the record of an existing generation. */
  lemma GenAfter(s: Sys, e: Step, g: nat)
    requires Inv(s) && Enabled(s, e) && g in s.gens
    ensures g in Apply(s, e).gens
    ensures IsGenStep(e) && e.g == g ==> Apply(s, e).gens[g] == NextGen(s, e)
    ensures !(IsGenStep(e) && e.g == g) ==>
              var gen := Apply(s, e).gens[g];
              gen.handle == s.gens[g].handle && (gen.sup == s.gens[g].sup || s.gens[g].sup.NotRun?)
  {
    hide Enabled, NextGen, NextGens, PlaceInv, WaitInv, CustodyInv, SignalInv, OrderInv, OutcomeInv, OutOf,
      StartsAfresh;
    if StartsAfresh(s, e) { FreshIsNew(s, e); }
    GenAt(s, e, g);
    if e.SpawnSupervisor? { SpawnsNotRun(s, e); }
  }

  /** Between the two: once the deadline has passed without a result, the generation ends
      Failed in every run in which its supervisor does not panic. */
  lemma DeadlineFails(s: Sys, g: nat, run: seq<Step>)
    requires Reachable(s) && Enabled(s, LeaveStopping(g)) && s.gens[g].sup.WaitingStopping? && s.gens[g].lc.result.None?
    requires Feasible(Apply(s, LeaveStopping(g)), run) && Finish(g) !in run && SupervisorPanics(g) !in run
    requires Enabled(Exec(Apply(s, LeaveStopping(g)), run), Finish(g))
    ensures Apply(Exec(Apply(s, LeaveStopping(g)), run), Finish(g)).inner.state.Failed?
  {
    var s1 := Apply(s, LeaveStopping(g));
    DeadlineIsRecorded(s, g);
    ReachableStep(s, LeaveStopping(g));
    ReachableInv(s1);
    ReachableRun(s1, run);
    hide Enabled, Apply, Inv, Reachable;
    ObservedRun(s1, run, g);
    MissedJoinFails(Exec(s1, run), g);
  }

  lemma {:induction false} ObservedRun(s: Sys, run: seq<Step>, g: nat)
    requires Inv(s) && Feasible(s, run) && Finish(g) !in run && SupervisorPanics(g) !in run
    requires g in s.gens && s.gens[g].sup.AtFinish?
    ensures g in Exec(s, run).gens && Exec(s, run).gens[g].sup == s.gens[g].sup
    decreases |run|
  {
    if run != [] {
      InvKept(s, run[0]);
      ObservationStays(s, run[0], g);
      hide Enabled, Apply, Inv;
      ObservedRun(Apply(s, run[0]), run[1..], g);
    }
  }

  /** A live worker whose generation has been retired sees its cancel signal. */
  lemma NoOrphanedWorker(s: Sys, g: nat)
    requires Reachable(s) && g in s.gens && s.gens[g].worker.Some? && !s.gens[g].worker.value.pc.Exited?
    requires !Pending(s.gens[g].sup)
    ensures !Owns(s.inner.state, g) && s.gens[g].cancelled
  {
    ReachableInv(s);
    PartsAt(s, g);
    assert PlaceOk(s.inner.state, s.inner.lastGeneration, s.excused, CallerAt(s, s.gens[g].starter), s.gens[g]);
    assert GenSignal(Todo(s, Supervisor(g)), s.gens[g]);
  }

  /** The supervisor may still be holding the gate's receiver. */
  predicate BeforeGate(sup: Sup) {
    sup.AtReaperSpawn? || sup.AtGate? || sup.AtCreationFailure? || sup.Leaving?
  }

  lemma WedgePoint(gen: Gen)
    requires GenPartsOk(gen) && gen.worker.Some? && gen.worker.value.pc.Sending?
    requires !CanStep(gen.worker.value, gen.cancelled, gen.ch, Succeed)
    ensures BeforeGate(gen.sup)
  {
  }

  /** The next step of a supervisor that is before the gate. */
  function GateDuty(sup: Sup, g: nat): Step {
    match sup
    case AtReaperSpawn => SpawnReaper(g, None)
    case AtGate => PassGate(g, GateTimeout)
    case Leaving => Leave(g)
    case _ => FailCreation(g)
  }

  /** A worker's send waits only while its supervisor is before the gate, and then that
      supervisor goes on of itself: it performs its list, and after the list it takes the step
      that leaves the point it is at. Past the gate, or ended, it no longer listens. */
  lemma NoWedgedWorker(s: Sys, g: nat) returns (e: Step)
    requires Reachable(s) && g in s.gens && s.gens[g].worker.Some? && s.gens[g].worker.value.pc.Sending?
    requires !CanStep(s.gens[g].worker.value, s.gens[g].cancelled, s.gens[g].ch, Succeed)
    ensures BeforeGate(s.gens[g].sup)
    ensures Enabled(s, e) && Lively(e) && Actor(e) == Supervisor(g)
    ensures e.Perform? <==> Todo(s, Supervisor(g)) != []
    ensures !e.Perform? ==> SupRank(Apply(s, e).gens[g].sup) < SupRank(s.gens[g].sup)
  {
    ReachableInv(s);
    PartsAt(s, g);
    WedgePoint(s.gens[g]);
    if Todo(s, Supervisor(g)) != [] {
      e := Perform(Supervisor(g));
    } else {
      e := GateDuty(s.gens[g].sup, g);
      GateStep(s, g);
    }
  }

  lemma GateStep(s: Sys, g: nat)
    requires SupIdle(s, g) && BeforeGate(s.gens[g].sup)
    ensures var e := GateDuty(s.gens[g].sup, g);
            && Enabled(s, e) && Lively(e) && !e.Perform? && Actor(e) == Supervisor(g)
            && SupRank(Apply(s, e).gens[g].sup) < SupRank(s.gens[g].sup)
  {
    var e := GateDuty(s.gens[g].sup, g);
    assert Enabled(s, e) && IsGenStep(e) && !IsReaperStep(e) && e.g == g;
    OwnDescent(s, e);
    hide NextGen, OutOf, Enabled;
  }

  /** Past a successful bind a worker that ended without panicking has shut its SOCKS service
      down exactly once, and before one never. */
  lemma ShutDownExactlyOnce(s: Sys, g: nat)
    requires Reachable(s) && g in s.gens && s.gens[g].worker.Some?
    ensures var w := s.gens[g].worker.value;
            && w.bound <= 1
            && (w.pc.Exited? && !w.panicked ==> w.shutdowns == w.bound)
            && (!w.pc.Exited? ==> w.shutdowns == 0)
  {
    ReachableInv(s);
    PartsAt(s, g);
  }

  // ---------------------------------------------------------------- how every worker ends

  /** Where a worker may wait for as long as nobody cancels it: its two selects. */
  predicate InSelect(pc: Pc) {
    pc.Bootstrapping? || pc.Binding? || pc.Serving?
  }

  /** The steps that are not put off for ever: those of callers, supervisors and reapers, and
      those of a worker, except that nobody promises that Tor answers in a select that was not
      cancelled. No panic is among them. */
  predicate Due(s: Sys, e: Step) {
    if e.Work? then
      && !e.choice.Panic? && e.g in s.gens
      && (s.gens[e.g].worker.Some? && InSelect(s.gens[e.g].worker.value.pc) ==> s.gens[e.g].cancelled)
    else Lively(e) || IsReaperStep(e)
  }

  ghost predicate AtRest(s: Sys) {
    forall e: Step :: Due(s, e) ==> !Enabled(s, e)
  }

  /** The worker has shut down the service it had, and its reaper, if there is one, has joined it. */
  predicate Ended(gen: Gen) {
    && gen.worker.Some? && gen.worker.value.pc.Exited?
    && (!gen.worker.value.panicked ==> gen.worker.value.shutdowns == gen.worker.value.bound)
    && (gen.reaper.NoReaper? || gen.handle == Joined)
  }

  /** The worker of the generation that is Running, which nobody has cancelled. */
  predicate Serves(s: Sys, g: nat)
    requires g in s.gens
  {
    && s.inner.state.Running? && Owns(s.inner.state, g) && !s.gens[g].cancelled
    && s.gens[g].sup.WaitingRunning? && s.gens[g].worker.Some? && InSelect(s.gens[g].worker.value.pc)
  }

  lemma RestIsQuiet(s: Sys)
    requires AtRest(s)
    ensures Quiet(s) && forall t: Thread :: Todo(s, t) == []
  {
    forall e: Step | Lively(e)
      ensures !Enabled(s, e)
    {
      assert Due(s, e);
    }
    QuietLists(s);
    NothingInHand(s);
  }

  lemma RestingGate(s: Sys, g: nat)
    requires Quiet(s) && SupIdle(s, g)
    ensures !BeforeGate(s.gens[g].sup)
  {
    if BeforeGate(s.gens[g].sup) { GateStep(s, g); }
    hide Enabled, BeforeGate;
  }

  lemma RestingDuty(s: Sys, g: nat)
    requires Quiet(s) && SupIdle(s, g) && GenPartsOk(s.gens[g]) && s.gens[g].worker.Some? && Pending(s.gens[g].sup)
    ensures s.gens[g].sup.WaitingRunning? && !s.gens[g].lc.stopRequested && s.gens[g].lc.result.None?
  {
    assert Lively(NextDuty(s.gens[g], g));
    OnlyWaiting(s, g);
    hide Enabled, NextDuty;
  }

  /** A supervisor that has a worker and has not ended, but nothing to do, waits for its Running
      generation. */
  lemma RestingSupervisor(s: Sys, g: nat)
    requires Inv(s) && AtRest(s) && g in s.gens && s.gens[g].worker.Some?
    ensures Pending(s.gens[g].sup) ==> s.gens[g].sup.WaitingRunning? && s.inner.state.Running? && Owns(s.inner.state, g)
    ensures !BeforeGate(s.gens[g].sup)
  {
    RestIsQuiet(s);
    PartsAt(s, g);
    assert WaitOk(s, g) && !StopComing(s, g);
    hide Inv, Quiet, AtRest, PartsOk, GenPartsOk, Pending, BeforeGate;
    RestingGate(s, g);
    if Pending(s.gens[g].sup) { RestingDuty(s, g); }
  }

  lemma WorkerDue(s: Sys, g: nat) returns (e: Step)
    requires g in s.gens && s.gens[g].worker.Some? && !s.gens[g].worker.value.pc.Exited?
    requires s.gens[g].worker.value.pc.Sending? ==> (s.gens[g].ch.receiving ==> s.gens[g].ch.buffer.None?)
    requires !InSelect(s.gens[g].worker.value.pc) || s.gens[g].cancelled
    ensures Due(s, e) && Enabled(s, e)
  {
    var choice := CancelledWorkerMoves(s.gens[g].worker.value, s.gens[g].ch);
    e := Work(g, choice);
  }

  /** A worker that can go on only as nobody promises is in a select that was not cancelled. */
  lemma RestingWorker(s: Sys, g: nat)
    requires AtRest(s) && g in s.gens && s.gens[g].worker.Some? && !s.gens[g].worker.value.pc.Exited?
    requires s.gens[g].worker.value.pc.Sending? ==> (s.gens[g].ch.receiving ==> s.gens[g].ch.buffer.None?)
    ensures InSelect(s.gens[g].worker.value.pc) && !s.gens[g].cancelled
  {
    if !InSelect(s.gens[g].worker.value.pc) || s.gens[g].cancelled { var _ := WorkerDue(s, g); }
  }

  lemma ReaperDue(s: Sys, g: nat) returns (e: Step)
    requires g in s.gens && GenPartsOk(s.gens[g]) && s.gens[g].worker.Some? && s.gens[g].worker.value.pc.Exited?
    requires !s.gens[g].reaper.NoReaper? && s.gens[g].handle != Joined
    ensures Due(s, e) && Enabled(s, e)
  {
    e := if s.gens[g].reaper.Joining? then JoinWorker(g) else TakeHandle(g);
  }

  lemma RestingReaper(s: Sys, g: nat)
    requires AtRest(s) && g in s.gens && GenPartsOk(s.gens[g]) && s.gens[g].worker.Some?
              && s.gens[g].worker.value.pc.Exited?
    ensures s.gens[g].reaper.NoReaper? || s.gens[g].handle == Joined
  {
    if !s.gens[g].reaper.NoReaper? && s.gens[g].handle != Joined { var _ := ReaperDue(s, g); }
  }

  lemma RestEndsWorker(s: Sys, g: nat)
    requires Reachable(s) && AtRest(s) && g in s.gens && s.gens[g].worker.Some?
    ensures Ended(s.gens[g]) || Serves(s, g)
  {
    ReachableInv(s);
    PartsAt(s, g);
    RestingSupervisor(s, g);
    hide Inv, Reachable, AtRest, Pending, PartsOk;
    var w := s.gens[g].worker.value;
    if w.pc.Exited? {
      RestingReaper(s, g);
      ShutDownExactlyOnce(s, g);
    } else {
      if w.pc.Sending? && !CanStep(w, s.gens[g].cancelled, s.gens[g].ch, Succeed) { WedgePoint(s.gens[g]); }
      RestingWorker(s, g);
      if !Pending(s.gens[g].sup) { NoOrphanedWorker(s, g); }
    }
  }

  lemma DueStep(s: Sys, e: Step)
    requires Reachable(s) && Enabled(s, e) && Due(s, e)
    ensures Reachable(Apply(s, e)) && Measure(Apply(s, e)) < Measure(s) && !NewCall(e)
  {
    hide Apply, Enabled, Measure, Reachable, PlaceInv;
    ReachablePlace(s);
    ReachableStep(s, e);
    MeasureDescends(s, e);
  }

  lemma ReachablePlace(s: Sys)
    requires Reachable(s)
    ensures PlaceInv(s)
  {
    hide PlaceInv;
    ReachableInv(s);
  }

  /** Such an end is reached by letting any thread do what is due. */
  lemma {:induction false} RestIsReached(s: Sys) returns (run: seq<Step>)
    requires Reachable(s)
    ensures Feasible(s, run) && NoNewCalls(run) && AtRest(Exec(s, run))
    decreases Measure(s)
  {
    if AtRest(s) {
      run := [];
    } else {
      var e: Step :| Due(s, e) && Enabled(s, e);
      hide Apply, Enabled, Measure, Due, Reachable, NewCall, AtRest, Feasible, Exec;
      DueStep(s, e);
      var rest := RestIsReached(Apply(s, e));
      Unroll(s, e, rest);
      run := [e] + rest;
    }
  }

  /** No worker is wedged or left behind, under any schedule. Without a new call every run is at
      most Measure(s) steps long; and when nothing that is due is left to do, every worker ever
      spawned has ended, with its service shut down exactly once unless it panicked, and its
      reaper has joined it, except the uncancelled worker of the generation that is Running. */
  lemma EveryWorkerEnds(s: Sys, run: seq<Step>, g: nat)
    requires Reachable(s) && Feasible(s, run) && NoNewCalls(run)
    ensures |run| <= Measure(s)
    ensures var t := Exec(s, run);
              AtRest(t) && g in t.gens && t.gens[g].worker.Some? ==> Ended(t.gens[g]) || Serves(t, g)
  {
    EveryRunDelivers(s, run);
    ReachableRun(s, run);
    var t := Exec(s, run);
    hide Enabled, Apply, Reachable, AtRest, Ended, Serves;
    if AtRest(t) && g in t.gens && t.gens[g].worker.Some? { RestEndsWorker(t, g); }
  }

  // ---------------------------------------------------------------- completions

  /** Each accepted completion is in exactly one spot, and a refused one in none. */
  lemma Conservation(s: Sys, call: nat)
    requires Reachable(s)
    ensures call in s.accepted ==>
              exists p ::
                && Filled(s, p) && At(s, p) == s.accepted[call]
                && forall q :: Filled(s, q) && At(s, q).call == call ==> q == p
    ensures call in s.refused ==> call !in s.accepted && forall p :: Filled(s, p) ==> At(s, p).call != call
    ensures s.inner.state.Stopped? || s.inner.state.Failed? ==> forall p :: Filled(s, p) ==> !p.SpotState?
  {
    ReachableInv(s);
    if call in s.accepted {
      assert Spotted(s, call);
      var p :| Filled(s, p) && At(s, p).call == call;
      assert At(s, p) == s.accepted[call];
    }
  }

  /** No generation gets stuck, under any schedule. Without a new call the threads can take at
      most Measure(s) steps together, panics and poisoning included; and when none of them has
      anything left to do, every completion ever accepted has been queued. */
  lemma EveryRunDelivers(s: Sys, run: seq<Step>)
    requires Reachable(s) && Feasible(s, run) && NoNewCalls(run)
    ensures |run| <= Measure(s)
    ensures Quiet(Exec(s, run)) ==>
              var s' := Exec(s, run);
              && !Unretired(s'.inner.state)
              && forall call :: call in s'.accepted ==>
                   exists j :: 0 <= j < |s'.queue| && s'.queue[j].completion.call == call
  {
    ReachableInv(s);
    RunsEnd(s, run);
    if Quiet(Exec(s, run)) { QuietDelivers(Exec(s, run)); }
    hide Enabled, Apply, Quiet, ProgressInv;
  }

  /** From every reachable state such an end is reached by letting any thread go on. */
  lemma NoGenerationStuck(s: Sys) returns (run: seq<Step>)
    requires Reachable(s)
    ensures Feasible(s, run) && Quiet(Exec(s, run))
    ensures forall i :: 0 <= i < |run| ==> Lively(run[i])
  {
    ReachableInv(s);
    run := Settle(s);
  }

  /** A supervisor that has ended has retired its generation. */
  lemma EveryExitRetires(s: Sys, g: nat)
    requires Reachable(s) && g in s.gens && (s.gens[g].sup.Leaving? || s.gens[g].sup.Gone?)
    ensures !Owns(s.inner.state, g)
  {
    ReachableInv(s);
    assert PlaceOk(s.inner.state, s.inner.lastGeneration, s.excused, CallerAt(s, s.gens[g].starter), s.gens[g]);
  }

  /** finish_worker never meets its own generation still Starting. */
  lemma FinishNeverStarting(s: Sys, g: nat)
    requires Reachable(s) && Enabled(s, Finish(g))
    ensures !(s.inner.state.Starting? && s.inner.state.options.generation == g)
  {
    ReachableInv(s);
    assert PlaceOk(s.inner.state, s.inner.lastGeneration, s.excused, CallerAt(s, s.gens[g].starter), s.gens[g]);
  }

  /** All starts of one generation hear the same event: Running with one non-zero port, or one failure. */
  lemma CommonOutcome(s: Sys, i: nat, j: nat)
    requires Reachable(s) && i < |s.queue| && j < |s.queue|
    requires s.queue[i].completion.kind.StartCall? && s.queue[j].completion.kind.StartCall?
    requires s.queue[i].completion.generation == s.queue[j].completion.generation
    ensures s.queue[i].event == s.queue[j].event
    ensures s.queue[i].event.generation == s.queue[i].completion.generation && !s.queue[i].event.StoppedEvent?
    ensures s.queue[i].event.RunningEvent? ==> s.queue[i].event.port != 0
  {
    ReachableInv(s);
    assert ItemOk(s.decided, s.queue[i]);
    assert ItemOk(s.decided, s.queue[j]);
  }

  lemma {:induction false} DoomedRun(s: Sys, run: seq<Step>, g: nat)
    requires Inv(s) && Feasible(s, run) && Doomed(s, g)
    ensures Doomed(Exec(s, run), g) && Inv(Exec(s, run))
    decreases |run|
  {
    if run != [] {
      BelowLast(s);
      DoomedKept(s, run[0], g);
      InvKept(s, run[0]);
      DoomedRun(Apply(s, run[0]), run[1..], g);
    }
  }

  /** Once a stop of the current generation is accepted while it is Starting, no start of that
      generation ever hears Running, in any continuation. */
  lemma StopBeatsStart(s: Sys, call: nat, g: nat, run: seq<Step>, j: nat)
    requires Reachable(s) && !s.poisoned && s.inner.state.Starting? && s.inner.state.options.generation == g
    requires Enabled(s, CallStop(call, g)) && Feasible(Apply(s, CallStop(call, g)), run)
    ensures call in Apply(s, CallStop(call, g)).accepted
    ensures var s' := Exec(Apply(s, CallStop(call, g)), run);
            j < |s'.queue| && s'.queue[j].completion.kind.StartCall? && s'.queue[j].completion.generation == g ==>
              s'.queue[j].event.FailedEvent?
  {
    ReachableInv(s);
    BelowLast(s);
    StopDooms(s, call, g);
    var s1 := Apply(s, CallStop(call, g));
    InvKept(s, CallStop(call, g));
    DoomedRun(s1, run, g);
    var s' := Exec(s1, run);
    if j < |s'.queue| { assert ItemOk(s'.decided, s'.queue[j]); }
  }

  // ---------------------------------------------------------------- delivery order

  /** No step of the run drains the stops of `g` while its supervisor still has a start of it. */
  ghost predicate NeverOvertaken(s: Sys, run: seq<Step>, g: nat)
    requires Feasible(s, run)
    decreases |run|
  {
    run == [] || (!Overtakes(s, run[0], g) && NeverOvertaken(Apply(s, run[0]), run[1..], g))
  }

  /** In every run that never overtakes a generation, its gathered starts are queued before any
      stop that was held for it. */
  lemma {:induction false} StartsBeforeStops(s: Sys, run: seq<Step>, g: nat)
    requires Reachable(s) && Feasible(s, run) && Sequenced(s, g) && NeverOvertaken(s, run, g)
    ensures Sequenced(Exec(s, run), g) && !OutOfOrder(Exec(s, run), g)
    decreases |run|
  {
    if run != [] {
      OrderBreaksExactly(s, run[0], g);
      ReachableStep(s, run[0]);
      hide Enabled, Apply, Reachable, Sequenced, Overtakes, OutOfOrder;
      StartsBeforeStops(Apply(s, run[0]), run[1..], g);
    } else {
      var _ := BrokenOrderShows(s, g);
    }
  }

  lemma NothingQueuedYet(dispatching: bool, g: nat)
    ensures Reachable(Initial(dispatching)) && Sequenced(Initial(dispatching), g)
  {
    assert Feasible(Initial(dispatching), []) && Exec(Initial(dispatching), []) == Initial(dispatching);
  }

  /** One step breaks the order of `g` exactly when it drains the stops of `g`, by a recoverer or
      a caller that could not spawn, while Supervisor(g) still has a gathered start in its list. */
  lemma OrderBreaksExactly(s: Sys, e: Step, g: nat)
    requires Reachable(s) && Enabled(s, e) && Sequenced(s, g)
    ensures Sequenced(Apply(s, e), g) <==> !Overtakes(s, e, g)
    ensures Overtakes(s, e, g) ==> s.excused && (s.poisoned || e.FailSpawn?) && Taker(s, e) != Supervisor(g)
  {
    ReachableInv(s);
    hide Enabled, Apply, Reachable, PlaceInv, OutcomeInv, OrderInv, SignalInv, WaitInv, Sequenced, Overtakes;
    SequencedExactly(s, e, g);
    if Overtakes(s, e, g) {
      OvertakenBy(s, e, g);
      if !s.excused { UnexcusedDrain(s, e, g); }
    }
  }

  /** After such a step the threads need only go on with their lists, and a stop of `g` is queued
      before a start of `g`. */
  lemma OvertakenReorders(s: Sys, e: Step, g: nat) returns (run: seq<Step>)
    requires Reachable(s) && Enabled(s, e) && Overtakes(s, e, g)
    ensures Feasible(Apply(s, e), run) && OutOfOrder(Exec(Apply(s, e), run), g)
    ensures forall k :: 0 <= k < |run| ==> run[k].Perform?
  {
    ReachableInv(s);
    hide Enabled, Apply, Reachable, PlaceInv, OutcomeInv, OrderInv, SignalInv, WaitInv, Sequenced, Overtakes,
      OutOfOrder;
    SequencedExactly(s, e, g);
    run := BrokenOrderShows(Apply(s, e), g);
  }

  /** A generation that has been retired in order stays in order whatever happens later, and so
      does every generation retired before the first excuse. */
  lemma {:induction false} RetiredStaysInOrder(s: Sys, run: seq<Step>, g: nat)
    requires Reachable(s) && Feasible(s, run) && Retired(s, g) && (Sequenced(s, g) || !s.excused)
    ensures !OutOfOrder(Exec(s, run), g)
    decreases |run|
  {
    if !s.excused { UnexcusedOrder(s, g); }
    if run != [] {
      ReachableInv(s);
      ReachableStep(s, run[0]);
      hide Enabled, Apply, Reachable, PlaceInv, OutcomeInv, OrderInv, SignalInv, WaitInv, Sequenced, Overtakes,
        OutOfOrder, Retired;
      RetiredKept(s, run[0], g);
      OrderBreaksExactly(s, run[0], g);
      RetiredStaysInOrder(Apply(s, run[0]), run[1..], g);
    } else {
      var _ := BrokenOrderShows(s, g);
    }
  }

  lemma {:induction false} UnexcusedRun(s: Sys, run: seq<Step>, g: nat)
    requires Reachable(s) && Feasible(s, run) && !Exec(s, run).excused
    ensures NeverOvertaken(s, run, g)
    decreases |run|
  {
    if run != [] {
      ReachableInv(s);
      ReachableStep(s, run[0]);
      ExcusedStays(s, run);
      hide Enabled, Apply, Reachable, PlaceInv, OutcomeInv, OrderInv, SignalInv, WaitInv, Overtakes;
      UnexcusedDrain(s, run[0], g);
      UnexcusedRun(Apply(s, run[0]), run[1..], g);
    }
  }

  /** Without an excuse every generation is delivered in order. */
  lemma UnexcusedOrder(s: Sys, g: nat)
    requires Reachable(s) && !s.excused
    ensures Sequenced(s, g) && !OutOfOrder(s, g)
  {
    var dispatching: bool, run: seq<Step> :| Feasible(Initial(dispatching), run)
        && s == Exec(Initial(dispatching), run);
    NothingQueuedYet(dispatching, g);
    UnexcusedRun(Initial(dispatching), run, g);
    StartsBeforeStops(Initial(dispatching), run, g);
  }

  // ---------------------------------------------------------------- generations

  /** The last generation grows strictly with each fresh start and only then, and it is the
      generation of any Starting, Running or Stopping state. */
  lemma GenerationsGrow(s: Sys, e: Step)
    requires Reachable(s) && Enabled(s, e)
    ensures if StartsAfresh(s, e) then s.inner.lastGeneration < Apply(s, e).inner.lastGeneration == e.options.generation
            else Apply(s, e).inner.lastGeneration == s.inner.lastGeneration
    ensures Owned(s.inner.state) ==> Owns(s.inner.state, s.inner.lastGeneration)
  {
    ReachableInv(s);
    OwnerKept(s, e);
  }

  /** A stop for an older generation is accepted and changes no state; a stop for a newer one is refused. */
  lemma StaleAndFutureStops(s: Sys, call: nat, g: nat)
    requires Reachable(s) && Enabled(s, CallStop(call, g)) && !s.poisoned && !s.inner.state.Failed?
    ensures var s' := Apply(s, CallStop(call, g));
            && (g < s.inner.lastGeneration || (g == s.inner.lastGeneration && s.inner.state.Stopped?) ==>
                  s'.inner == s.inner && call in s'.accepted
                      && Todo(s', Caller(call)) == [Queue(Item(Completion(call, StopCall, g), StoppedEvent(g), false))])
            && (g > s.inner.lastGeneration ==> s'.inner == s.inner && call in s'.refused && s'.queue == s.queue)
  {
    ReachableInv(s);
    hide NextGens, ProgressInv, OutcomeInv, SignalInv, OrderInv;
    OwnedLast(s);
  }

  /** A stop is refused exactly by a poisoned or failed controller or for a generation that has
      not begun; and a refused stop of one that has begun leaves the controller failed. */
  lemma StopRefusedExactly(s: Sys, call: nat, g: nat)
    requires Reachable(s) && Enabled(s, CallStop(call, g))
    ensures call in Apply(s, CallStop(call, g)).refused <==>
              s.poisoned || s.inner.state.Failed? || g > s.inner.lastGeneration
    ensures call in Apply(s, CallStop(call, g)).refused && g <= s.inner.lastGeneration ==>
              Apply(s, CallStop(call, g)).inner.state.Failed?
    ensures call in Apply(s, CallStop(call, g)).refused ==>
              Apply(s, CallStop(call, g)).refused[call] ==
                if s.poisoned then Shutdown else if s.inner.state.Failed? then s.inner.state.error else Config
  {
    ReachableInv(s);
    OwnedLast(s);
    hide NextGens, Inv, Reachable, DrainOps;
  }

  /** A poisoned or failed controller refuses every call, keeps refusing, and is failed afterwards. */
  lemma FailedRefuses(s: Sys, e: Step)
    requires Enabled(s, e) && (e.CallStart? || e.CallStop?) && (s.poisoned || s.inner.state.Failed?)
    ensures e.call in Apply(s, e).refused && e.call !in Apply(s, e).accepted && Apply(s, e).inner.state.Failed?
  {
    hide NextGens, DrainOps;
  }

  /** A start that its stop overtakes had been told that it runs, and the controller has failed. */
  lemma OvertakenStartsRan(s: Sys, e: Step, g: nat)
    requires Reachable(s) && Enabled(s, e) && Overtakes(s, e, g)
    ensures g in s.decided && s.decided[g].RunningEvent?
    ensures Apply(s, e).inner.state.Failed?
  {
    ReachableInv(s);
    assert OutOf(s, e).drain.stops != [];
    hide Enabled, Apply, Reachable, PlaceInv, OutcomeInv, OrderInv, SignalInv, WaitInv, Overtakes, OutOf;
    SequencedExactly(s, e, g);
    OvertakenBy(s, e, g);
    OvertakenDecided(s, e, g);
    if s.poisoned { PoisonedDrain(s, e); } else { SpawnFailureFails(s, e.call, g); }
  }

  lemma OvertakenDecided(s: Sys, e: Step, g: nat)
    requires OutcomeInv(s) && Enabled(s, e) && Overtakes(s, e, g)
    ensures g in s.decided && s.decided[g].RunningEvent?
  {
    var i: nat :| StartAt(s, Supervisor(g), i, g);
    assert OpsOk(s.decided, s.todo[Supervisor(g)]);
    assert ItemOk(s.decided, s.todo[Supervisor(g)][i].item);
    hide OutOf, Enabled;
  }

  lemma PoisonedDrain(s: Sys, e: Step)
    requires Enabled(s, e) && s.poisoned && OutOf(s, e).drain.stops != []
    ensures Apply(s, e).inner.state.Failed?
  {
    hide NextGens, DrainOps;
  }

  lemma SpawnFailureFails(s: Sys, call: nat, g: nat)
    requires Enabled(s, FailSpawn(call)) && !s.poisoned && OutOf(s, FailSpawn(call)).drain.stops != []
    ensures Apply(s, FailSpawn(call)).inner.state.Failed?
  {
    hide NextGens, DrainOps;
  }

  /** Every section of every run finds the state that Controller's methods require. */
  lemma ReachableSound(s: Sys)
    requires Reachable(s)
    ensures Sound(s.inner)
  {
    ReachableInv(s);
    assert StateOk(s.inner.state, s.decided) && OwnedBy(s.inner.state, s.inner.lastGeneration);
    hide Inv, Reachable;
  }

  lemma OwnedLast(s: Sys)
    requires Inv(s)
    ensures OwnedBy(s.inner.state, s.inner.lastGeneration)
  {
  }

  lemma FailedStep(s: Sys, e: Step)
    requires Enabled(s, e) && s.inner.state.Failed?
    ensures Apply(s, e).inner.state.Failed? && Apply(s, e).inner.state.error == s.inner.state.error
    ensures s.inner.state.quarantine.Some? ==> Apply(s, e).inner.state.quarantine == s.inner.state.quarantine
  {
    hide NextGens, DrainOps;
  }

  /** Failed is absorbing: the error stays, and a quarantined worker owner is never dropped. */
  lemma {:induction false} FailedForever(s: Sys, run: seq<Step>)
    requires s.inner.state.Failed? && Feasible(s, run)
    ensures var st := Exec(s, run).inner.state;
            && st.Failed? && st.error == s.inner.state.error
            && (s.inner.state.quarantine.Some? ==> st.quarantine == s.inner.state.quarantine)
    decreases |run|
  {
    if run != [] {
      FailedStep(s, run[0]);
      FailedForever(Apply(s, run[0]), run[1..]);
    }
  }

  /** Nobody but the supervisor's owner slot holds the worker, and it is not quarantined yet. */
  predicate InSlot(s: Sys, g: nat)
    requires g in s.gens
  {
    s.gens[g].handle == InOwner && s.gens[g].reaper.NoReaper?
        && !(s.inner.state.Failed? && s.inner.state.quarantine == Some(g))
  }

  /** The end of a generation that still has its worker in its slot cannot quarantine it. */
  predicate LosesWorker(s: Sys, e: Step) {
    && (e.Finish? || e.FailCreation?) && e.g in s.gens && InSlot(s, e.g)
    && (s.poisoned
        || (!Owns(s.inner.state, e.g)
            && (e.Finish? ==> !(s.inner.state.Failed? && s.inner.state.quarantine.None?))))
  }

  /** Exactly when a step loses an unjoined worker: its generation ends with the worker still in
      its slot, and the mutex is poisoned or the state is no longer the generation's and has no
      room for it in its quarantine. */
  lemma WorkerLostExactly(s: Sys, e: Step, g: nat)
    requires Reachable(s) && Enabled(s, e) && g in s.gens && s.gens[g].handle != Lost
    ensures g in Apply(s, e).gens
    ensures Apply(s, e).gens[g].handle == Lost <==> LosesWorker(s, e) && e.g == g
  {
    ReachableInv(s);
    hide Inv, Apply, Enabled, NextGen, Reachable, InSlot, Owns;
    if (e.Finish? || e.FailCreation?) && e.g == g {
      EndLoses(s, e);
      EndGen(s, e);
    } else {
      OthersKeepHandles(s, e, g);
    }
  }

  lemma EndGen(s: Sys, e: Step)
    requires Enabled(s, e) && (e.Finish? || e.FailCreation?)
    ensures e.g in Apply(s, e).gens && Apply(s, e).gens[e.g] == NextGen(s, e)
  {
    hide NextGen, OutOf;
  }

  predicate Quarantines(st: State, g: nat) {
    st.Failed? && st.quarantine == Some(g)
  }

  /** The ending section quarantines a worker left in its slot if the state is still the
      generation's, or has failed with an empty quarantine. */
  lemma EndQuarantines(st: State, gen: Gen, exit: Exit, code: Code)
    requires GenPartsOk(gen) && gen.handle == InOwner && gen.reaper.NoReaper?
              && !Quarantines(st, gen.options.generation)
    ensures gen.sup.AtFinish? ==> gen.sup.keepsOwner
    ensures gen.sup.AtCreationFailure? ==> gen.sup.terminal
    ensures gen.sup.AtFinish? && gen.sup.exit == exit ==>
              Quarantines(FinishSection(st, gen.options.generation, exit, Some(gen.options.generation)).0,
                  gen.options.generation)
              == ((Owns(st, gen.options.generation) && !st.Starting?) || (st.Failed? && st.quarantine.None?))
    ensures gen.sup.AtCreationFailure? ==>
              Quarantines(CreationFailureSection(st, gen.options.generation, code, true,
                  Some(gen.options.generation)).0, gen.options.generation)
              == (Owns(st, gen.options.generation) && !st.Running?)
  {
  }

  lemma PoisonQuarantines(inner: Inner, g: nat)
    ensures Quarantines(RecoverSection(inner).0, g) <==> Quarantines(inner.state, g)
  {
  }

  /** At the end of its generation the state is not Starting for finish_worker and not Running
      for finish_creation_failure. */
  lemma EndPlaces(s: Sys, e: Step)
    requires Inv(s) && Enabled(s, e) && (e.Finish? || e.FailCreation?)
    ensures s.gens[e.g].options.generation == e.g && GenPartsOk(s.gens[e.g])
    ensures Owns(s.inner.state, e.g) ==>
              (e.Finish? ==> !s.inner.state.Starting?) && (e.FailCreation? ==> !s.inner.state.Running?)
  {
    PartsAt(s, e.g);
    assert PlaceOk(s.inner.state, s.inner.lastGeneration, s.excused, CallerAt(s, s.gens[e.g].starter), s.gens[e.g]);
    hide CustodyInv, WaitInv, OutcomeInv, SignalInv, OrderInv, GenPartsOk, CallersOk, PartsOk;
  }

  lemma EndLoses(s: Sys, e: Step)
    requires Inv(s) && Enabled(s, e) && (e.Finish? || e.FailCreation?) && s.gens[e.g].handle != Lost
    ensures NextGen(s, e).handle == Lost <==> LosesWorker(s, e)
  {
    hide Inv, GenPartsOk;
    EndPlaces(s, e);
    var gen := s.gens[e.g];
    hide Owns;
    if gen.handle == InOwner && gen.reaper.NoReaper? && !Quarantines(s.inner.state, e.g) {
      PoisonQuarantines(s.inner, e.g);
      if e.Finish? {
        EndQuarantines(s.inner.state, gen, gen.sup.exit, Shutdown);
      } else {
        EndQuarantines(s.inner.state, gen, Clean, gen.sup.code);
      }
    }
    hide RecoverSection, FinishSection, CreationFailureSection;
  }

  lemma OthersKeepHandles(s: Sys, e: Step, g: nat)
    requires Inv(s) && Enabled(s, e) && e != Finish(g) && e != FailCreation(g) && g in s.gens
              && s.gens[g].handle != Lost
    ensures g in Apply(s, e).gens && Apply(s, e).gens[g].handle != Lost
  {
    hide Inv, Apply, Enabled, NextGen;
    GenAfter(s, e, g);
    if IsGenStep(e) && e.g == g { NextGenStays(s, e); }
  }

  /** In the Failed state an unjoined worker that was not lost is in quarantine, with its reaper,
      or still with a supervisor that has not ended. */
  lemma FailedAccountsForWorkers(s: Sys, g: nat)
    requires Reachable(s) && s.inner.state.Failed? && g in s.gens && Unjoined(s.gens[g])
    ensures s.gens[g].handle == Lost || !s.gens[g].reaper.NoReaper? || s.inner.state.quarantine == Some(g)
              || Pending(s.gens[g].sup)
  {
    ReachableInv(s);
    PartsAt(s, g);
    assert PlaceOk(s.inner.state, s.inner.lastGeneration, s.excused, CallerAt(s, s.gens[g].starter), s.gens[g]);
    hide CustodyInv, WaitInv, OutcomeInv, SignalInv, OrderInv;
  }

  /** Without an excuse no step loses a worker. */
  lemma NothingLost(s: Sys, e: Step)
    requires Reachable(s) && Enabled(s, e) && !s.excused
    ensures !LosesWorker(s, e)
  {
    ReachableInv(s);
    if e.Finish? || e.FailCreation? { StillOwned(s, e.g); }
    hide CustodyInv, WaitInv, OutcomeInv, SignalInv, OrderInv, PartsOk, CallersOk, PlacesOk;
  }

  lemma {:induction false} NeverLost(s: Sys, run: seq<Step>, g: nat)
    requires Reachable(s) && Feasible(s, run) && !Exec(s, run).excused
    requires g in s.gens ==> s.gens[g].handle != Lost
    ensures g in Exec(s, run).gens ==> Exec(s, run).gens[g].handle != Lost
    decreases |run|
  {
    if run != [] {
      var e, t := run[0], Apply(s, run[0]);
      ReachableStep(s, e);
      ExcusedStays(t, run[1..]);
      ExcusedGrows(s, e);
      NothingLost(s, e);
      if g in s.gens { WorkerLostExactly(s, e, g); } else if g in t.gens { NewHandle(s, e, g); }
      hide Enabled, Apply, Reachable, LosesWorker;
      NeverLost(t, run[1..], g);
    }
  }

  lemma NewHandle(s: Sys, e: Step, g: nat)
    requires Enabled(s, e) && g !in s.gens && g in Apply(s, e).gens
    ensures Apply(s, e).gens[g].handle == NoHandle
  {
    hide OutOf, NextGen, OpGen;
  }

  lemma {:induction false} ExcusedStays(s: Sys, run: seq<Step>)
    requires Feasible(s, run)
    ensures s.excused ==> Exec(s, run).excused
    decreases |run|
  {
    if run != [] {
      ExcusedGrows(s, run[0]);
      hide Enabled, Apply;
      ExcusedStays(Apply(s, run[0]), run[1..]);
    }
  }

  /** So in every run without an excuse the Failed state keeps every unjoined worker, in its
      quarantine or with its reaper. */
  lemma FailedKeepsWorkers(s: Sys, g: nat)
    requires Reachable(s) && !s.excused && s.inner.state.Failed? && g in s.gens && Unjoined(s.gens[g])
    ensures !s.gens[g].reaper.NoReaper? || s.inner.state.quarantine == Some(g)
  {
    var dispatching: bool, run: seq<Step> :| Feasible(Initial(dispatching), run)
        && s == Exec(Initial(dispatching), run);
    assert Reachable(Initial(dispatching)) by {
      assert Feasible(Initial(dispatching), []) && Exec(Initial(dispatching), []) == Initial(dispatching);
    }
    NeverLost(Initial(dispatching), run, g);
    FailedAccountsForWorkers(s, g);
    FailedIsRetired(s, g);
  }

  lemma FailedIsRetired(s: Sys, g: nat)
    requires Reachable(s) && !s.excused && s.inner.state.Failed? && g in s.gens
    ensures !Pending(s.gens[g].sup)
  {
    ReachableInv(s);
    assert PlaceOk(s.inner.state, s.inner.lastGeneration, s.excused, CallerAt(s, s.gens[g].starter), s.gens[g]);
    hide CustodyInv, WaitInv, OutcomeInv, SignalInv, OrderInv;
  }
}
