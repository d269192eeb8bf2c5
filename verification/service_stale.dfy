/** Stale stops. A supervisor that retires its generation unlocks before it queues what it has
    drained; a stop of the same generation that is called in between finds it over, is accepted at
    once and queued by its caller, and so can get ahead of a gathered start. */
module ServiceStale {
  import opened Optional
  import opened ServiceCore
  import opened ServiceWorker
  import opened ServiceProtocol
  import opened ServiceParts
  import opened ServicePlace
  import opened ServiceCustody
  import opened ServiceOutcome
  import opened ServiceSignals
  import opened ServiceOrder
  import opened ServiceProgress
  import opened ServiceTheorems

  /** A stop of `g` that was never held in the state. */
  predicate StaleStop(item: Item, g: nat) {
    !item.stored && item.completion.kind.StopCall? && item.completion.generation == g
  }

  predicate StaleIn(ops: seq<Op>, i: nat, g: nat) {
    i < |ops| && ops[i].Queue? && StaleStop(ops[i].item, g)
  }

  predicate StaleAt(s: Sys, t: Thread, i: nat, g: nat) {
    StaleIn(Todo(s, t), i, g)
  }

  predicate QueuedStale(s: Sys, j: nat, g: nat) {
    j < |s.queue| && StaleStop(s.queue[j], g)
  }

  /** The call stops a generation that is over: it is accepted, and its caller queues its answer. */
  predicate StaleCall(s: Sys, e: Step) {
    e.CallStop? && !s.poisoned && StopSection(s.inner, e.generation,
        Completion(e.call, StopCall, e.generation)).1.Stale?
  }

  /** Some thread still has a gathered start of `g` to queue. */
  ghost predicate StartInHand(s: Sys, g: nat) {
    exists t: Thread, i: nat :: StartAt(s, t, i, g)
  }

  /** The step lets a stale stop of `g` get ahead of a gathered start. */
  ghost predicate Passes(s: Sys, e: Step, g: nat) {
    StaleCall(s, e) && e.generation == g && StartInHand(s, g)
  }

  /** No stale stop of `g` is, or can get, ahead of a gathered start. */
  ghost predicate Unpassed(s: Sys, g: nat) {
    && (forall t: Thread, i: nat, u: Thread, k: nat :: StartAt(s, t, i, g) ==> !StaleAt(s, u, k, g))
    && (forall t: Thread, i: nat, j: nat :: StartAt(s, t, i, g) ==> !QueuedStale(s, j, g))
    && (forall j: nat, k: nat :: QueuedStale(s, j, g) && QueuedStart(s, k, g) ==> k < j)
  }

  /** Stale stops are of retired generations, and their callers have nothing else to do. */
  ghost predicate StaleInv(s: Sys) {
    && (forall t: Thread, i: nat, g: nat :: StaleAt(s, t, i, g) ==> Retired(s, g) && |Todo(s, t)| == 1)
    && (forall j: nat, g: nat :: QueuedStale(s, j, g) ==> Retired(s, g))
  }

  // ---------------------------------------------------------------- what a step does to stale stops

  predicate NoStale(ops: seq<Op>) {
    forall i :: 0 <= i < |ops| && ops[i].Queue? ==> ops[i].item.stored || ops[i].item.completion.kind.StartCall?
  }

  lemma StaleAnswer(s: Sys, e: Step)
    requires Enabled(s, e) && StaleCall(s, e)
    ensures OutOf(s, e) == Out(s.inner, OutOf(s, e).own, None, NothingDrained)
    ensures OutOf(s, e).own == Some([Queue(Item(Completion(e.call, StopCall, e.generation),
              StoppedEvent(e.generation), false))])
    ensures Actor(e) == Caller(e.call)
  {
  }

  lemma DrainsNoStale(before: seq<Op>, d: Drain)
    requires NoQueueing(before)
    ensures NoStale(before + DrainOps(d)) && NoStale(before)
  {
  }

  lemma RecoveryNoStale(s: Sys, own: Option<seq<Op>>)
    ensures NoStale(RecoveredOut(s, own).recovery.value)
  {
    var (st, ops, d) := RecoverSection(s.inner);
    DrainsNoStale(ops, d);
    hide DrainOps;
  }

  lemma DecideNoStale(s: Sys, o: Options, report: Outcome)
    ensures DecideOut(s, o, report).own.Some? ==> NoStale(DecideOut(s, o, report).own.value)
  {
    if Usable(report) && MarkRunningSection(s.inner.state, o, report.port).1.Some? {
      var (st, starts) := MarkRunningSection(s.inner.state, o, report.port);
      var d := Drain(starts.value, RunningEvent(o.generation, report.port), [], StoppedEvent(o.generation));
      DrainedNoStale(s, st, d);
    }
    hide DrainOps, MarkRunningSection;
  }

  lemma DrainedNoStale(s: Sys, st: State, d: Drain)
    ensures NoStale(DrainedOut(s, st, d).own.value)
  {
    DrainsNoStale([], d);
    assert [] + DrainOps(d) == DrainOps(d);
  }

  lemma OwnNoStale(s: Sys, e: Step)
    requires Enabled(s, e) && !e.Perform? && !StaleCall(s, e) && OutOf(s, e).own.Some?
    ensures NoStale(OutOf(s, e).own.value)
  {
    hide DrainedOut, DecideOut, EndSection, CreationFailureSection, RecoverSection;
    match e
    case Decide(g) => DecideNoStale(s, s.gens[g].options, s.gens[g].sup.outcome);
    case FailSpawn(call) =>
      var (st, d) := CreationFailureSection(s.inner.state, CallerAt(s, call).generation, CallerAt(s, call).code, true,
          None);
      DrainedNoStale(s, st, d);
    case Finish(g) => DrainedNoStale(s, EndSection(s, s.gens[g]).0, EndSection(s, s.gens[g]).1);
    case FailCreation(g) => DrainedNoStale(s, EndSection(s, s.gens[g]).0, EndSection(s, s.gens[g]).1);
    case _ =>
  }

  lemma RecoveryOf(s: Sys, e: Step)
    requires Enabled(s, e) && OutOf(s, e).recovery.Some?
    ensures OutOf(s, e).recovery == RecoveredOut(s, None).recovery
  {
    hide RecoverSection, DrainOps, EndSection, CreationFailureSection;
  }

  /** Only a stale call adds a stale stop, and a step that performs nothing takes none away. */
  lemma StaleAfter(s: Sys, e: Step, u: Thread, i: nat, h: nat)
    requires KeysOk(s) && Enabled(s, e) && !e.Perform?
    ensures StaleAt(Apply(s, e), u, i, h) <==>
              StaleAt(s, u, i, h) || (StaleCall(s, e) && u == Caller(e.call) && i == 0 && h == e.generation)
    ensures StaleAt(Apply(s, e), u, i, h) ==>
              Todo(Apply(s, e), u) == Todo(s, u) || |Todo(Apply(s, e), u)| == 1
  {
    TodoAfter(s, e, u);
    if OutOf(s, e).own.Some? { ActorIdle(s, e); ActorNames(s, e); }
    if OutOf(s, e).recovery.Some? { RecoveryOf(s, e); RecoveryNoStale(s, None); }
    if StaleCall(s, e) { StaleAnswer(s, e); } else if OutOf(s, e).own.Some? { OwnNoStale(s, e); }
    assert Recoverer(s.recoveries) !in s.todo;
    hide OutOf, Apply, Enabled, StaleCall, RecoveredOut, Actor;
  }

  /** Where a stale stop was before the first operation of `t` was performed. */
  lemma StalePerformed(s: Sys, t: Thread, g: nat)
    requires Enabled(s, Perform(t))
    ensures var s' := Apply(s, Perform(t));
            && (forall u: Thread, i: nat :: StaleAt(s', u, i, g) ==> StaleAt(s, u, if u == t then i + 1 else i, g))
            && (forall j: nat :: QueuedStale(s', j, g) ==>
                 if j < |s.queue| then QueuedStale(s, j, g) else j == |s.queue| && StaleAt(s, t, 0, g))
  {
    PerformLists(s, t);
    hide Apply, Enabled, Todo;
  }

  // ---------------------------------------------------------------- invariant

  lemma StaleIsRetired(s: Sys, e: Step)
    requires PlaceInv(s) && StaleCall(s, e)
    ensures Retired(s, e.generation)
  {
    hide PlacesOk, PartsOk, CallersOk;
  }

  lemma StaleKept(s: Sys, e: Step)
    requires PlaceInv(s) && KeysOk(s) && OutcomeInv(s) && StaleInv(s) && Enabled(s, e)
    ensures StaleInv(Apply(s, e))
  {
    var s' := Apply(s, e);
    hide PlaceInv, KeysOk, OutcomeInv, Enabled, Apply, StaleAt, QueuedStale, Retired;
    forall g: nat | Retired(s, g)
      ensures Retired(s', g)
    {
      RetiredKept(s, e, g);
    }
    forall t: Thread, i: nat, g: nat | StaleAt(s', t, i, g)
      ensures Retired(s', g) && |Todo(s', t)| == 1
    {
      if e.Perform? { StaleStepBack(s, e.thread, t, i, g); } else { StaleStepList(s, e, t, i, g); }
    }
    forall j: nat, g: nat | QueuedStale(s', j, g)
      ensures Retired(s', g)
    {
      if e.Perform? { StalePerformed(s, e.thread, g); } else { QueueStays(s, e, j, g); }
    }
  }

  lemma StaleStepBack(s: Sys, t: Thread, u: Thread, i: nat, g: nat)
    requires StaleInv(s) && Enabled(s, Perform(t)) && StaleAt(Apply(s, Perform(t)), u, i, g)
    ensures u != t && StaleAt(s, u, i, g) && Todo(Apply(s, Perform(t)), u) == Todo(s, u)
  {
    StalePerformed(s, t, g);
    PerformLists(s, t);
    hide Apply, Enabled, Todo;
  }

  lemma StaleStepList(s: Sys, e: Step, u: Thread, i: nat, g: nat)
    requires PlaceInv(s) && KeysOk(s) && StaleInv(s) && Enabled(s, e) && !e.Perform? && StaleAt(Apply(s, e), u, i, g)
    ensures Retired(s, g) && |Todo(Apply(s, e), u)| == 1
  {
    hide PlaceInv, KeysOk, Enabled, Apply, QueuedStale, Retired, StaleCall, Todo;
    StaleAfter(s, e, u, i, g);
    if StaleCall(s, e) { StaleIsRetired(s, e); }
  }

  lemma QueueStays(s: Sys, e: Step, j: nat, g: nat)
    requires Enabled(s, e) && !e.Perform?
    ensures QueuedStale(Apply(s, e), j, g) <==> QueuedStale(s, j, g)
    ensures QueuedStart(Apply(s, e), j, g) <==> QueuedStart(s, j, g)
  {
    SameQueue(s, e);
    hide Apply, Enabled;
  }

  lemma {:induction false} StaleRun(s: Sys, run: seq<Step>)
    requires Inv(s) && StaleInv(s) && Feasible(s, run)
    ensures StaleInv(Exec(s, run))
    decreases |run|
  {
    if run != [] {
      InvKept(s, run[0]);
      hide Enabled, Apply, StaleInv, PlaceInv, OutcomeInv, WaitInv;
      StaleKept(s, run[0]);
      StaleRun(Apply(s, run[0]), run[1..]);
    }
  }

  lemma NothingStaleYet(dispatching: bool)
    ensures StaleInv(Initial(dispatching))
  {
  }

  lemma ReachableStale(s: Sys)
    requires Reachable(s)
    ensures Inv(s) && StaleInv(s)
  {
    var dispatching: bool, run: seq<Step> :| Feasible(Initial(dispatching), run)
        && s == Exec(Initial(dispatching), run);
    hide Inv, StaleInv, Apply, Enabled, Initial;
    InitialInv(dispatching);
    NothingStaleYet(dispatching);
    RunInv(Initial(dispatching), run);
    StaleRun(Initial(dispatching), run);
  }

  // ---------------------------------------------------------------- exactly when a stop gets ahead

  lemma PerformUnpassed(s: Sys, t: Thread, g: nat)
    requires Unpassed(s, g) && Enabled(s, Perform(t))
    ensures Unpassed(Apply(s, Perform(t)), g)
  {
    PerformedFrom(s, t, g);
    StalePerformed(s, t, g);
    hide Apply, Enabled, StartAt, StaleAt;
  }

  /** A gathered start leaves the state only while its generation owns it. */
  lemma StartFromOwner(s: Sys, e: Step, u: Thread, i: nat, g: nat)
    requires PlaceInv(s) && KeysOk(s) && OutcomeInv(s) && Enabled(s, e) && !e.Perform? && StartAt(Apply(s, e), u, i, g)
    ensures StartAt(s, u, i, g) || Owns(s.inner.state, g)
  {
    hide PlaceInv, KeysOk, OutcomeInv, Enabled, OutOf, StartAt, StopAt, QueuedStart, Apply, Taker, Signals;
    Dealing(s, e);
    hide Owns;
  }

  lemma NobodyPasses(s: Sys, e: Step, g: nat)
    requires PlaceInv(s) && KeysOk(s) && OutcomeInv(s) && StaleInv(s) && Enabled(s, e) && !e.Perform?
    requires Unpassed(s, g) && !Passes(s, e, g)
    ensures Unpassed(Apply(s, e), g)
  {
    var s' := Apply(s, e);
    hide PlaceInv, KeysOk, OutcomeInv, Enabled, Apply, StartAt, StaleAt, QueuedStale, QueuedStart, StaleCall;
    forall t: Thread, i: nat | StartAt(s', t, i, g)
      ensures forall u: Thread, k: nat :: !StaleAt(s', u, k, g)
      ensures forall j: nat :: !QueuedStale(s', j, g)
    {
      NewStartAlone(s, e, t, i, g);
    }
    forall j: nat
      ensures QueuedStale(s', j, g) <==> QueuedStale(s, j, g)
      ensures QueuedStart(s', j, g) <==> QueuedStart(s, j, g)
    {
      QueueStays(s, e, j, g);
    }
  }

  lemma NewStartAlone(s: Sys, e: Step, t: Thread, i: nat, g: nat)
    requires PlaceInv(s) && KeysOk(s) && OutcomeInv(s) && StaleInv(s) && Enabled(s, e) && !e.Perform?
    requires Unpassed(s, g) && !Passes(s, e, g) && StartAt(Apply(s, e), t, i, g)
    ensures forall u: Thread, k: nat :: !StaleAt(Apply(s, e), u, k, g)
    ensures forall j: nat :: !QueuedStale(Apply(s, e), j, g)
  {
    hide PlaceInv, KeysOk, OutcomeInv, Enabled, Apply, StartAt, StaleAt, QueuedStale, QueuedStart, StaleCall;
    StartFromOwner(s, e, t, i, g);
    if StaleCall(s, e) { StaleIsRetired(s, e); }
    forall u: Thread, k: nat
      ensures !StaleAt(Apply(s, e), u, k, g)
    {
      StaleAfter(s, e, u, k, g);
    }
    forall j: nat
      ensures !QueuedStale(Apply(s, e), j, g)
    {
      QueueStays(s, e, j, g);
    }
  }

  lemma PassedNow(s: Sys, e: Step, g: nat)
    requires PlaceInv(s) && KeysOk(s) && OutcomeInv(s) && Enabled(s, e) && Passes(s, e, g)
    ensures !Unpassed(Apply(s, e), g)
  {
    var t: Thread, i: nat :| StartAt(s, t, i, g);
    StaleAfter(s, e, Caller(e.call), 0, g);
    StaleAnswer(s, e);
    TodoAfter(s, e, t);
    ActorIdle(s, e);
    hide Enabled, OutOf, Apply, PlaceInv, KeysOk, OutcomeInv;
    assert StartAt(Apply(s, e), t, i, g) && StaleAt(Apply(s, e), Caller(e.call), 0, g);
  }

  /** One step lets a stale stop of `g` get ahead of a gathered start exactly when it is the call of
      that stop, accepted after the generation was retired, while a thread still has to queue the
      start. It needs no poisoned mutex and no panic. */
  lemma StalePassesExactly(s: Sys, e: Step, g: nat)
    requires Reachable(s) && Enabled(s, e) && Unpassed(s, g)
    ensures Unpassed(Apply(s, e), g) <==> !Passes(s, e, g)
  {
    ReachableStale(s);
    hide PlaceInv, OutcomeInv, WaitInv, StaleInv, Enabled, Apply, Unpassed, Passes;
    if Passes(s, e, g) {
      PassedNow(s, e, g);
    } else if e.Perform? {
      PerformUnpassed(s, e.thread, g);
    } else {
      NobodyPasses(s, e, g);
    }
  }

  /** No stop of `g`, held or stale, is or can get ahead of a start that `g` has gathered. */
  ghost predicate InOrder(s: Sys, g: nat) {
    Sequenced(s, g) && Unpassed(s, g)
  }

  /** Taken together: a stop gets ahead of a gathered start in one step exactly when it is a held one
      that another thread drains while the supervisor has the start, or a stale one that is called
      while some thread has it. */
  lemma StopGetsAheadExactly(s: Sys, e: Step, g: nat)
    requires Reachable(s) && Enabled(s, e) && InOrder(s, g)
    ensures InOrder(Apply(s, e), g) <==> !Overtakes(s, e, g) && !Passes(s, e, g)
  {
    OrderBreaksExactly(s, e, g);
    StalePassesExactly(s, e, g);
  }

  // ---------------------------------------------------------------- every run

  ghost predicate NeverAhead(s: Sys, run: seq<Step>, g: nat)
    requires Feasible(s, run)
    decreases |run|
  {
    run == [] || (!Overtakes(s, run[0], g) && !Passes(s, run[0], g) && NeverAhead(Apply(s, run[0]), run[1..], g))
  }

  /** Some stop of `g`, held or stale, was queued before a start that `g` had gathered. */
  ghost predicate StopFirstQueued(s: Sys, g: nat) {
    exists j: nat, k: nat :: (QueuedStop(s, j, g) || QueuedStale(s, j, g)) && QueuedStart(s, k, g) && j < k
  }

  lemma InOrderShows(s: Sys, g: nat)
    requires InOrder(s, g)
    ensures !StopFirstQueued(s, g)
  {
    var _ := BrokenOrderShows(s, g);
    hide QueuedStop, QueuedStart, QueuedStale;
  }

  /** In every run without such a step all stops of `g` are queued after the starts it gathered. */
  lemma {:induction false} StopsStayBehind(s: Sys, run: seq<Step>, g: nat)
    requires Reachable(s) && Feasible(s, run) && InOrder(s, g) && NeverAhead(s, run, g)
    ensures InOrder(Exec(s, run), g) && !StopFirstQueued(Exec(s, run), g)
    decreases |run|
  {
    if run != [] {
      StopGetsAheadExactly(s, run[0], g);
      ReachableStep(s, run[0]);
      hide Enabled, Apply, Reachable, InOrder, Overtakes, Passes, StopFirstQueued;
      StopsStayBehind(Apply(s, run[0]), run[1..], g);
    } else {
      InOrderShows(s, g);
    }
  }

  lemma LastsAreOutOfOrder(s: Sys, s': Sys, stop: Item, start: Item, g: nat)
    requires s.queue <= s'.queue && |s.queue| < |s'.queue| && s.queue != []
    requires s.queue[|s.queue| - 1] == stop && StaleStop(stop, g)
    requires s'.queue[|s'.queue| - 1] == start && HeldStart(start, g)
    ensures StopFirstQueued(s', g)
  {
    assert QueuedStale(s', |s.queue| - 1, g) && QueuedStart(s', |s'.queue| - 1, g);
  }

  lemma StaleThenStart(s: Sys, u: Thread, k: nat, t: Thread, i: nat, g: nat) returns (run: seq<Step>)
    requires StaleInv(s) && StaleAt(s, u, k, g) && StartAt(s, t, i, g)
    ensures Feasible(s, run) && StopFirstQueued(Exec(s, run), g)
    ensures forall n :: 0 <= n < |run| ==> run[n].Perform?
  {
    assert u != t && k == 0;
    hide Apply, Enabled, StaleInv;
    PerformRun(s, u, 1);
    var before, after := Repeat(Perform(u), 1), Repeat(Perform(t), i + 1);
    var s1 := Exec(s, before);
    assert Todo(s1, t) == Todo(s, t) && s1.queue[|s1.queue| - 1] == Todo(s, u)[0].item;
    PerformRun(s1, t, i + 1);
    ExecConcat(s, before, after);
    run := before + after;
    LastsAreOutOfOrder(s1, Exec(s, run), Todo(s, u)[0].item, Todo(s, t)[i].item, g);
  }

  /** After such a step the threads need only go on with their lists, and the stop is queued before
      the start. */
  lemma PassedReorders(s: Sys, e: Step, g: nat) returns (run: seq<Step>)
    requires Reachable(s) && Enabled(s, e) && Passes(s, e, g)
    ensures Feasible(Apply(s, e), run) && StopFirstQueued(Exec(Apply(s, e), run), g)
    ensures forall n :: 0 <= n < |run| ==> run[n].Perform?
  {
    ReachableStep(s, e);
    ReachableStale(s);
    ReachableStale(Apply(s, e));
    hide PlaceInv, OutcomeInv, WaitInv, StaleInv, Reachable;
    StaleAfter(s, e, Caller(e.call), 0, g);
    var t: Thread, i: nat :| StartAt(s, t, i, g);
    StaleAnswer(s, e);
    TodoAfter(s, e, t);
    ActorIdle(s, e);
    hide Enabled, OutOf, Apply;
    assert StartAt(Apply(s, e), t, i, g);
    run := StaleThenStart(Apply(s, e), Caller(e.call), 0, t, i, g);
  }

  // ---------------------------------------------------------------- what the passed start hears

  /** A start in hand that was told Running belongs to the current generation, or the controller has
      failed. */
  ghost predicate HandInv(s: Sys) {
    forall t: Thread, i: nat, g: nat :: StartAt(s, t, i, g) ==>
      Owns(s.inner.state, g) || s.inner.state.Failed? || (g in s.decided && s.decided[g].FailedEvent?)
  }

  lemma RunningDrainOwns(s: Sys, e: Step)
    requires Enabled(s, e) && OutOf(s, e).drain.starts != [] && OutOf(s, e).drain.startEvent.RunningEvent?
    ensures Owns(OutOf(s, e).inner.state, OutOf(s, e).drain.startEvent.generation)
  {
  }

  /** Short of a failure only its own supervisor's end takes the state from a generation. */
  lemma WhoRetires(s: Sys, e: Step, g: nat)
    requires PlaceInv(s) && Enabled(s, e) && Owns(s.inner.state, g) && !Owns(OutOf(s, e).inner.state, g)
    requires !OutOf(s, e).inner.state.Failed?
    ensures (e.Finish? || e.FailCreation?) && e.g == g && Todo(s, Supervisor(g)) == []
  {
    if e.Finish? || e.FailCreation? {
      EndTakes(s, e, g);
      assert s.gens[e.g].options.generation == e.g;
    } else if e.CallStart? || e.CallStop? {
      CallsLeaveOwner(s, e, g);
    } else {
      OthersLeaveOwner(s, e, g);
    }
    hide PlaceInv, OutOf, Owns;
  }

  lemma EndTakes(s: Sys, e: Step, g: nat)
    requires Enabled(s, e) && (e.Finish? || e.FailCreation?) && Owns(s.inner.state, g)
    ensures Owns(OutOf(s, e).inner.state, g) || OutOf(s, e).inner.state.Failed? || s.gens[e.g].options.generation == g
  {
    hide DrainOps;
  }

  lemma CallsLeaveOwner(s: Sys, e: Step, g: nat)
    requires Enabled(s, e) && (e.CallStart? || e.CallStop?) && Owns(s.inner.state, g)
    ensures Owns(OutOf(s, e).inner.state, g) || OutOf(s, e).inner.state.Failed?
  {
    hide DrainOps;
  }

  lemma OthersLeaveOwner(s: Sys, e: Step, g: nat)
    requires Enabled(s, e) && !e.Finish? && !e.FailCreation? && !e.CallStart? && !e.CallStop? && Owns(s.inner.state, g)
    ensures Owns(OutOf(s, e).inner.state, g) || OutOf(s, e).inner.state.Failed?
  {
    hide DrainOps;
  }

  lemma FailedStays(s: Sys, e: Step)
    requires Enabled(s, e) && s.inner.state.Failed?
    ensures OutOf(s, e).inner.state.Failed?
  {
    hide DrainOps;
  }

  lemma InnerAfter(s: Sys, e: Step)
    requires Enabled(s, e)
    ensures Apply(s, e).inner == OutOf(s, e).inner && Apply(s, e).decided == NextDecided(s, e)
  {
    hide OutOf, NextGens, Enabled, NextDecided;
  }

  lemma OldStartHears(s: Sys, e: Step, t: Thread, i: nat, g: nat)
    requires Inv(s) && HandInv(s) && Enabled(s, e) && StartAt(s, t, i, g)
    requires Apply(s, e).inner == OutOf(s, e).inner && Extends(s.decided, Apply(s, e).decided)
    ensures var s' := Apply(s, e);
            Owns(s'.inner.state, g) || s'.inner.state.Failed? || (g in s'.decided && s'.decided[g].FailedEvent?)
  {
    hide PlaceInv, Conserved, OutcomeInv, WaitInv, SignalInv, OutOf, Apply, Enabled, Owns;
    if s.inner.state.Failed? { FailedStays(s, e); }
    else if Owns(s.inner.state, g) && !Owns(OutOf(s, e).inner.state, g) && !OutOf(s, e).inner.state.Failed? {
      WhoRetires(s, e, g);
    }
  }

  lemma NewStartHears(s: Sys, e: Step, t: Thread, i: nat, g: nat)
    requires Inv(s) && Enabled(s, e) && !e.Perform? && !StartAt(s, t, i, g) && StartAt(Apply(s, e), t, i, g)
    ensures var s' := Apply(s, e);
            Owns(s'.inner.state, g) || (g in s'.decided && s'.decided[g].FailedEvent?)
  {
    hide PlaceInv, Conserved, OutcomeInv, WaitInv, SignalInv, OrderInv, OutOf, Apply, Enabled, StartAt, Taker, Signals;
    InnerAfter(s, e);
    Dealing(s, e);
    OwnerIsBelow(s);
    OutcomeKept(s, e);
    DrainedEvent(s, e);
    var d := OutOf(s, e).drain;
    assert d.starts != [] && g == d.startEvent.generation;
    if d.startEvent.RunningEvent? { RunningDrainOwns(s, e); }
  }

  lemma DrainedEvent(s: Sys, e: Step)
    requires OutcomeInv(s) && OwnerBelow(s.inner.state, s.inner.lastGeneration) && Enabled(s, e)
    ensures OutOf(s, e).drain.starts != [] ==> !OutOf(s, e).drain.startEvent.StoppedEvent?
  {
    OutOfOk(s, e);
    hide OutOf, Enabled, StateOk, DrainOk, OpsOk, OutcomeInv;
  }

  lemma HandKept(s: Sys, e: Step)
    requires Inv(s) && HandInv(s) && Enabled(s, e)
    ensures HandInv(Apply(s, e))
  {
    var s' := Apply(s, e);
    hide PlaceInv, Conserved, OutcomeInv, WaitInv, SignalInv, OrderInv, HandInv, OutOf, Apply, Enabled, StartAt;
    InnerAfter(s, e);
    OwnerIsBelow(s);
    OutcomeKept(s, e);
    forall t: Thread, i: nat, g: nat | StartAt(s', t, i, g)
      ensures Owns(s'.inner.state, g) || s'.inner.state.Failed? || (g in s'.decided && s'.decided[g].FailedEvent?)
    {
      if e.Perform? {
        PerformedFrom(s, e.thread, g);
        OldStartHears(s, e, t, if t == e.thread then i + 1 else i, g);
      } else if StartAt(s, t, i, g) {
        OldStartHears(s, e, t, i, g);
      } else {
        NewStartHears(s, e, t, i, g);
      }
    }
    assert HandInv(s') by { HandOf(s'); }
  }

  lemma HandOf(s: Sys)
    requires forall t: Thread, i: nat, g: nat :: StartAt(s, t, i, g) ==>
      Owns(s.inner.state, g) || s.inner.state.Failed? || (g in s.decided && s.decided[g].FailedEvent?)
    ensures HandInv(s)
  {
  }

  lemma {:induction false} HandRun(s: Sys, run: seq<Step>)
    requires Inv(s) && HandInv(s) && Feasible(s, run)
    ensures HandInv(Exec(s, run))
    decreases |run|
  {
    if run != [] {
      hide Enabled, Apply, Inv, HandInv;
      InvKept(s, run[0]);
      HandKept(s, run[0]);
      HandRun(Apply(s, run[0]), run[1..]);
    }
  }

  lemma ReachableHand(s: Sys)
    requires Reachable(s)
    ensures Inv(s) && HandInv(s)
  {
    var dispatching: bool, run: seq<Step> :| Feasible(Initial(dispatching), run)
        && s == Exec(Initial(dispatching), run);
    assert HandInv(Initial(dispatching));
    hide Inv, HandInv, Apply, Enabled, Initial;
    InitialInv(dispatching);
    RunInv(Initial(dispatching), run);
    HandRun(Initial(dispatching), run);
  }

  /** The start that a stale stop passes has failed: its event is drawn already, and it is a failure. */
  lemma PassedStartsFail(s: Sys, e: Step, g: nat, t: Thread, i: nat)
    requires Reachable(s) && Passes(s, e, g) && StartAt(s, t, i, g)
    ensures i < |Todo(s, t)| && Todo(s, t)[i].Queue? && Todo(s, t)[i].item.event.FailedEvent?
    ensures !s.inner.state.Failed? && !s.poisoned
  {
    ReachableHand(s);
    StaleIsRetired(s, e);
    assert ItemOk(s.decided, s.todo[t][i].item) by { assert OpsOk(s.decided, s.todo[t]); }
    hide PlaceInv, Conserved, WaitInv, SignalInv, OrderInv, Reachable;
  }

  // ---------------------------------------------------------------- a stopped generation is over

  /** The generation accepts starts. */
  predicate Open(st: State, g: nat) {
    (st.Starting? || st.Running?) && st.options.generation == g
  }

  /** No generation whose stop was accepted is open any more. */
  predicate StoppedInv(s: Sys) {
    forall call :: call in s.accepted && s.accepted[call].kind.StopCall? ==>
      s.accepted[call].generation <= s.inner.lastGeneration && !Open(s.inner.state, s.accepted[call].generation)
  }

  lemma NotReopened(s: Sys, e: Step, g: nat)
    requires Enabled(s, e) && g <= s.inner.lastGeneration && !Open(s.inner.state, g)
    ensures g <= OutOf(s, e).inner.lastGeneration && !Open(OutOf(s, e).inner.state, g)
  {
    hide DrainOps;
  }

  lemma StopCloses(s: Sys, e: Step)
    requires PlaceInv(s) && Enabled(s, e) && AcceptedBy(s, e).Some? && AcceptedBy(s, e).value.kind.StopCall?
    ensures var g := AcceptedBy(s, e).value.generation;
            g <= OutOf(s, e).inner.lastGeneration && !Open(OutOf(s, e).inner.state, g)
  {
    hide PlacesOk, PartsOk, CallersOk;
  }

  lemma StoppedKept(s: Sys, e: Step)
    requires PlaceInv(s) && StoppedInv(s) && Enabled(s, e)
    ensures StoppedInv(Apply(s, e))
  {
    var s' := Apply(s, e);
    hide PlaceInv, Enabled, OutOf, Apply, Open;
    InnerAfter(s, e);
    AcceptedAfter(s, e);
    forall call | call in s'.accepted && s'.accepted[call].kind.StopCall?
      ensures s'.accepted[call].generation <= s'.inner.lastGeneration
      ensures !Open(s'.inner.state, s'.accepted[call].generation)
    {
      if AcceptedBy(s, e).Some? && call == AcceptedBy(s, e).value.call {
        StopCloses(s, e);
      } else {
        NotReopened(s, e, s.accepted[call].generation);
      }
    }
  }

  lemma AcceptedAfter(s: Sys, e: Step)
    requires Enabled(s, e)
    ensures Apply(s, e).accepted == NextAccepted(s, e)
  {
    hide OutOf, NextGens, Enabled, NextAccepted;
  }

  lemma {:induction false} StoppedRun(s: Sys, run: seq<Step>)
    requires Inv(s) && StoppedInv(s) && Feasible(s, run)
    ensures StoppedInv(Exec(s, run))
    decreases |run|
  {
    if run != [] {
      hide Enabled, Apply, StoppedInv, PlaceInv;
      InvKept(s, run[0]);
      StoppedKept(s, run[0]);
      StoppedRun(Apply(s, run[0]), run[1..]);
    }
  }

  /** Once a stop of a generation has been accepted, every start of it is refused. */
  lemma StoppedNeverRestarts(s: Sys, stop: nat, call: nat, o: Options)
    requires Reachable(s) && Enabled(s, CallStart(call, o))
    requires stop in s.accepted && s.accepted[stop].kind.StopCall? && s.accepted[stop].generation == o.generation
    ensures call in Apply(s, CallStart(call, o)).refused && call !in Apply(s, CallStart(call, o)).accepted
  {
    var dispatching: bool, run: seq<Step> :| Feasible(Initial(dispatching), run)
        && s == Exec(Initial(dispatching), run);
    InitialInv(dispatching);
    StoppedRun(Initial(dispatching), run);
    ReachableInv(s);
    hide Reachable, Inv;
    ClosedRefuses(s, call, o);
  }

  lemma ClosedRefuses(s: Sys, call: nat, o: Options)
    requires Enabled(s, CallStart(call, o)) && !Open(s.inner.state, o.generation)
    requires o.generation <= s.inner.lastGeneration
    ensures call in Apply(s, CallStart(call, o)).refused && call !in Apply(s, CallStart(call, o)).accepted
  {
    hide NextGens;
  }
}
