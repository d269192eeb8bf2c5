/** How a generation ends, and that everybody who waited for the end is told so: its held stops, and
    the starts it never served. */
module ServiceEndings {
  import opened Optional
  import opened ServiceCore
  import opened ServiceProtocol
  import opened ServiceParts
  import opened ServicePlace
  import opened ServiceCustody
  import opened ServiceOutcome
  import opened ServiceSignals
  import opened ServiceOrder
  import opened ServiceProgress
  import opened ServiceTheorems

  // ---------------------------------------------------------------- one ending

  /** The error that the controller has failed with, if it has failed. */
  function ErrorOf(st: State): Option<Code> {
    if st.Failed? then Some(st.error) else None
  }

  /** What a stop hears of an ending: that the generation has stopped, or what the controller failed with. */
  function StopHears(g: nat, ending: Option<Code>): Event {
    if ending.None? then StoppedEvent(g) else FailedEvent(g, ending.value)
  }

  /** The step takes the state from the generation. */
  predicate Retires(s: Sys, e: Step, g: nat)
    requires Enabled(s, e)
  {
    Owns(s.inner.state, g) && !Owns(Apply(s, e).inner.state, g)
  }

  /** The section's drain, in terms of the state it leaves. */
  predicate DrainTells(st: State, st': State, d: Drain) {
    var g := d.startEvent.generation;
    && (d.stops != [] ==> d.stopEvent == StopHears(g, ErrorOf(st')) && (st'.Stopped? || st'.Failed?))
    && (d.starts != [] ==>
         || d.startEvent.RunningEvent?
         || (d.startEvent.FailedEvent? && (st'.Stopped? || st'.Failed?)
             && (st'.Failed? ==> d.startEvent == FailedEvent(g, st'.error))))
  }

  lemma RecoveryTells(inner: Inner)
    ensures var (st, _, d) := RecoverSection(inner); DrainTells(inner.state, st, d)
  {
  }

  lemma EndTells(s: Sys, gen: Gen)
    requires gen.sup.AtFinish? || gen.sup.AtCreationFailure?
    ensures var (st, d) := EndSection(s, gen); DrainTells(s.inner.state, st, d)
  {
  }

  lemma FailureTells(st: State, g: nat, code: Code)
    ensures var (st', d) := CreationFailureSection(st, g, code, true, None); DrainTells(st, st', d)
  {
  }

  lemma SectionTells(s: Sys, e: Step)
    requires Enabled(s, e)
    ensures DrainTells(s.inner.state, OutOf(s, e).inner.state, OutOf(s, e).drain)
  {
    hide DrainTells, RecoverSection, EndSection, CreationFailureSection, DrainOps;
    RecoveryTells(s.inner);
    match e
    case Finish(g) => EndTells(s, s.gens[g]);
    case FailCreation(g) => EndTells(s, s.gens[g]);
    case FailSpawn(call) => FailureTells(s.inner.state, CallerAt(s, call).generation, CallerAt(s, call).code);
    case Decide(g) => MarkTells(s, s.gens[g].options, s.gens[g].sup.outcome);
    case _ => NothingTells(s.inner.state, OutOf(s, e).inner.state);
  }

  lemma NothingTells(st: State, st': State)
    ensures DrainTells(st, st', NothingDrained)
  {
  }

  lemma MarkTells(s: Sys, o: Options, report: Outcome)
    ensures DrainTells(s.inner.state, DecideOut(s, o, report).inner.state, DecideOut(s, o, report).drain)
  {
    RecoveryTells(s.inner);
    hide RecoverSection;
  }

  /** A section that hands out a stop, or a start that failed, retires the generation. */
  lemma TellingRetires(s: Sys, e: Step)
    requires PlaceInv(s) && OutcomeInv(s) && Enabled(s, e) && !e.Perform?
    ensures var d := OutOf(s, e).drain;
            d.stops != [] || (d.starts != [] && d.startEvent.FailedEvent?) ==>
              Retires(s, e, d.startEvent.generation) && d.startEvent.generation == s.inner.lastGeneration
  {
    hide PlaceInv, OutcomeInv, Enabled, OutOf, ListsShape, OwnerBelow, NextGens, Apply, Owns;
    StepShape(s, e);
    SectionTells(s, e);
    StateAfter(s, e);
    var g := OutOf(s, e).drain.startEvent.generation;
    if Owns(s.inner.state, g) { OwnedIsLast(s, g); }
    FailedStartsRetire(s, e);
  }

  lemma FailedStartsRetire(s: Sys, e: Step)
    requires Enabled(s, e)
    ensures var d, st' := OutOf(s, e).drain, OutOf(s, e).inner.state;
            st'.Stopped? || st'.Failed? ==> !Owns(st', d.startEvent.generation)
  {
    hide OutOf, Enabled;
  }

  lemma OwnedIsLast(s: Sys, g: nat)
    requires PlaceInv(s) && Owns(s.inner.state, g)
    ensures g == s.inner.lastGeneration
  {
    hide PartsOk, PlacesOk, CallersOk;
  }

  // ---------------------------------------------------------------- exactly how it ends

  /** The service had been marked running. */
  predicate Ran(s: Sys, g: nat) {
    g in s.decided && s.decided[g].RunningEvent?
  }

  /** At the end of a generation that still has the state, the controller fails exactly if the
      generation was not being stopped, was stopped because of a shutdown failure, had been running
      and its worker did not end cleanly, or its worker's end is a shutdown failure; otherwise it
      is Stopped. */
  lemma FinishEnds(s: Sys, g: nat)
    requires Reachable(s) && Enabled(s, Finish(g)) && !s.poisoned && Owns(s.inner.state, g)
    ensures var s', st, exit := Apply(s, Finish(g)), s.inner.state, s.gens[g].sup.exit;
            && (s'.inner.state.Failed? <==>
                 || st.Running? || (st.Stopping? && st.reason == Shutdown)
                 || (Ran(s, g) && exit.Fault?) || exit == Fault(Shutdown))
            && (s'.inner.state.Failed? ==> s'.inner.state.error == Shutdown)
            && (!s'.inner.state.Failed? ==> s'.inner.state.Stopped?)
            && Held(s'.inner.state) == []
  {
    FinishNeverStarting(s, g);
    ReachableInv(s);
    assert s.gens[g].options.generation == g && StateOk(s.inner.state, s.decided);
    hide Inv, Reachable, Enabled, Apply, FinishSection;
    FinishState(s, g);
    FinishCases(s.inner.state, g, s.gens[g].sup.exit, if s.gens[g].sup.keepsOwner then Some(g) else None);
  }

  lemma FinishCases(st: State, g: nat, exit: Exit, quarantine: Option<nat>)
    requires Owns(st, g) && !st.Starting?
    ensures var st' := FinishSection(st, g, exit, quarantine).0;
            && (st'.Failed? <==>
                 || st.Running? || (st.Stopping? && st.reason == Shutdown)
                 || (st.Stopping? && st.wasRunning && exit.Fault?) || exit == Fault(Shutdown))
            && (st'.Failed? ==> st'.error == Shutdown) && (!st'.Failed? ==> st'.Stopped?) && Held(st') == []
  {
  }

  lemma FinishState(s: Sys, g: nat)
    requires Enabled(s, Finish(g)) && !s.poisoned && s.gens[g].options.generation == g
    ensures Apply(s, Finish(g)).inner.state ==
              FinishSection(s.inner.state, g, s.gens[g].sup.exit, if s.gens[g].sup.keepsOwner then Some(g) else None).0
  {
    hide FinishSection, DrainOps, NextGens;
  }

  /** A generation whose worker could not be created ends Failed exactly if that is terminal, with
      that code, and so does one whose supervisor could not be spawned. */
  lemma CreationFailureEnds(s: Sys, g: nat)
    requires Reachable(s) && Enabled(s, FailCreation(g)) && !s.poisoned && Owns(s.inner.state, g)
    ensures var s', sup := Apply(s, FailCreation(g)), s.gens[g].sup;
            s'.inner.state == if sup.terminal then Failed(sup.code, Some(g)) else Stopped
  {
    ReachableInv(s);
    assert s.gens[g].options.generation == g;
    assert PlaceOk(s.inner.state, s.inner.lastGeneration, s.excused, CallerAt(s, s.gens[g].starter), s.gens[g]);
    hide Inv, Reachable, Enabled, Apply, CreationFailureSection;
    CreationState(s, g);
    CreationCases(s.inner.state, g, s.gens[g].sup.code, s.gens[g].sup.terminal);
    hide PlaceOk;
  }

  lemma CreationState(s: Sys, g: nat)
    requires Enabled(s, FailCreation(g)) && !s.poisoned && s.gens[g].options.generation == g
    ensures s.gens[g].sup.AtCreationFailure?
    ensures var sup := s.gens[g].sup;
            Apply(s, FailCreation(g)).inner.state ==
              CreationFailureSection(s.inner.state, g, sup.code, sup.terminal, if sup.terminal then Some(g) else None).0
  {
    hide CreationFailureSection, DrainOps, NextGens;
  }

  lemma CreationCases(st: State, g: nat, code: Code, terminal: bool)
    requires Owns(st, g) && !st.Running?
    ensures CreationFailureSection(st, g, code, terminal, if terminal then Some(g) else None).0
              == if terminal then Failed(code, Some(g)) else Stopped
  {
  }

  lemma SpawnFailureEnds(s: Sys, call: nat)
    requires Reachable(s) && Enabled(s, FailSpawn(call)) && !s.poisoned
    requires Owns(s.inner.state, CallerAt(s, call).generation) && !s.inner.state.Running?
    ensures Apply(s, FailSpawn(call)).inner.state == Failed(CallerAt(s, call).code, None)
  {
    hide Reachable, DrainOps, NextGens;
  }

  /** A start that its generation never served hears why: what the controller failed with, or else
      the reason of the stop or the code of the failed creation. */
  lemma StartsHearWhy(s: Sys, e: Step, t: Thread, i: nat, g: nat)
    requires Reachable(s) && Enabled(s, e) && !e.Perform? && !StartAt(s, t, i, g) && StartAt(Apply(s, e), t, i, g)
    ensures var s', event := Apply(s, e), Todo(Apply(s, e), t)[i].item.event;
            && (s'.inner.state.Running? ==> event == RunningEvent(g, s'.inner.state.port) && e == Decide(g))
            && (s'.inner.state.Failed? ==> event == FailedEvent(g, s'.inner.state.error))
            && (s'.inner.state.Stopped? ==>
                 || (e == Finish(g) && s.inner.state.Stopping? && event == FailedEvent(g, s.inner.state.reason))
                 || (e == FailCreation(g) && event == FailedEvent(g, s.gens[g].sup.code)))
            && (s'.inner.state.Running? || s'.inner.state.Failed? || s'.inner.state.Stopped?)
  {
    ReachableInv(s);
    DrainedStart(s, e, t, i, g);
    SectionTells(s, e);
    StateAfter(s, e);
    assert PlacesOk(s);
    hide Inv, Reachable, Apply, StartAt, PlaceOk, Enabled, OutOf;
    StartedHow(s, e, g);
  }

  lemma StateAfter(s: Sys, e: Step)
    requires Enabled(s, e)
    ensures Apply(s, e).inner == OutOf(s, e).inner
  {
    hide OutOf, NextGens, Enabled;
  }

  /** Which section a drain of starts comes from. */
  lemma StartedHow(s: Sys, e: Step, g: nat)
    requires Enabled(s, e) && PlacesOk(s) && OutOf(s, e).drain.starts != []
              && g == OutOf(s, e).drain.startEvent.generation
    ensures var d, st' := OutOf(s, e).drain, OutOf(s, e).inner.state;
            && (d.startEvent.RunningEvent? ==> st'.Running? && e == Decide(g) && d.startEvent.port == st'.port)
            && (st'.Stopped? ==>
                 || (e == Finish(g) && s.inner.state.Stopping? && d.startEvent == FailedEvent(g, s.inner.state.reason))
                 || (e == FailCreation(g) && d.startEvent == FailedEvent(g, s.gens[g].sup.code)))
            && (st'.Running? ==> d.startEvent.RunningEvent?)
  {
    if e.Decide? { DecidedHow(s, s.gens[e.g].options, s.gens[e.g].sup.outcome);
        assert s.gens[e.g].options.generation == e.g; }
    else if e.Finish? || e.FailCreation? { EndedHow(s, e); assert s.gens[e.g].options.generation == e.g; }
    else { OthersHow(s, e); }
    hide PlacesOk, OutOf;
  }

  lemma DecidedHow(s: Sys, o: Options, report: Outcome)
    requires DecideOut(s, o, report).drain.starts != []
    ensures var d, st' := DecideOut(s, o, report).drain, DecideOut(s, o, report).inner.state;
            && (st'.Failed? || (st'.Running? && d.startEvent == RunningEvent(o.generation, st'.port)))
            && (d.startEvent.RunningEvent? ==> st'.Running?)
  {
  }

  lemma EndedHow(s: Sys, e: Step)
    requires Enabled(s, e) && (e.Finish? || e.FailCreation?) && OutOf(s, e).drain.starts != []
    ensures var d, st', g := OutOf(s, e).drain, OutOf(s, e).inner.state, s.gens[e.g].options.generation;
            && (st'.Failed? || st'.Stopped?) && d.startEvent.FailedEvent?
            && (st'.Stopped? ==>
                 || (e.Finish? && s.inner.state.Stopping? && d.startEvent == FailedEvent(g, s.inner.state.reason))
                 || (e.FailCreation? && d.startEvent == FailedEvent(g, s.gens[e.g].sup.code)))
  {
  }

  lemma OthersHow(s: Sys, e: Step)
    requires Enabled(s, e) && !e.Decide? && !e.Finish? && !e.FailCreation? && OutOf(s, e).drain.starts != []
    ensures OutOf(s, e).inner.state.Failed? && OutOf(s, e).drain.startEvent.FailedEvent?
  {
    hide DrainOps;
  }

  /** A start or stop that is newly in some thread's list was drained, and carries the drain's event. */
  lemma DrainedStart(s: Sys, e: Step, t: Thread, i: nat, g: nat)
    requires Inv(s) && Enabled(s, e) && !e.Perform? && !StartAt(s, t, i, g) && StartAt(Apply(s, e), t, i, g)
    ensures var d := OutOf(s, e).drain;
            d.starts != [] && g == d.startEvent.generation && Todo(Apply(s, e), t)[i].item.event == d.startEvent
  {
    hide PlaceInv, Conserved, OutcomeInv, WaitInv, SignalInv, OrderInv, OutOf, Apply, Enabled, Taker, Signals, DrainOps;
    Dealing(s, e);
    StepShape(s, e);
    ListsAfter(s, e, t);
    var out, n := OutOf(s, e), |Signals(s, OutOf(s, e))|;
    assert t == Taker(s, e) && n <= i < n + |out.drain.starts|;
    DrainItems(Signals(s, out), out.drain, i);
  }

  lemma DrainedStop(s: Sys, e: Step, t: Thread, i: nat, g: nat)
    requires Inv(s) && Enabled(s, e) && !e.Perform? && !StopAt(s, t, i, g) && StopAt(Apply(s, e), t, i, g)
    ensures var d := OutOf(s, e).drain;
            d.stops != [] && g == d.startEvent.generation && Todo(Apply(s, e), t)[i].item.event == d.stopEvent
  {
    hide PlaceInv, Conserved, OutcomeInv, WaitInv, SignalInv, OrderInv, OutOf, Apply, Enabled, Taker, Signals, DrainOps;
    Dealing(s, e);
    StepShape(s, e);
    ListsAfter(s, e, t);
    var out, n := OutOf(s, e), |Signals(s, OutOf(s, e))|;
    assert t == Taker(s, e) && n + |out.drain.starts| <= i < n + |out.drain.starts| + |out.drain.stops|;
    DrainItems(Signals(s, out), out.drain, i);
  }

  lemma DrainItems(before: seq<Op>, d: Drain, i: nat)
    requires |before| <= i < |before| + |d.starts| + |d.stops|
    ensures i < |before + DrainOps(d)| && (before + DrainOps(d))[i].Queue?
    ensures var item := (before + DrainOps(d))[i].item;
            item.event == if i < |before| + |d.starts| then d.startEvent else d.stopEvent
  {
  }

  // ---------------------------------------------------------------- every run

  /** How each retired generation ended. */
  type History = map<nat, Option<Code>>

  /** Notes the ending of a generation when a step takes the state from it. */
  function Note(s: Sys, e: Step, h: History): History
    requires Enabled(s, e)
  {
    if Retires(s, e, s.inner.lastGeneration) then h[s.inner.lastGeneration := ErrorOf(Apply(s, e).inner.state)] else h
  }

  function Recorded(s: Sys, run: seq<Step>, h: History): History
    requires Feasible(s, run)
    decreases |run|
  {
    if run == [] then h else Recorded(Apply(s, run[0]), run[1..], Note(s, run[0], h))
  }

  predicate StopTold(h: History, item: Item, g: nat) {
    g in h && item.event == StopHears(g, h[g])
  }

  predicate StartTold(h: History, item: Item, g: nat) {
    item.event.FailedEvent? ==> g in h && (h[g].Some? ==> item.event == FailedEvent(g, h[g].value))
  }

  /** Whoever has left the state was told how its generation ended. */
  ghost predicate Told(s: Sys, h: History) {
    && (forall t: Thread, i: nat, g: nat :: StopAt(s, t, i, g) ==> StopTold(h, Todo(s, t)[i].item, g))
    && (forall j: nat, g: nat :: QueuedStop(s, j, g) ==> StopTold(h, s.queue[j], g))
    && (forall t: Thread, i: nat, g: nat :: StartAt(s, t, i, g) ==>
         StartTold(h, Todo(s, t)[i].item, g) && (Todo(s, t)[i].item.event.FailedEvent? ==> Retired(s, g)))
    && (forall j: nat, g: nat :: QueuedStart(s, j, g) ==>
         StartTold(h, s.queue[j], g) && (s.queue[j].event.FailedEvent? ==> Retired(s, g)))
  }

  lemma NoteKeeps(s: Sys, e: Step, h: History, g: nat)
    requires Enabled(s, e) && Retired(s, g)
    ensures (g in Note(s, e, h) <==> g in h) && (g in h ==> Note(s, e, h)[g] == h[g])
  {
    hide Apply, Enabled;
  }

  lemma PerformTells(s: Sys, t: Thread, h: History)
    requires Told(s, h) && Enabled(s, Perform(t))
    ensures Told(Apply(s, Perform(t)), h)
  {
    var s' := Apply(s, Perform(t));
    hide Told, Apply, Enabled, Todo, StopTold, StartTold, StopAt, StartAt, QueuedStop, QueuedStart, Retired;
    forall u: Thread, i: nat, g: nat | StopAt(s', u, i, g)
      ensures StopTold(h, Todo(s', u)[i].item, g)
    {
      PerformedListStop(s, t, h, u, i, g);
    }
    forall u: Thread, i: nat, g: nat | StartAt(s', u, i, g)
      ensures StartTold(h, Todo(s', u)[i].item, g) && (Todo(s', u)[i].item.event.FailedEvent? ==> Retired(s', g))
    {
      PerformedListStart(s, t, h, u, i, g);
    }
    forall j: nat, g: nat
      ensures QueuedStop(s', j, g) ==> StopTold(h, s'.queue[j], g)
      ensures QueuedStart(s', j, g) ==>
                StartTold(h, s'.queue[j], g) && (s'.queue[j].event.FailedEvent? ==> Retired(s', g))
    {
      PerformedQueue(s, t, h, j, g);
    }
    TellsAll(s', h);
  }

  lemma TellsAll(s: Sys, h: History)
    requires forall t: Thread, i: nat, g: nat :: StopAt(s, t, i, g) ==> StopTold(h, Todo(s, t)[i].item, g)
    requires forall j: nat, g: nat :: QueuedStop(s, j, g) ==> StopTold(h, s.queue[j], g)
    requires forall t: Thread, i: nat, g: nat :: StartAt(s, t, i, g) ==>
      StartTold(h, Todo(s, t)[i].item, g) && (Todo(s, t)[i].item.event.FailedEvent? ==> Retired(s, g))
    requires forall j: nat, g: nat :: QueuedStart(s, j, g) ==>
      StartTold(h, s.queue[j], g) && (s.queue[j].event.FailedEvent? ==> Retired(s, g))
    ensures Told(s, h)
  {
    hide StopTold, StartTold, Retired, StopAt, StartAt, QueuedStop, QueuedStart, Todo;
  }

  lemma PerformedListStop(s: Sys, t: Thread, h: History, u: Thread, i: nat, g: nat)
    requires Told(s, h) && Enabled(s, Perform(t)) && StopAt(Apply(s, Perform(t)), u, i, g)
    ensures StopTold(h, Todo(Apply(s, Perform(t)), u)[i].item, g)
  {
    PerformLists(s, t);
    hide Apply, Enabled, Todo, StopTold, StartTold, Retired;
    assert StopAt(s, u, if u == t then i + 1 else i, g);
  }

  lemma PerformedListStart(s: Sys, t: Thread, h: History, u: Thread, i: nat, g: nat)
    requires Told(s, h) && Enabled(s, Perform(t)) && StartAt(Apply(s, Perform(t)), u, i, g)
    ensures var s', item := Apply(s, Perform(t)), Todo(Apply(s, Perform(t)), u)[i].item;
            StartTold(h, item, g) && (item.event.FailedEvent? ==> Retired(s', g))
  {
    PerformLists(s, t);
    assert Retired(Apply(s, Perform(t)), g) <==> Retired(s, g);
    hide Apply, Enabled, Todo, StopTold, StartTold, Retired;
    assert StartAt(s, u, if u == t then i + 1 else i, g);
  }

  lemma PerformedQueue(s: Sys, t: Thread, h: History, j: nat, g: nat)
    requires Told(s, h) && Enabled(s, Perform(t))
    ensures var s' := Apply(s, Perform(t));
            && (QueuedStop(s', j, g) ==> StopTold(h, s'.queue[j], g))
            && (QueuedStart(s', j, g) ==>
                 StartTold(h, s'.queue[j], g) && (s'.queue[j].event.FailedEvent? ==> Retired(s', g)))
  {
    PerformLists(s, t);
    assert Retired(Apply(s, Perform(t)), g) <==> Retired(s, g);
    hide Apply, Enabled, Todo, StopTold, StartTold, Retired;
    if j < |s.queue| {
      assert QueuedStop(Apply(s, Perform(t)), j, g) ==> QueuedStop(s, j, g);
      assert QueuedStart(Apply(s, Perform(t)), j, g) ==> QueuedStart(s, j, g);
    } else {
      assert QueuedStop(Apply(s, Perform(t)), j, g) ==> StopAt(s, t, 0, g);
      assert QueuedStart(Apply(s, Perform(t)), j, g) ==> StartAt(s, t, 0, g);
    }
  }

  lemma PerformNotes(s: Sys, t: Thread, h: History)
    requires Enabled(s, Perform(t))
    ensures Note(s, Perform(t), h) == h
  {
    PerformLists(s, t);
    hide Apply, Enabled, Todo;
  }

  lemma DrainNoted(s: Sys, e: Step, h: History)
    requires Inv(s) && Enabled(s, e) && !e.Perform?
    ensures var d, g, h' := OutOf(s, e).drain, OutOf(s, e).drain.startEvent.generation, Note(s, e, h);
            && (d.stops != [] ==> g in h' && d.stopEvent == StopHears(g, h'[g]) && Retired(Apply(s, e), g))
            && (d.starts != [] && d.startEvent.FailedEvent? ==>
                 g in h' && (h'[g].Some? ==> d.startEvent == FailedEvent(g, h'[g].value)) && Retired(Apply(s, e), g))
  {
    hide PlaceInv, Conserved, OutcomeInv, WaitInv, SignalInv, OrderInv, OutOf, Apply, Enabled;
    TellingRetires(s, e);
    SectionTells(s, e);
    StateAfter(s, e);
    OwnerIsBelow(s);
    LastGrows(s, e);
  }

  lemma TellingStep(s: Sys, e: Step, h: History)
    requires Inv(s) && Told(s, h) && Enabled(s, e) && !e.Perform?
    ensures Told(Apply(s, e), Note(s, e, h))
  {
    var s', h' := Apply(s, e), Note(s, e, h);
    hide Inv, Told, Apply, Enabled, Note, Todo, StopTold, StartTold, StopAt, StartAt, QueuedStop, QueuedStart, Retired;
    forall t: Thread, i: nat, g: nat | StopAt(s', t, i, g)
      ensures StopTold(h', Todo(s', t)[i].item, g)
    {
      ListStopTold(s, e, h, t, i, g);
    }
    forall t: Thread, i: nat, g: nat | StartAt(s', t, i, g)
      ensures StartTold(h', Todo(s', t)[i].item, g) && (Todo(s', t)[i].item.event.FailedEvent? ==> Retired(s', g))
    {
      ListStartTold(s, e, h, t, i, g);
    }
    forall j: nat, g: nat
      ensures QueuedStop(s', j, g) ==> StopTold(h', s'.queue[j], g)
      ensures QueuedStart(s', j, g) ==>
                StartTold(h', s'.queue[j], g) && (s'.queue[j].event.FailedEvent? ==> Retired(s', g))
    {
      QueueTold(s, e, h, j, g);
    }
    TellsAll(s', h');
  }

  lemma ListStopTold(s: Sys, e: Step, h: History, t: Thread, i: nat, g: nat)
    requires Inv(s) && Told(s, h) && Enabled(s, e) && !e.Perform? && StopAt(Apply(s, e), t, i, g)
    ensures StopTold(Note(s, e, h), Todo(Apply(s, e), t)[i].item, g)
  {
    hide PlaceInv, Conserved, OutcomeInv, WaitInv, SignalInv, OutOf, Apply, Enabled, Note, Retired;
    if StopAt(s, t, i, g) {
      assert Retired(s, g);
      NoteKeeps(s, e, h, g);
      StillThere(s, e, t, i, g);
    } else {
      DrainNoted(s, e, h);
      DrainedStop(s, e, t, i, g);
    }
  }

  lemma ListStartTold(s: Sys, e: Step, h: History, t: Thread, i: nat, g: nat)
    requires Inv(s) && Told(s, h) && Enabled(s, e) && !e.Perform? && StartAt(Apply(s, e), t, i, g)
    ensures var item := Todo(Apply(s, e), t)[i].item;
            StartTold(Note(s, e, h), item, g) && (item.event.FailedEvent? ==> Retired(Apply(s, e), g))
  {
    hide PlaceInv, Conserved, OutcomeInv, WaitInv, SignalInv, OrderInv, OutOf, Apply, Enabled, Note, Retired;
    if StartAt(s, t, i, g) {
      StillThere(s, e, t, i, g);
      if Retired(s, g) { NoteKeeps(s, e, h, g); RetiredKept(s, e, g); }
    } else {
      DrainNoted(s, e, h);
      DrainedStart(s, e, t, i, g);
    }
  }

  lemma QueueTold(s: Sys, e: Step, h: History, j: nat, g: nat)
    requires Inv(s) && Told(s, h) && Enabled(s, e) && !e.Perform?
    ensures var s', h' := Apply(s, e), Note(s, e, h);
            && (QueuedStop(s', j, g) ==> StopTold(h', s'.queue[j], g))
            && (QueuedStart(s', j, g) ==>
                 StartTold(h', s'.queue[j], g) && (s'.queue[j].event.FailedEvent? ==> Retired(s', g)))
  {
    hide PlaceInv, Conserved, OutcomeInv, WaitInv, SignalInv, OutOf, Apply, Enabled, Note, Retired;
    SameQueue(s, e);
    SameItems(s, e);
    assert QueuedStop(s, j, g) ==> Retired(s, g);
    if Retired(s, g) { NoteKeeps(s, e, h, g); RetiredKept(s, e, g); }
  }

  lemma SameItems(s: Sys, e: Step)
    requires Enabled(s, e) && !e.Perform?
    ensures forall j: nat, g: nat :: QueuedStop(Apply(s, e), j, g) <==> QueuedStop(s, j, g)
    ensures forall j: nat, g: nat :: QueuedStart(Apply(s, e), j, g) <==> QueuedStart(s, j, g)
  {
    SameQueue(s, e);
    hide Apply, Enabled;
  }

  /** A start or stop that stays in its list is the same item. */
  lemma StillThere(s: Sys, e: Step, t: Thread, i: nat, g: nat)
    requires Inv(s) && Enabled(s, e) && !e.Perform? && (StartAt(s, t, i, g) || StopAt(s, t, i, g))
    requires StartAt(Apply(s, e), t, i, g) || StopAt(Apply(s, e), t, i, g)
    ensures Todo(Apply(s, e), t) == Todo(s, t)
  {
    hide PlaceInv, Conserved, OutcomeInv, WaitInv, SignalInv, OrderInv, OutOf, Apply, Enabled, Taker, Signals, DrainOps;
    StepShape(s, e);
    ListsAfter(s, e, t);
    if NoStored(Todo(s, t)) { NoneIn(Todo(s, t), i, g); }
  }

  lemma {:induction false} ToldRun(s: Sys, run: seq<Step>, h: History)
    requires Inv(s) && Told(s, h) && Feasible(s, run)
    ensures Told(Exec(s, run), Recorded(s, run, h))
    decreases |run|
  {
    if run != [] {
      var e := run[0];
      InvKept(s, e);
      hide Enabled, Apply, Inv, Told, Note;
      if e.Perform? { PerformTells(s, e.thread, h); PerformNotes(s, e.thread, h); } else { TellingStep(s, e, h); }
      ToldRun(Apply(s, e), run[1..], Note(s, e, h));
    }
  }

  lemma NothingToldYet(dispatching: bool)
    ensures Told(Initial(dispatching), map[])
  {
  }

  /** In every run, every stop that was held for a generation and queued was told how that generation
      ended: that it stopped, or the error the controller failed with; and every start that its
      generation gathered and did not serve was told the error, if the controller failed. */
  lemma EverybodyHearsTheEnding(dispatching: bool, run: seq<Step>, j: nat, g: nat)
    requires Feasible(Initial(dispatching), run)
    ensures var t, h := Exec(Initial(dispatching), run), Recorded(Initial(dispatching), run, map[]);
            && (QueuedStop(t, j, g) ==> g in h && t.queue[j].event == StopHears(g, h[g]))
            && (QueuedStart(t, j, g) && t.queue[j].event.FailedEvent? ==>
                 g in h && (h[g].Some? ==> t.queue[j].event == FailedEvent(g, h[g].value)))
  {
    InitialInv(dispatching);
    NothingToldYet(dispatching);
    ToldRun(Initial(dispatching), run, map[]);
  }
}
