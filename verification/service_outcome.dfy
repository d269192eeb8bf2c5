/** What each completion is told: all starts of a generation hear the same event, and a stop
    accepted while the generation is Starting means that event is never Running. */
module ServiceOutcome {
  import opened Optional
  import opened ServiceCore
  import opened ServiceProtocol

  predicate StateOk(st: State, decided: map<nat, Event>) {
    match st
    case Starting(o, starts) => o.generation !in decided && starts != [] && AllOf(starts, StartCall, o.generation)
    case Running(o, port) =>
      port != 0 && o.generation in decided && decided[o.generation] == RunningEvent(o.generation, port)
    case Stopping(g, wasRunning, starts, stops, _) =>
      && AllOf(starts, StartCall, g) && AllOf(stops, StopCall, g)
      && (if wasRunning then starts == [] && g in decided && decided[g].RunningEvent?
           else starts != [] && g !in decided)
    case _ => true
  }

  predicate DecidedOk(decided: map<nat, Event>, last: nat) {
    forall g :: g in decided ==>
      g <= last && decided[g].generation == g && !decided[g].StoppedEvent?
          && (decided[g].RunningEvent? ==> decided[g].port != 0)
  }

  predicate ItemOk(decided: map<nat, Event>, item: Item) {
    var g := item.completion.generation;
    match item.completion.kind
    case StartCall => g in decided && item.event == decided[g]
    case StopCall => item.event == StoppedEvent(g) || (item.event.FailedEvent? && item.event.generation == g)
  }

  predicate OpsOk(decided: map<nat, Event>, ops: seq<Op>) {
    forall i :: 0 <= i < |ops| ==> ops[i].Queue? ==> ItemOk(decided, ops[i].item)
  }

  predicate OutcomeInv(s: Sys) {
    && StateOk(s.inner.state, s.decided)
    && DecidedOk(s.decided, s.inner.lastGeneration)
    && (forall t :: t in s.todo ==> OpsOk(s.decided, s.todo[t]))
    && (forall i :: 0 <= i < |s.queue| ==> ItemOk(s.decided, s.queue[i]))
  }

  predicate Extends(decided: map<nat, Event>, decided': map<nat, Event>) {
    forall g :: g in decided ==> g in decided' && decided'[g] == decided[g]
  }

  // ---------------------------------------------------------------- what a drain hands out

  predicate DrainOk(decided: map<nat, Event>, d: Drain) {
    var g := d.startEvent.generation;
    && AllOf(d.starts, StartCall, g) && AllOf(d.stops, StopCall, g)
    && (d.starts != [] ==> g in decided && decided[g] == d.startEvent)
    && (d.stops != [] ==> d.stopEvent == StoppedEvent(g) || (d.stopEvent.FailedEvent? && d.stopEvent.generation == g))
  }

  lemma DrainOpsOk(decided: map<nat, Event>, d: Drain)
    requires DrainOk(decided, d)
    ensures OpsOk(decided, DrainOps(d))
  {
  }

  function AfterDrain(decided: map<nat, Event>, d: Drain): map<nat, Event> {
    if d.starts == [] then decided else decided[d.startEvent.generation := d.startEvent]
  }

  /** A section that keeps the books: it leaves a consistent state and drains consistently. */
  predicate SectionOk(decided: map<nat, Event>, last: nat, st': State, d: Drain) {
    && (d.starts != [] ==>
          && d.startEvent.generation !in decided && d.startEvent.generation <= last
          && !d.startEvent.StoppedEvent? && (d.startEvent.RunningEvent? ==> d.startEvent.port != 0))
    && StateOk(st', AfterDrain(decided, d))
    && DrainOk(AfterDrain(decided, d), d)
  }

  predicate OwnerBelow(st: State, last: nat) {
    (st.Starting? ==> st.options.generation <= last) && (st.Stopping? ==> st.generation <= last)
    && (st.Running? ==> st.options.generation <= last)
  }

  lemma RecoverOk(inner: Inner, decided: map<nat, Event>)
    requires StateOk(inner.state, decided) && OwnerBelow(inner.state, inner.lastGeneration)
    ensures var (st, ops, d) := RecoverSection(inner);
            SectionOk(decided, inner.lastGeneration, st, d) && NoQueueing(ops) && !d.startEvent.RunningEvent?
  {
  }

  lemma EndOk(s: Sys, gen: Gen)
    requires StateOk(s.inner.state, s.decided) && OwnerBelow(s.inner.state, s.inner.lastGeneration)
    requires gen.sup.AtFinish? || gen.sup.AtCreationFailure?
    ensures var (st, d) := EndSection(s, gen);
            SectionOk(s.decided, s.inner.lastGeneration, st, d) && !d.startEvent.RunningEvent?
  {
  }

  lemma FailSpawnOk(st: State, last: nat, decided: map<nat, Event>, g: nat, code: Code)
    requires StateOk(st, decided) && OwnerBelow(st, last)
    ensures var (st', d) := CreationFailureSection(st, g, code, true, None);
            SectionOk(decided, last, st', d) && !d.startEvent.RunningEvent?
  {
  }

  lemma MarkOk(st: State, last: nat, decided: map<nat, Event>, o: Options, port: Port)
    requires StateOk(st, decided) && OwnerBelow(st, last) && port != 0
    ensures var (st', starts) := MarkRunningSection(st, o, port);
            starts.Some? ==>
                SectionOk(decided, last, st',
                Drain(starts.value, RunningEvent(o.generation, port), [], StoppedEvent(o.generation)))
  {
  }

  lemma OtherSectionsOk(st: State, decided: map<nat, Event>, g: nat, reason: Code)
    requires StateOk(st, decided)
    ensures StateOk(StopAfterStartupSection(st, g, reason), decided)
    ensures StateOk(TransitionSection(st, g, reason), decided)
  {
  }

  lemma CallSectionsOk(inner: Inner, decided: map<nat, Event>, o: Options, call: nat, g: nat)
    requires StateOk(inner.state, decided) && DecidedOk(decided, inner.lastGeneration)
    ensures StateOk(StartSection(inner, o, Completion(call, StartCall, o.generation)).0.state, decided)
    ensures StateOk(StopSection(inner, g, Completion(call, StopCall, g)).0.state, decided)
  {
  }

  // ---------------------------------------------------------------- every step

  predicate OutOk(s: Sys, out: Out) {
    && SectionOk(s.decided, out.inner.lastGeneration, out.inner.state, out.drain)
    && s.inner.lastGeneration <= out.inner.lastGeneration
    && (out.own.Some? ==> OpsOk(AfterDrain(s.decided, out.drain), out.own.value))
    && (out.recovery.Some? ==> OpsOk(AfterDrain(s.decided, out.drain), out.recovery.value))
  }

  lemma RecoveredOutOk(s: Sys, own: Option<seq<Op>>)
    requires OutcomeInv(s) && OwnerBelow(s.inner.state, s.inner.lastGeneration)
    requires own.Some? ==> NoQueueing(own.value)
    ensures OutOk(s, RecoveredOut(s, own))
  {
    RecoverOk(s.inner, s.decided);
    var (st, ops, d) := RecoverSection(s.inner);
    hide RecoverSection, StateOk;
    DrainOpsOk(AfterDrain(s.decided, d), d);
  }

  lemma DrainedOutOk(s: Sys, st: State, d: Drain)
    requires SectionOk(s.decided, s.inner.lastGeneration, st, d)
    ensures OutOk(s, DrainedOut(s, st, d))
  {
    DrainOpsOk(AfterDrain(s.decided, d), d);
  }

  lemma DecideOutOk(s: Sys, o: Options, report: Outcome)
    requires OutcomeInv(s) && OwnerBelow(s.inner.state, s.inner.lastGeneration)
    ensures OutOk(s, DecideOut(s, o, report))
  {
    if s.poisoned {
      RecoveredOutOk(s, Some(StopOps(o.generation)));
    } else if Usable(report) {
      MarkOk(s.inner.state, s.inner.lastGeneration, s.decided, o, report.port);
      var (st, starts) := MarkRunningSection(s.inner.state, o, report.port);
      if starts.Some? {
        DrainedOutOk(s, st, Drain(starts.value, RunningEvent(o.generation, report.port), [],
            StoppedEvent(o.generation)));
      }
    } else {
      OtherSectionsOk(s.inner.state, s.decided, o.generation, StartupFault(report));
    }
  }

  lemma OutOfOk(s: Sys, e: Step)
    requires OutcomeInv(s) && OwnerBelow(s.inner.state, s.inner.lastGeneration) && Enabled(s, e)
    ensures OutOk(s, OutOf(s, e))
  {
    hide RecoveredOut, DrainedOut, DecideOut, EndSection, StartSection, StopSection, TransitionSection,
      CreationFailureSection, StateOk, DecidedOk, OwnerBelow;
    if e.Decide? {
      DecideOutOk(s, s.gens[e.g].options, s.gens[e.g].sup.outcome);
    } else if s.poisoned {
      RecoveredOutOk(s, None);
    } else if e.CallStart? {
      CallStartOk(s, e.call, e.options);
    } else if e.CallStop? {
      CallStopOk(s, e.call, e.generation);
    } else if e.FailSpawn? {
      var pc := CallerAt(s, e.call);
      FailSpawnOk(s.inner.state, s.inner.lastGeneration, s.decided, pc.generation, pc.code);
      var (st, d) := CreationFailureSection(s.inner.state, pc.generation, pc.code, true, None);
      DrainedOutOk(s, st, d);
    } else if e.Finish? || e.FailCreation? {
      EndOk(s, s.gens[e.g]);
      DrainedOutOk(s, EndSection(s, s.gens[e.g]).0, EndSection(s, s.gens[e.g]).1);
    } else if e.Transition? {
      OtherSectionsOk(s.inner.state, s.decided, e.g, Shutdown);
    }
  }

  lemma CallStartOk(s: Sys, call: nat, o: Options)
    requires OutcomeInv(s) && !s.poisoned
    ensures OutOk(s, StartOut(s, call, o))
  {
    CallSectionsOk(s.inner, s.decided, o, call, 0);
  }

  lemma CallStopOk(s: Sys, call: nat, g: nat)
    requires OutcomeInv(s) && !s.poisoned
    ensures OutOk(s, StopOut(s, call, g))
  {
    CallSectionsOk(s.inner, s.decided, Options(0, 0), call, g);
  }

  lemma ExtendedItems(decided: map<nat, Event>, decided': map<nat, Event>, ops: seq<Op>)
    requires Extends(decided, decided') && OpsOk(decided, ops)
    ensures OpsOk(decided', ops)
  {
  }

  lemma DecidedExtends(s: Sys, e: Step)
    requires Enabled(s, e) && OutOk(s, OutOf(s, e))
    ensures NextDecided(s, e) == AfterDrain(s.decided, OutOf(s, e).drain)
    ensures Extends(s.decided, NextDecided(s, e))
  {
    hide OutOf;
  }

  lemma ListOk(s: Sys, e: Step, t: Thread)
    requires OutcomeInv(s) && Enabled(s, e) && OutOk(s, OutOf(s, e)) && t in NextTodo(s, e)
    requires NextDecided(s, e) == AfterDrain(s.decided, OutOf(s, e).drain) && Extends(s.decided, NextDecided(s, e))
    ensures OpsOk(NextDecided(s, e), NextTodo(s, e)[t])
  {
    hide OutOf, StateOk, Enabled, NextDecided, OpsOk, DecidedOk, SectionOk, Extends;
    if t in s.todo { ExtendedItems(s.decided, NextDecided(s, e), s.todo[t]); }
  }

  lemma DecidedKept(s: Sys, e: Step)
    requires OutcomeInv(s) && Enabled(s, e) && OutOk(s, OutOf(s, e))
    requires NextDecided(s, e) == AfterDrain(s.decided, OutOf(s, e).drain)
    ensures DecidedOk(NextDecided(s, e), OutOf(s, e).inner.lastGeneration)
    ensures StateOk(OutOf(s, e).inner.state, NextDecided(s, e))
  {
    hide OutOf, StateOk, Enabled, NextDecided, OpsOk, DrainOk;
  }

  /** The outcome invariant holds along every run. */
  lemma OutcomeKept(s: Sys, e: Step)
    requires OutcomeInv(s) && OwnerBelow(s.inner.state, s.inner.lastGeneration) && Enabled(s, e)
    ensures OutcomeInv(Apply(s, e))
    ensures Extends(s.decided, Apply(s, e).decided)
  {
    hide OutOf, NextGens, StateOk, Enabled, NextDecided, NextTodo, NextQueue, OwnerBelow, OpsOk, OutOk, DecidedOk,
      Extends, ItemOk;
    OutOfOk(s, e);
    DecidedExtends(s, e);
    DecidedKept(s, e);
    forall t | t in NextTodo(s, e)
      ensures OpsOk(NextDecided(s, e), NextTodo(s, e)[t])
    {
      ListOk(s, e, t);
    }
    PerformedItem(s, e);
  }

  lemma PerformedItem(s: Sys, e: Step)
    requires OutcomeInv(s) && Enabled(s, e)
    requires Extends(s.decided, NextDecided(s, e))
    ensures forall i :: 0 <= i < |NextQueue(s, e)| ==> ItemOk(NextDecided(s, e), NextQueue(s, e)[i])
  {
    hide OutOf, NextDecided, StateOk;
  }

  // ---------------------------------------------------------------- a stop beats the start

  /** Generation `g` has not been marked running, and never will be. */
  predicate Doomed(s: Sys, g: nat) {
    && g <= s.inner.lastGeneration
    && (if g in s.decided then !s.decided[g].RunningEvent?
         else !(s.inner.state.Starting? && s.inner.state.options.generation == g))
  }

  /** Accepting a stop for the generation that is Starting dooms it. */
  lemma StopDooms(s: Sys, call: nat, g: nat)
    requires OutcomeInv(s) && OwnerBelow(s.inner.state, s.inner.lastGeneration) && Enabled(s, CallStop(call, g))
    requires !s.poisoned && s.inner.state.Starting? && s.inner.state.options.generation == g
    ensures Doomed(Apply(s, CallStop(call, g)), g)
    ensures call in Apply(s, CallStop(call, g)).accepted
  {
    hide NextGens;
  }

  /** Only mark_running of the Starting generation draws a Running event. */
  lemma RunningDrain(s: Sys, e: Step)
    requires Enabled(s, e) && OutOf(s, e).drain.starts != [] && OutOf(s, e).drain.startEvent.RunningEvent?
    ensures s.inner.state.Starting? && s.inner.state.options.generation == OutOf(s, e).drain.startEvent.generation
  {
  }

  lemma FreshOwner(s: Sys, e: Step, g: nat)
    requires Enabled(s, e) && g <= s.inner.lastGeneration
    requires !(s.inner.state.Starting? && s.inner.state.options.generation == g)
    ensures !(OutOf(s, e).inner.state.Starting? && OutOf(s, e).inner.state.options.generation == g)
    ensures s.inner.lastGeneration <= OutOf(s, e).inner.lastGeneration
  {
    hide DrainOps;
  }

  lemma DoomedKept(s: Sys, e: Step, g: nat)
    requires OutcomeInv(s) && OwnerBelow(s.inner.state, s.inner.lastGeneration) && Enabled(s, e) && Doomed(s, g)
    ensures Doomed(Apply(s, e), g)
  {
    OutcomeKept(s, e);
    hide OutOf, NextGens, Enabled;
    if g !in s.decided {
      FreshOwner(s, e, g);
      if OutOf(s, e).drain.starts != [] && OutOf(s, e).drain.startEvent.RunningEvent? {
        RunningDrain(s, e);
      }
    } else {
      LastGrows(s, e);
    }
  }

  lemma LastGrows(s: Sys, e: Step)
    requires Enabled(s, e)
    ensures s.inner.lastGeneration <= OutOf(s, e).inner.lastGeneration
  {
    hide DrainOps;
  }
}
