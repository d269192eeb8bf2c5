/** What each call of the controller and each critical section answers, in every reachable state. */
module ServiceAnswers {
  import opened Optional
  import opened ServiceCore
  import opened ServiceWorker
  import opened ServiceProtocol
  import opened ServiceParts
  import opened ServicePlace
  import opened ServiceCustody
  import opened ServiceOutcome
  import opened ServiceSignals
  import opened ServiceOrder
  import opened ServiceProgress
  import opened ServiceTheorems

  // ---------------------------------------------------------------- start

  /** The options of the last generation, which a start has to match while it lasts. */
  function CurrentOptions(s: Sys): Options
    requires s.inner.lastGeneration in s.gens
  {
    s.gens[s.inner.lastGeneration].options
  }

  lemma OwnedOptions(s: Sys)
    requires Inv(s) && (s.inner.state.Starting? || s.inner.state.Running?)
    ensures s.inner.lastGeneration in s.gens && s.inner.state.options == CurrentOptions(s)
  {
    assert Owns(s.inner.state, s.inner.lastGeneration);
    assert PlaceOk(s.inner.state, s.inner.lastGeneration, s.excused,
                   CallerAt(s, s.gens[s.inner.lastGeneration].starter), s.gens[s.inner.lastGeneration]);
    hide CustodyInv, OutcomeInv, WaitInv, SignalInv, OrderInv, PartsOk, CallersOk;
  }

  /** Why a start is refused: by a poisoned or failed controller, during a stop, for options that are
      not those of the generation that is Starting or Running, in any part, and for a generation
      that cannot begin. */
  function StartFault(s: Sys, o: Options): Option<Code>
    requires s.inner.state.Starting? || s.inner.state.Running? ==> s.inner.lastGeneration in s.gens
  {
    if s.poisoned then Some(Shutdown)
    else if s.inner.state.Failed? then Some(s.inner.state.error)
    else if s.inner.state.Stopping? then Some(Cancelled)
    else if !s.inner.state.Stopped? then (if o == CurrentOptions(s) then None else Some(Conflict))
    else if 0 < o.generation < MAX_GENERATION && s.inner.lastGeneration < o.generation then None
    else Some(Config)
  }

  lemma StartRefusedExactly(s: Sys, call: nat, o: Options)
    requires Reachable(s) && Enabled(s, CallStart(call, o))
    ensures s.inner.state.Starting? || s.inner.state.Running? ==> s.inner.lastGeneration in s.gens
    ensures var s', fault := Apply(s, CallStart(call, o)), StartFault(s, o);
            && (call in s'.refused <==> fault.Some?) && (call in s'.accepted <==> fault.None?)
            && (fault.Some? ==> s'.refused[call] == fault.value)
            && (fault.Some? && !s.poisoned ==> s' == s.(refused := s'.refused))
  {
    ReachableInv(s);
    hide Inv, Reachable, Enabled, Apply, StartFault;
    if s.inner.state.Starting? || s.inner.state.Running? { OwnedOptions(s); }
    assert o.generation <= MAX_GENERATION by { StartLimit(s, call, o); }
    StartVerdicts(s, call, o);
    CallBooks(s, CallStart(call, o));
    if StartFault(s, o).Some? && !s.poisoned { NothingElse(s, CallStart(call, o)); }
  }

  lemma StartLimit(s: Sys, call: nat, o: Options)
    requires Enabled(s, CallStart(call, o))
    ensures o.generation <= MAX_GENERATION
  {
  }

  lemma StartVerdicts(s: Sys, call: nat, o: Options)
    requires o.generation <= MAX_GENERATION
    requires s.inner.state.Starting? || s.inner.state.Running? ==>
               s.inner.lastGeneration in s.gens && s.inner.state.options == CurrentOptions(s)
    ensures var e, fault := CallStart(call, o), StartFault(s, o);
            && RefusedBy(s, e) == fault && (AcceptedBy(s, e).None? <==> fault.Some?)
            && (fault.Some? && !s.poisoned ==> StartOut(s, call, o) == Unlocked(s, None) && !StartsAfresh(s, e))
            && (fault.None? ==> AcceptedBy(s, e) == Some(Completion(call, StartCall, o.generation)))
  {
  }

  /** A call is entered in one of the two books, under its own name. */
  lemma CallBooks(s: Sys, e: Step)
    requires Enabled(s, e) && (e.CallStart? || e.CallStop?) && (AcceptedBy(s, e).None? <==> RefusedBy(s, e).Some?)
    requires AcceptedBy(s, e).Some? ==> AcceptedBy(s, e).value.call == e.call
    ensures var s' := Apply(s, e);
            && (e.call in s'.refused <==> RefusedBy(s, e).Some?) && (e.call in s'.accepted <==> RefusedBy(s, e).None?)
            && (RefusedBy(s, e).Some? ==> s'.refused[e.call] == RefusedBy(s, e).value && s'.accepted == s.accepted)
            && (RefusedBy(s, e).None? ==> s'.accepted == s.accepted[e.call := AcceptedBy(s, e).value])
  {
    hide OutOf, NextGens, AcceptedBy, RefusedBy;
  }

  lemma NothingElse(s: Sys, e: Step)
    requires Enabled(s, e) && e.CallStart? && !s.poisoned && !StartsAfresh(s, e)
    requires StartOut(s, e.call, e.options) == Unlocked(s, None) && AcceptedBy(s, e).None?
    ensures Apply(s, e) == s.(refused := Apply(s, e).refused)
  {
    hide StartOut, StartsAfresh, AcceptedBy, RefusedBy;
  }

  /** What an accepted start does: it joins a Running service and hears its port, waits with the
      others of a Starting one, or begins a new generation with its own options. */
  lemma StartAnswers(s: Sys, call: nat, o: Options)
    requires Reachable(s) && Enabled(s, CallStart(call, o)) && call in Apply(s, CallStart(call, o)).accepted
    ensures var s', g, c := Apply(s, CallStart(call, o)), o.generation, Completion(call, StartCall, o.generation);
            && s'.accepted == s.accepted[call := c]
            && (s.inner.state.Running? ==>
                 && s'.inner == s.inner && s'.gens == s.gens
                 && Todo(s', Caller(call)) == [Queue(Item(c, RunningEvent(g, s.inner.state.port), false))])
            && (s.inner.state.Starting? ==>
                 && s'.inner.lastGeneration == s.inner.lastGeneration && s'.gens == s.gens && s'.todo == s.todo
                 && s'.inner.state == Starting(o, s.inner.state.starts + [c]))
            && (s.inner.state.Stopped? ==>
                 && s'.inner == Inner(Starting(o, [c]), g) && g !in s.gens && g in s'.gens && s'.gens[g].options == o
                 && s'.gens[g].sup.NotRun? && CallerAt(s', call) == Spawning(g) && s'.todo == s.todo)
            && (s.inner.state.Starting? || s.inner.state.Running? || s.inner.state.Stopped?)
  {
    var e := CallStart(call, o);
    ReachableInv(s);
    hide Inv, Reachable, Enabled, Apply, NextGens, NextCallers, OutOf;
    if s.inner.state.Starting? || s.inner.state.Running? { OwnedOptions(s); }
    StartRefusedExactly(s, call, o);
    StartLimit(s, call, o);
    StartVerdicts(s, call, o);
    CallBooks(s, e);
    StartOuts(s, call, o);
    CallOut(s, e);
    CallParts(s, e);
    TodoAfter(s, e, Caller(call));
    if StartsAfresh(s, e) { FreshIsNew(s, e); }
  }

  lemma StartOuts(s: Sys, call: nat, o: Options)
    requires AcceptedBy(s, CallStart(call, o)).Some?
    ensures var out, st, c := StartOut(s, call, o), s.inner.state, Completion(call, StartCall, o.generation);
            && (st.Running? ==>
                 out == Unlocked(s, Some([Queue(Item(c, RunningEvent(o.generation, st.port), false))])))
            && (st.Starting? ==> out == Unlocked(s, None).(inner := s.inner.(state := Starting(o, st.starts + [c]))))
            && (st.Stopped? ==> out == Unlocked(s, None).(inner := Inner(Starting(o, [c]), o.generation)))
            && (st.Starting? || st.Running? || st.Stopped?)
            && (StartsAfresh(s, CallStart(call, o)) <==> st.Stopped?)
  {
  }

  /** The parts of the new state, for a call that is accepted. */
  lemma CallParts(s: Sys, e: Step)
    requires Enabled(s, e) && (e.CallStart? || e.CallStop?) && OutOf(s, e).recovery.None?
    ensures var s', out := Apply(s, e), OutOf(s, e);
            && s'.inner == out.inner
            && s'.todo == (if out.own.Some? then s.todo[Caller(e.call) := out.own.value] else s.todo)
            && s'.gens == (if StartsAfresh(s, e) then s.gens[e.options.generation := NewGen(e.options, e.call)]
                 else s.gens)
            && (StartsAfresh(s, e) ==> CallerAt(s', e.call) == Spawning(e.options.generation))
  {
    hide StartSection, StartOut, StopOut, AcceptedBy, RefusedBy;
  }

  lemma CallOut(s: Sys, e: Step)
    requires Enabled(s, e)
    ensures e.CallStart? ==> OutOf(s, e) == StartOut(s, e.call, e.options)
    ensures e.CallStop? ==> OutOf(s, e) == StopOut(s, e.call, e.generation)
  {
    hide StartOut, StopOut;
  }

  // ---------------------------------------------------------------- the options of accepted starts

  lemma OptionsStay(s: Sys, e: Step, g: nat)
    requires Inv(s) && Enabled(s, e) && g in s.gens
    ensures g in Apply(s, e).gens && Apply(s, e).gens[g].options == s.gens[g].options
  {
    hide Enabled, NextGen, NextGens, PlaceInv, WaitInv, CustodyInv, SignalInv, OrderInv, OutcomeInv, OutOf,
      StartsAfresh;
    if StartsAfresh(s, e) { FreshIsNew(s, e); }
    AppliedGens(s, e);
    GenAt(s, e, g);
    if IsGenStep(e) && e.g == g { NextGenNames(s, e); }
    assert forall op: Op :: OpGen(s.gens[g], op).options == s.gens[g].options;
    hide OpGen;
  }

  lemma NextGenNames(s: Sys, e: Step)
    requires IsGenStep(e) && Enabled(s, e)
    ensures NextGen(s, e).options == s.gens[e.g].options
  {
    hide EndState, WorkerStep, TrySend, DecidedSup;
  }

  lemma {:induction false} OptionsRun(s: Sys, run: seq<Step>, g: nat)
    requires Inv(s) && Feasible(s, run) && g in s.gens
    ensures g in Exec(s, run).gens && Exec(s, run).gens[g].options == s.gens[g].options
    decreases |run|
  {
    if run != [] {
      OptionsStay(s, run[0], g);
      hide Enabled, Apply, Inv;
      InvKept(s, run[0]);
      OptionsRun(Apply(s, run[0]), run[1..], g);
    }
  }

  lemma {:induction false} RefusedRun(s: Sys, run: seq<Step>, call: nat)
    requires Inv(s) && Feasible(s, run) && call in s.refused
    ensures call in Exec(s, run).refused && call !in Exec(s, run).accepted
    decreases |run|
  {
    if run != [] {
      RefusedStays(s, run[0], call);
      hide Enabled, Apply, Inv;
      InvKept(s, run[0]);
      RefusedRun(Apply(s, run[0]), run[1..], call);
    } else {
      hide PlaceInv, OutcomeInv, WaitInv, SignalInv, OrderInv;
    }
  }

  lemma RefusedStays(s: Sys, e: Step, call: nat)
    requires Enabled(s, e) && call in s.refused
    ensures call in Apply(s, e).refused
  {
    hide OutOf, NextGens;
  }

  /** Whoever is accepted is served what it asked for: in every run, each accepted start has exactly
      the options of its generation, and so has every start that ever hears Running. */
  lemma {:induction false} OptionsHonoured(s: Sys, run: seq<Step>, i: nat)
    requires Reachable(s) && Feasible(s, run) && i < |run| && run[i].CallStart?
    ensures var t, o := Exec(s, run), run[i].options;
            run[i].call in t.accepted ==> o.generation in t.gens && t.gens[o.generation].options == o
    decreases |run|
  {
    var e, t := run[0], Apply(s, run[0]);
    ReachableStep(s, e);
    if i > 0 {
      hide Enabled, Apply, Reachable;
      OptionsHonoured(t, run[1..], i - 1);
    } else {
      ReachableInv(t);
      StartRefusedExactly(s, e.call, e.options);
      if e.call in t.accepted {
        AcceptedOptions(s, e.call, e.options);
        hide Enabled, Apply, Inv, Reachable;
        OptionsRun(t, run[1..], e.options.generation);
      } else {
        hide Enabled, Apply, Inv, Reachable;
        RefusedRun(t, run[1..], e.call);
      }
    }
  }

  lemma AcceptedOptions(s: Sys, call: nat, o: Options)
    requires Reachable(s) && Enabled(s, CallStart(call, o)) && call in Apply(s, CallStart(call, o)).accepted
    ensures var t := Apply(s, CallStart(call, o)); o.generation in t.gens && t.gens[o.generation].options == o
  {
    ReachableInv(s);
    StartRefusedExactly(s, call, o);
    StartAnswers(s, call, o);
    if !s.inner.state.Stopped? { OwnedOptions(s); OwnedLast(s); }
    hide Inv, Reachable, Enabled, Apply;
  }

  lemma {:induction false} AcceptedRun(s: Sys, run: seq<Step>, call: nat)
    requires Reachable(s) && Feasible(s, run) && (call in s.accepted || call in s.refused)
    ensures call in Exec(s, run).accepted || call in Exec(s, run).refused
    decreases |run|
  {
    if run != [] {
      BooksStay(s, run[0], call);
      ReachableStep(s, run[0]);
      hide Enabled, Apply, Reachable;
      AcceptedRun(Apply(s, run[0]), run[1..], call);
    }
  }

  lemma BooksStay(s: Sys, e: Step, call: nat)
    requires Enabled(s, e) && (call in s.accepted || call in s.refused)
    ensures call in Apply(s, e).accepted || call in Apply(s, e).refused
  {
    hide OutOf, NextGens;
  }

  /** A start whose completion is queued, whatever it hears, was given to a generation with exactly
      the options it asked for. */
  lemma ServedAsAsked(s: Sys, run: seq<Step>, i: nat, j: nat)
    requires Reachable(s) && Feasible(s, run) && i < |run| && run[i].CallStart?
    requires j < |Exec(s, run).queue| && Exec(s, run).queue[j].completion.call == run[i].call
    ensures var t, o := Exec(s, run), run[i].options; o.generation in t.gens && t.gens[o.generation].options == o
  {
    ReachableRun(s, run);
    var t := Exec(s, run);
    EntersBooks(s, run, i);
    Conservation(t, run[i].call);
    assert Filled(t, SpotQueue(j)) && At(t, SpotQueue(j)).call == run[i].call;
    hide Enabled, Apply, Reachable;
    OptionsHonoured(s, run, i);
  }

  lemma {:induction false} EntersBooks(s: Sys, run: seq<Step>, i: nat)
    requires Reachable(s) && Feasible(s, run) && i < |run| && run[i].CallStart?
    ensures run[i].call in Exec(s, run).accepted || run[i].call in Exec(s, run).refused
    decreases |run|
  {
    ReachableStep(s, run[0]);
    if i == 0 { StartRefusedExactly(s, run[0].call, run[0].options); }
    hide Enabled, Apply, Reachable, StartFault;
    if i == 0 { AcceptedRun(Apply(s, run[0]), run[1..], run[0].call); }
    else { EntersBooks(Apply(s, run[0]), run[1..], i - 1); }
  }

  // ---------------------------------------------------------------- stop

  /** What an accepted stop does. A stale one is answered at once. The first stop of a generation
      makes it Stopping for the reason Cancelled, and its caller will cancel the worker, ask the
      monitor to stop, and wake the gate of a generation that was Starting; a later one only waits
      with it. */
  lemma StopAnswers(s: Sys, call: nat, g: nat)
    requires Reachable(s) && Enabled(s, CallStop(call, g)) && call in Apply(s, CallStop(call, g)).accepted
    ensures var s', st, c := Apply(s, CallStop(call, g)), s.inner.state, Completion(call, StopCall, g);
            && s'.accepted == s.accepted[call := c] && s'.gens == s.gens && !s.poisoned
            && s'.inner.lastGeneration == s.inner.lastGeneration
            && (!Owns(st, g) ==>
                 s'.inner == s.inner && Todo(s', Caller(call)) == [Queue(Item(c, StoppedEvent(g), false))])
            && (Owns(st, g) && st.Starting? ==>
                 && s'.inner.state == Stopping(g, false, st.starts, [c], Cancelled)
                 && Todo(s', Caller(call)) == [Cancel(g), RequestStop(g), Wake(g)])
            && (Owns(st, g) && st.Running? ==>
                 && s'.inner.state == Stopping(g, true, [], [c], Cancelled)
                 && Todo(s', Caller(call)) == [Cancel(g), RequestStop(g)])
            && (Owns(st, g) && st.Stopping? ==>
                 s'.inner.state == st.(stops := st.stops + [c]) && s'.todo == s.todo)
  {
    var e := CallStop(call, g);
    hide Inv, Reachable, Enabled, Apply, OutOf;
    StopRefusedExactly(s, call, g);
    ReachableInv(s);
    StopVerdicts(s, call, g);
    CallBooks(s, e);
    CallOut(s, e);
    CallParts(s, e);
    TodoAfter(s, e, Caller(call));
  }

  lemma StopVerdicts(s: Sys, call: nat, g: nat)
    ensures var e, st, c, out := CallStop(call, g), s.inner.state, Completion(call, StopCall, g), StopOut(s, call, g);
            && (AcceptedBy(s, e).None? <==> RefusedBy(s, e).Some?)
            && (AcceptedBy(s, e).Some? ==>
                 && AcceptedBy(s, e) == Some(c) && !s.poisoned && out.recovery.None? && !StartsAfresh(s, e)
                 && out.inner.lastGeneration == s.inner.lastGeneration
                 && (!Owns(st, g) ==> out.inner == s.inner && out.own == Some([Queue(Item(c, StoppedEvent(g), false))]))
                 && (Owns(st, g) && st.Starting? ==>
                      && out.inner.state == Stopping(g, false, st.starts, [c], Cancelled)
                      && out.own == Some([Cancel(g), RequestStop(g), Wake(g)]))
                 && (Owns(st, g) && st.Running? ==>
                      && out.inner.state == Stopping(g, true, [], [c], Cancelled)
                      && out.own == Some([Cancel(g), RequestStop(g)]))
                 && (Owns(st, g) && st.Stopping? ==>
                      out.inner.state == st.(stops := st.stops + [c]) && out.own.None?))
  {
    assert StopOps(g) + [Wake(g)] == [Cancel(g), RequestStop(g), Wake(g)];
    assert StopOps(g) + [] == [Cancel(g), RequestStop(g)];
  }

  /** Waking puts the cancellation into an empty slot that the gate still listens to, and nothing else. */
  lemma WakeReachesGate(s: Sys, t: Thread, g: nat)
    requires Enabled(s, Perform(t)) && Todo(s, t)[0] == Wake(g) && g in s.gens
    ensures g in Apply(s, Perform(t)).gens
    ensures var was, now := s.gens[g], Apply(s, Perform(t)).gens[g];
            now == was.(ch := if was.ch.receiving && was.ch.buffer.None? then Channel(Some(ReadyFault(Cancelled)), true)
                              else was.ch)
  {
    hide OutOf;
  }

  // ---------------------------------------------------------------- the end of startup

  /** The reason that a failed startup is stopped for: what the worker reported, or what the gate saw. */
  function Reason(report: Outcome): Code {
    match report
    case Ready(_) => Bind
    case ReadyError(code) => code
    case GateTimeout => Timeout
    case WorkerGone => Bootstrap
    case GatePanicked => Shutdown
  }

  /** What the supervisor makes of the gate's report. If its generation is still Starting, a non-zero
      port makes it Running with that port and takes all gathered starts, and anything else makes
      it Stopping for that reason; if it is not, a stop was faster. Unless it runs, the worker is
      cancelled and the monitor asked to stop. */
  lemma DecideAnswers(s: Sys, g: nat)
    requires Reachable(s) && Enabled(s, Decide(g)) && !s.poisoned
    ensures g in Apply(s, Decide(g)).gens
    ensures var s', st, report := Apply(s, Decide(g)), s.inner.state, s.gens[g].sup.outcome;
            var up := report.Ready? && report.port != 0;
            && (Owns(st, g) && st.Starting? && up ==>
                 && s'.inner.state == Running(st.options, report.port) && s'.gens[g].sup.WaitingRunning?
                 && Todo(s', Supervisor(g)) == QueueOps(st.starts, RunningEvent(g, report.port)))
            && (Owns(st, g) && st.Starting? && !up ==>
                 s'.inner.state == Stopping(g, false, st.starts, [], Reason(report)))
            && (!(Owns(st, g) && st.Starting?) ==> s'.inner == s.inner)
            && (!(Owns(st, g) && st.Starting? && up) ==>
                 && s'.gens[g].sup == WaitingStopping(false)
                 && Todo(s', Supervisor(g)) == [Cancel(g), RequestStop(g)])
  {
    ReachableInv(s);
    assert s.gens[g].options.generation == g;
    assert PlaceOk(s.inner.state, s.inner.lastGeneration, s.excused, CallerAt(s, s.gens[g].starter), s.gens[g]);
    hide Inv, Reachable, DecideOut, DecidedSup, PlaceOk;
    DecideOuts(s, s.gens[g].options, s.gens[g].sup.outcome);
    DecideParts(s, g);
    TodoAfter(s, Decide(g), Supervisor(g));
    hide Enabled, Apply;
  }

  lemma DecideParts(s: Sys, g: nat)
    requires Enabled(s, Decide(g))
    ensures var s', gen := Apply(s, Decide(g)), s.gens[g];
            && s'.inner == DecideOut(s, gen.options, gen.sup.outcome).inner
            && g in s'.gens && s'.gens[g].sup == DecidedSup(s, gen.options, gen.sup.outcome)
            && OutOf(s, Decide(g)) == DecideOut(s, gen.options, gen.sup.outcome)
  {
    hide DecideOut, DecidedSup;
  }

  lemma DecideOuts(s: Sys, o: Options, report: Outcome)
    requires !s.poisoned && (s.inner.state.Starting? && s.inner.state.options.generation == o.generation ==>
               s.inner.state.options == o)
    ensures var out, st, g, up := DecideOut(s, o, report), s.inner.state, o.generation, report.Ready?
              && report.port != 0;
            && out.recovery.None? && out.own.Some?
            && (Owns(st, g) && st.Starting? && up ==>
                 && out.inner.state == Running(st.options, report.port) && DecidedSup(s, o, report).WaitingRunning?
                 && out.own.value == QueueOps(st.starts, RunningEvent(g, report.port)))
            && (Owns(st, g) && st.Starting? && !up ==>
                 out.inner.state == Stopping(g, false, st.starts, [], Reason(report)))
            && (!(Owns(st, g) && st.Starting?) ==> out.inner == s.inner)
            && (!(Owns(st, g) && st.Starting? && up) ==>
                 && DecidedSup(s, o, report) == WaitingStopping(false)
                 && out.own.value == [Cancel(g), RequestStop(g)])
  {
    assert forall cs: seq<Completion>, event: Event :: QueueOps(cs, event) + [] == QueueOps(cs, event);
    assert QueueOps([], StoppedEvent(o.generation)) == [];
  }
}
