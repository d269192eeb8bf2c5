/** The lifecycle state that src/service.rs keeps behind one mutex, and the critical
    sections that replace it. Each section is given twice: as a function from the old
    state to the new one, and as the method of `Controller` that performs it in place.
    What the sections promise together is proved in the ServiceProtocol modules. */
module ServiceCore {
  import opened Optional

  const MAX_GENERATION: nat := 0xFFFF_FFFF_FFFF_FFFF

  type Port = p: nat | p < 0x1_0000

  /** Error codes; message texts are not part of this model. */
  datatype Code = Config | Conflict | Cancelled | Timeout | Bootstrap | Bind | Shutdown

  /** WorkerResult: what joining a worker thread yields. */
  datatype Exit = Clean | Fault(code: Code)

  datatype Kind = StartCall | StopCall

  /** A completion callback, named by the call that handed it in. */
  datatype Completion = Completion(call: nat, kind: Kind, generation: nat)

  datatype Event =
    | RunningEvent(generation: nat, port: Port)
    | FailedEvent(generation: nat, code: Code)
    | StoppedEvent(generation: nat)

  datatype Options = Options(generation: nat, config: nat)

  datatype State =
    | Stopped
    | Starting(options: Options, starts: seq<Completion>)
    | Running(options: Options, port: Port)
    | Stopping(generation: nat, wasRunning: bool, starts: seq<Completion>, stops: seq<Completion>, reason: Code)
    | Failed(error: Code, quarantine: Option<nat>)

  datatype Inner = Inner(state: State, lastGeneration: nat)

  /** What a thread still has to do once it has released the mutex. A queued completion
      is `stored` when it was held in the state, and not when a late joiner or a stale
      stop brings its own. */
  datatype Op =
    | Cancel(generation: nat)
    | RequestStop(generation: nat)
    | Wake(generation: nat)
    | Queue(item: Item)

  datatype Item = Item(completion: Completion, event: Event, stored: bool)

  /** The generation that owns the state, if it is Starting, Running or Stopping. */
  predicate Owns(st: State, g: nat) {
    match st
    case Starting(options, _) => options.generation == g
    case Running(options, _) => options.generation == g
    case Stopping(generation, _, _, _, _) => generation == g
    case _ => false
  }

  /** Every completion held in the state, start completions first. */
  function Held(st: State): seq<Completion> {
    match st
    case Starting(_, starts) => starts
    case Stopping(_, _, starts, stops, _) => starts + stops
    case _ => []
  }

  predicate AllOf(cs: seq<Completion>, kind: Kind, g: nat) {
    forall i :: 0 <= i < |cs| ==> cs[i].kind == kind && cs[i].generation == g
  }

  /** A state that belongs to a generation belongs to the last one. */
  predicate OwnedBy(st: State, last: nat) {
    match st
    case Starting(options, _) => options.generation == last
    case Running(options, _) => options.generation == last
    case Stopping(generation, _, _, _, _) => generation == last
    case _ => true
  }

  /** What every critical section finds and leaves: the state is the last generation's, and it
      holds starts and stops of that generation only. */
  predicate Sound(inner: Inner) {
    && OwnedBy(inner.state, inner.lastGeneration)
    && match inner.state
       case Starting(o, starts) => starts != [] && AllOf(starts, StartCall, o.generation)
       case Stopping(g, wasRunning, starts, stops, _) =>
         AllOf(starts, StartCall, g) && AllOf(stops, StopCall, g) && (wasRunning <==> starts == [])
       case _ => true
  }

  function Completions(items: seq<Item>): (cs: seq<Completion>)
    ensures |cs| == |items|
  {
    seq(|items|, i requires 0 <= i < |items| => items[i].completion)
  }

  function Items(cs: seq<Completion>, event: Event): (items: seq<Item>)
    ensures |items| == |cs|
    ensures forall i :: 0 <= i < |cs| ==> items[i] == Item(cs[i], event, true)
  {
    seq(|cs|, i requires 0 <= i < |cs| => Item(cs[i], event, true))
  }

  function QueueOps(cs: seq<Completion>, event: Event): (ops: seq<Op>)
    ensures |ops| == |cs|
    ensures forall i :: 0 <= i < |cs| ==> ops[i] == Queue(Item(cs[i], event, true))
  {
    seq(|cs|, i requires 0 <= i < |cs| => Queue(Item(cs[i], event, true)))
  }

  /** The completions that one critical section takes out of the state, with their events. */
  datatype Drain = Drain(starts: seq<Completion>, startEvent: Event, stops: seq<Completion>, stopEvent: Event)

  const NothingDrained := Drain([], StoppedEvent(0), [], StoppedEvent(0))

  function DrainOps(d: Drain): seq<Op> {
    QueueOps(d.starts, d.startEvent) + QueueOps(d.stops, d.stopEvent)
  }

  // ---------------------------------------------------------------- start

  datatype StartVerdict = Refused(code: Code) | Gathered | JoinRunning(port: Port) | Fresh

  function StartSection(inner: Inner, o: Options, c: Completion): (Inner, StartVerdict) {
    match inner.state
    case Failed(error, _) => (inner, Refused(error))
    case Stopping(_, _, _, _, _) => (inner, Refused(Cancelled))
    case Starting(options, starts) =>
      if options != o then (inner, Refused(Conflict))
      else (inner.(state := Starting(options, starts + [c])), Gathered)
    case Running(options, port) =>
      if options != o then (inner, Refused(Conflict)) else (inner, JoinRunning(port))
    case Stopped =>
      if o.generation == 0 || o.generation == MAX_GENERATION || o.generation <= inner.lastGeneration
      then (inner, Refused(Config))
      else (Inner(Starting(o, [c]), o.generation), Fresh)
  }

  // ---------------------------------------------------------------- stop

  datatype StopVerdict = StopRefused(code: Code) | Stale | StopHeld | BeginStop(wake: bool)

  function StopSection(inner: Inner, g: nat, c: Completion): (Inner, StopVerdict) {
    match inner.state
    case Failed(error, _) => (inner, StopRefused(error))
    case Stopped => if g > inner.lastGeneration then (inner, StopRefused(Config)) else (inner, Stale)
    case Starting(options, starts) =>
      if g < options.generation then (inner, Stale)
      else if g > options.generation then (inner, StopRefused(Config))
      else (inner.(state := Stopping(g, false, starts, [c], Cancelled)), BeginStop(true))
    case Running(options, _) =>
      if g < options.generation then (inner, Stale)
      else if g > options.generation then (inner, StopRefused(Config))
      else (inner.(state := Stopping(g, true, [], [c], Cancelled)), BeginStop(false))
    case Stopping(generation, wasRunning, starts, stops, reason) =>
      if g < generation then (inner, Stale)
      else if g > generation then (inner, StopRefused(Config))
      else (inner.(state := Stopping(generation, wasRunning, starts, stops + [c], reason)), StopHeld)
  }

  // ---------------------------------------------------------------- supervisor sections

  function MarkRunningSection(st: State, o: Options, port: Port): (State, Option<seq<Completion>>) {
    match st
    case Starting(options, starts) =>
      if options == o then (Running(options, port), Some(starts)) else (st, None)
    case _ => (st, None)
  }

  function StopAfterStartupSection(st: State, g: nat, reason: Code): State {
    match st
    case Starting(options, starts) =>
      if options.generation == g then Stopping(g, false, starts, [], reason) else st
    case _ => st
  }

  function TransitionSection(st: State, g: nat, reason: Code): State {
    match st
    case Starting(options, starts) =>
      if options.generation == g then Stopping(g, false, starts, [], reason) else st
    case Running(options, _) =>
      if options.generation == g then Stopping(g, true, [], [], reason) else st
    case _ => st
  }

  /** The terminal error of a generation that was being stopped, if its worker's end was not clean. */
  function StoppingFault(wasRunning: bool, reason: Code, exit: Exit): Option<Code> {
    if reason == Shutdown then Some(Shutdown)
    else if wasRunning then (if exit.Fault? then Some(Shutdown) else None)
    else if exit == Fault(Shutdown) then Some(Shutdown)
    else None
  }

  function FinishSection(st: State, g: nat, exit: Exit, quarantine: Option<nat>): (State, Drain) {
    match st
    case Stopping(generation, wasRunning, starts, stops, reason) =>
      if generation != g then (st, NothingDrained)
      else (
        match StoppingFault(wasRunning, reason, exit)
        case Some(code) =>
          (Failed(code, quarantine), Drain(starts, FailedEvent(g, code), stops, FailedEvent(g, code)))
        case None =>
          (Stopped, Drain(starts, FailedEvent(g, reason), stops, StoppedEvent(g))))
    case Running(options, _) =>
      if options.generation == g then (Failed(Shutdown, quarantine), NothingDrained) else (st, NothingDrained)
    case Failed(error, q) => (Failed(error, if q.None? then quarantine else q), NothingDrained)
    case _ => (st, NothingDrained)
  }

  function CreationFailureSection(st: State, g: nat, code: Code, terminal: bool, quarantine: Option<nat>)
    : (State, Drain)
  {
    var next := if terminal then Failed(code, quarantine) else Stopped;
    var stopEvent := if terminal then FailedEvent(g, code) else StoppedEvent(g);
    match st
    case Starting(options, starts) =>
      if options.generation == g then (next, Drain(starts, FailedEvent(g, code), [], stopEvent))
      else (st, NothingDrained)
    case Stopping(generation, _, starts, stops, _) =>
      if generation == g then (next, Drain(starts, FailedEvent(g, code), stops, stopEvent)) else (st, NothingDrained)
    case _ => (st, NothingDrained)
  }

  // ---------------------------------------------------------------- poisoned mutex

  /** lock_inner's recovery: every non-failed state becomes Failed, and its completions are drained. */
  function RecoverSection(inner: Inner): (State, seq<Op>, Drain) {
    match inner.state
    case Starting(o, starts) =>
      (Failed(Shutdown, None), [Cancel(o.generation), RequestStop(o.generation), Wake(o.generation)],
       Drain(starts, FailedEvent(o.generation, Shutdown), [], FailedEvent(o.generation, Shutdown)))
    case Running(o, _) =>
      (Failed(Shutdown, None), [Cancel(o.generation), RequestStop(o.generation)], NothingDrained)
    case Stopping(g, _, starts, stops, _) =>
      (Failed(Shutdown, None), [Cancel(g), RequestStop(g)],
       Drain(starts, FailedEvent(g, Shutdown), stops, FailedEvent(g, Shutdown)))
    case Stopped => (Failed(Shutdown, None), [], NothingDrained)
    case Failed(error, q) => (Failed(error, q), [], NothingDrained)
  }

  // ---------------------------------------------------------------- worker lifecycle monitor

  datatype Lifecycle = Lifecycle(stopRequested: bool, result: Option<Exit>)

  datatype RunningOutcome = StillRunning | StopAsked | WorkerEnded(exit: Exit)

  /** One turn of wait_running's condition loop. */
  function WaitRunningTurn(lc: Lifecycle): (Lifecycle, RunningOutcome) {
    if lc.result.Some? then (lc.(result := None), WorkerEnded(lc.result.value))
    else if lc.stopRequested then (lc, StopAsked)
    else (lc, StillRunning)
  }

  /** wait_stopping, given whether the deadline passed: None while it is still waiting. */
  function WaitStoppingTurn(lc: Lifecycle, deadlinePassed: bool): (Lifecycle, Option<Exit>) {
    if lc.result.Some? then (lc.(result := None), lc.result)
    else if deadlinePassed then (lc, Some(Fault(Shutdown)))
    else (lc, None)
  }

  // ---------------------------------------------------------------- ready channel (capacity one)

  datatype Message = ReadyPort(port: Port) | ReadyFault(code: Code)

  datatype Channel = Channel(buffer: Option<Message>, receiving: bool)

  const ClosedChannel := Channel(None, false)

  function TrySend(ch: Channel, m: Message): Channel {
    if ch.receiving && ch.buffer.None? then ch.(buffer := Some(m)) else ch
  }

  // ================================================================ the mutable controller

  class Dispatcher {
    var queue: seq<Item>

    constructor ()
      ensures queue == []
    {
      queue := [];
    }

    /** queue_completion for every completion of one list, in order. */
    method QueueAll(cs: seq<Completion>, event: Event)
      modifies this
      ensures queue == old(queue) + Items(cs, event)
    {
      var i := 0;
      while i < |cs|
        invariant 0 <= i <= |cs|
        invariant queue == old(queue) + Items(cs, event)[..i]
      {
        queue := queue + [Item(cs[i], event, true)];
        i := i + 1;
      }
    }
  }

  /** Either nothing was taken out of the state, or everything was and is queued in order. */
  predicate KeptOrQueued(st: State, queue: seq<Item>, st': State, queue': seq<Item>) {
    (Held(st') == Held(st) && queue' == queue)
        || (Held(st') == [] && Completions(queue') == Completions(queue) + Held(st))
  }

  lemma QueuedCompletions(before: seq<Item>, d: Drain)
    ensures Completions(before + Items(d.starts, d.startEvent) + Items(d.stops, d.stopEvent))
              == Completions(before) + (d.starts + d.stops)
  {
  }

  class Monitor {
    var stopRequested: bool
    var workerResult: Option<Exit>

    ghost function View(): Lifecycle
      reads this
    {
      Lifecycle(stopRequested, workerResult)
    }

    constructor ()
      ensures View() == Lifecycle(false, None)
    {
      stopRequested := false;
      workerResult := None;
    }

    /** A supervisor that waits while running leaves its wait at its next turn; a worker's end
        that is already there stays what it learns. */
    method AskToStop()
      modifies this
      ensures !WaitRunningTurn(View()).1.StillRunning?
      ensures WaitRunningTurn(old(View())).1.WorkerEnded? ==>
                WaitRunningTurn(View())
                == (WaitRunningTurn(old(View())).0.(stopRequested := true), WaitRunningTurn(old(View())).1)
      ensures forall late: bool :: WaitStoppingTurn(View(), late).1 == WaitStoppingTurn(old(View()), late).1
    {
      stopRequested := true;
    }

    /** Whichever wait comes next learns this end, before any stop request and whether or not its
        deadline has passed, and only the first one does. */
    method WorkerExited(exit: Exit)
      modifies this
      ensures WaitRunningTurn(View()).1 == WorkerEnded(exit)
      ensures forall late: bool :: WaitStoppingTurn(View(), late).1 == Some(exit)
      ensures var after := WaitRunningTurn(View()).0;
              after.result.None? && after.stopRequested == old(stopRequested)
                  && WaitStoppingTurn(View(), true).0 == after
    {
      workerResult := Some(exit);
    }

    method WaitRunning() returns (outcome: RunningOutcome)
      modifies this
      ensures (View(), outcome) == WaitRunningTurn(old(View()))
    {
      if workerResult.Some? {
        outcome := WorkerEnded(workerResult.value);
        workerResult := None;
        return;
      }
      outcome := if stopRequested then StopAsked else StillRunning;
    }

    method WaitStopping(deadlinePassed: bool) returns (exit: Option<Exit>)
      modifies this
      ensures (View(), exit) == WaitStoppingTurn(old(View()), deadlinePassed)
    {
      exit := workerResult;
      workerResult := None;
      if exit.None? && deadlinePassed {
        exit := Some(Fault(Shutdown));
      }
    }
  }

  class Controller {
    var state: State
    var lastGeneration: nat
    const dispatcher: Dispatcher

    ghost function View(): Inner
      reads this
    {
      Inner(state, lastGeneration)
    }

    /** What holds whenever the mutex is free. */
    ghost predicate Valid()
      reads this
    {
      Sound(View())
    }

    constructor (dispatcher: Dispatcher)
      ensures Valid() && View() == Inner(Stopped, 0) && this.dispatcher == dispatcher
    {
      this.dispatcher := dispatcher;
      state := Stopped;
      lastGeneration := 0;
    }

    /** A start takes its completion into custody when it is gathered or begins a generation. */
    method Start(o: Options, c: Completion) returns (verdict: StartVerdict)
      requires Valid() && c.kind.StartCall? && c.generation == o.generation
      modifies this
      ensures Valid() && (View(), verdict) == StartSection(old(View()), o, c)
      ensures Held(state) == old(Held(state)) + (if verdict.Gathered? || verdict.Fresh? then [c] else [])
      ensures old(state).Starting? || old(state).Running? ==>
                (if o == old(state).options then verdict.Gathered? || verdict.JoinRunning?
                 else verdict == Refused(Conflict))
      ensures verdict.Refused? ==> View() == old(View())
      ensures lastGeneration != old(lastGeneration) ==>
                verdict.Fresh? && old(lastGeneration) < lastGeneration == o.generation
    {
      match state {
        case Failed(error, _) => verdict := Refused(error);
        case Stopping(_, _, _, _, _) => verdict := Refused(Cancelled);
        case Starting(options, starts) =>
          if options != o {
            verdict := Refused(Conflict);
          } else {
            state := Starting(options, starts + [c]);
            verdict := Gathered;
          }
        case Running(options, port) =>
          verdict := if options != o then Refused(Conflict) else JoinRunning(port);
        case Stopped =>
          if o.generation == 0 || o.generation == MAX_GENERATION || o.generation <= lastGeneration {
            verdict := Refused(Config);
          } else {
            lastGeneration := o.generation;
            state := Starting(o, [c]);
            verdict := Fresh;
          }
      }
    }

    /** A stop takes its completion into custody when it is the current generation's. */
    method Stop(g: nat, c: Completion) returns (verdict: StopVerdict)
      requires Valid() && c.kind.StopCall? && c.generation == g
      modifies this
      ensures Valid() && (View(), verdict) == StopSection(old(View()), g, c)
      ensures Held(state) == old(Held(state)) + (if verdict.StopHeld? || verdict.BeginStop? then [c] else [])
      ensures lastGeneration == old(lastGeneration)
      ensures verdict.StopHeld? || verdict.BeginStop? <==> Owns(old(state), g)
    {
      if state.Failed? {
        verdict := StopRefused(state.error);
      } else if state.Stopped? {
        verdict := if g > lastGeneration then StopRefused(Config) else Stale;
      } else {
        var current := if state.Stopping? then state.generation else state.options.generation;
        if g < current {
          verdict := Stale;
        } else if g > current {
          verdict := StopRefused(Config);
        } else if state.Stopping? {
          state := state.(stops := state.stops + [c]);
          verdict := StopHeld;
        } else if state.Starting? {
          state := Stopping(g, false, state.starts, [c], Cancelled);
          verdict := BeginStop(true);
        } else {
          state := Stopping(g, true, [], [c], Cancelled);
          verdict := BeginStop(false);
        }
      }
    }

    /** The gathered starts leave the state all together, for the caller to queue. */
    method MarkRunning(o: Options, port: Port) returns (starts: Option<seq<Completion>>)
      requires Valid()
      modifies this
      ensures Valid() && (state, starts) == MarkRunningSection(old(state), o, port)
      ensures lastGeneration == old(lastGeneration)
      ensures if starts.Some? then starts.value == old(Held(state)) && Held(state) == [] else state == old(state)
    {
      starts := None;
      if state.Starting? && state.options == o {
        starts := Some(state.starts);
        state := Running(o, port);
      }
    }

    method StopAfterStartup(g: nat, reason: Code)
      requires Valid()
      modifies this
      ensures Valid() && state == StopAfterStartupSection(old(state), g, reason)
      ensures lastGeneration == old(lastGeneration) && Held(state) == old(Held(state))
    {
      if state.Starting? && state.options.generation == g {
        state := Stopping(g, false, state.starts, [], reason);
      }
    }

    method TransitionToStopping(g: nat, reason: Code)
      requires Valid()
      modifies this
      ensures Valid() && state == TransitionSection(old(state), g, reason)
      ensures lastGeneration == old(lastGeneration) && Held(state) == old(Held(state))
    {
      if state.Starting? && state.options.generation == g {
        state := Stopping(g, false, state.starts, [], reason);
      } else if state.Running? && state.options.generation == g {
        state := Stopping(g, true, [], [], reason);
      }
    }

    /** Queues what a section took out of the state. */
    method Deliver(d: Drain)
      modifies dispatcher
      ensures dispatcher.queue == old(dispatcher.queue) + Items(d.starts, d.startEvent) + Items(d.stops, d.stopEvent)
      ensures Completions(dispatcher.queue) == Completions(old(dispatcher.queue)) + (d.starts + d.stops)
    {
      QueuedCompletions(dispatcher.queue, d);
      dispatcher.QueueAll(d.starts, d.startEvent);
      dispatcher.QueueAll(d.stops, d.stopEvent);
    }

    /** finish_worker run to its end: the section, then both lists queued in order. Of a generation that
        was being stopped the held stops hear that it has stopped exactly if the controller has. */
    method FinishWorker(g: nat, exit: Exit, quarantine: Option<nat>)
      requires Valid()
      modifies this, dispatcher
      ensures Valid() && KeptOrQueued(old(state), old(dispatcher.queue), state, dispatcher.queue)
      ensures state == FinishSection(old(state), g, exit, quarantine).0
      ensures lastGeneration == old(lastGeneration)
      ensures var d := FinishSection(old(state), g, exit, quarantine).1;
              dispatcher.queue == old(dispatcher.queue) + Items(d.starts, d.startEvent) + Items(d.stops, d.stopEvent)
      ensures old(state).Stopping? && old(state).generation == g ==>
                && (state.Stopped? || state.Failed?)
                && dispatcher.queue == old(dispatcher.queue)
                     + Items(old(state).starts,
                         FailedEvent(g, if state.Failed? then state.error else old(state).reason))
                     + Items(old(state).stops, if state.Failed? then FailedEvent(g, state.error) else StoppedEvent(g))
    {
      hide Completions;
      if state.Stopping? && state.generation == g {
        var starts, stops, reason := state.starts, state.stops, state.reason;
        var fault := StoppingFault(state.wasRunning, reason, exit);
        if fault.Some? {
          state := Failed(fault.value, quarantine);
          Deliver(Drain(starts, FailedEvent(g, fault.value), stops, FailedEvent(g, fault.value)));
        } else {
          state := Stopped;
          Deliver(Drain(starts, FailedEvent(g, reason), stops, StoppedEvent(g)));
        }
      } else if state.Running? && state.options.generation == g {
        state := Failed(Shutdown, quarantine);
      } else if state.Failed? && state.quarantine.None? {
        state := state.(quarantine := quarantine);
      }
    }

    /** finish_creation_failure run to its end. */
    method FinishCreationFailure(g: nat, code: Code, terminal: bool, quarantine: Option<nat>)
      requires Valid()
      modifies this, dispatcher
      ensures Valid() && KeptOrQueued(old(state), old(dispatcher.queue), state, dispatcher.queue)
      ensures state == CreationFailureSection(old(state), g, code, terminal, quarantine).0
      ensures lastGeneration == old(lastGeneration)
      ensures var d := CreationFailureSection(old(state), g, code, terminal, quarantine).1;
              dispatcher.queue == old(dispatcher.queue) + Items(d.starts, d.startEvent) + Items(d.stops, d.stopEvent)
      ensures old(state).Stopping? && old(state).generation == g ==>
                && (if terminal then state == Failed(code, quarantine) else state == Stopped)
                && dispatcher.queue == old(dispatcher.queue) + Items(old(state).starts, FailedEvent(g, code))
                     + Items(old(state).stops, if state.Failed? then FailedEvent(g, state.error) else StoppedEvent(g))
    {
      hide Completions;
      var starts, stops := [], [];
      if state.Starting? && state.options.generation == g {
        starts := state.starts;
        assert starts + stops == starts;
      } else if state.Stopping? && state.generation == g {
        starts, stops := state.starts, state.stops;
      } else {
        return;
      }
      state := if terminal then Failed(code, quarantine) else Stopped;
      Deliver(Drain(starts, FailedEvent(g, code), stops, if terminal then FailedEvent(g, code) else StoppedEvent(g)));
    }
  }
}
