/** The addon controller (lib/addon-controller.js): one native service at a time, by
    generations. Public calls, settlements of native promises and firings of startup timers are
    the steps; a timer that was cleared may still fire. */
module AddonController {
  import opened Optional

  datatype Code = Config | ConfigConflict | Cancelled | Timeout | Bootstrap | Bind | Shutdown | Other

  datatype Status = Stopped | Starting | Running | Stopping | Failed

  /** A promise handed out by start. */
  datatype Promise = Pending | Fulfilled(port: nat) | Rejected(code: Code)

  /** Calls of the binding and the settlements that were acted upon, in order. */
  datatype Entry =
    | NativeStart(generation: nat)
    | NativeStop(generation: nat)
    | StopSettled(generation: nat)
    | StartRefused(generation: nat)

  /** What a call of start gets: a refusal, the same after the stop in flight, or the promise of a
      generation. */
  datatype Reply = Refused(code: Code) | RefusedAfterStop(code: Code) | PromiseOf(generation: nat)

  datatype Emission = Silent | EmitStopped(generation: nat) | EmitFailed

  datatype State = State(
    generation: nat,
    status: Status,
    config: Option<nat>,
    timer: bool,
    rejectStart: bool,         // the current generation's promise can still be rejected
    stopCode: Option<Code>,    // what a startup interrupted by the stop in flight rejects with
    nativeStarts: set<nat>,    // native starts that have not settled
    stopInFlight: Option<nat>,
    armed: set<nat>,           // generations whose startup timer was armed
    promises: map<nat, Promise>,
    settlements: map<nat, nat>, // how often each promise was settled
    log: seq<Entry>)

  /** What setTimer did. */
  datatype Timer = Armed | Threw(code: Code)

  datatype Event =
    | Start(config: Option<nat>, timer: Timer) // None: options that do not validate
    | Stop(generation: nat)
    | StartResolved(generation: nat, port: int)
    | StartRejected(generation: nat, code: Code)
    | StopResolved
    | StopRejected(code: Code)
    | TimerFired(generation: nat)

  const Initial := State(0, Stopped, None, false, false, None, {}, None, {}, map[], map[], [])

  predicate Enabled(s: State, e: Event) {
    match e
    case StartResolved(g, _) => g in s.nativeStarts
    case StartRejected(g, _) => g in s.nativeStarts
    case StopResolved => s.stopInFlight.Some?
    case StopRejected(_) => s.stopInFlight.Some?
    case TimerFired(g) => g in s.armed
    case _ => true
  }

  function MapStart(code: Code): Code {
    if code.Other? then Bootstrap else code
  }

  function MapStop(code: Code): Code {
    Shutdown
  }

  function Count(settlements: map<nat, nat>, g: nat): nat {
    if g in settlements then settlements[g] else 0
  }

  /** Settles the promise of a generation; the count shows a second attempt. */
  function Settle(s: State, g: nat, outcome: Promise): State {
    s.(promises := if g in s.promises && !s.promises[g].Pending? then s.promises else s.promises[g := outcome],
       settlements := s.settlements[g := Count(s.settlements, g) + 1])
  }

  function Reset(s: State): State {
    s.(status := Stopped, config := None, rejectStart := false)
  }

  function Fail(s: State): State {
    s.(status := Failed, config := None, rejectStart := false)
  }

  /** beginStop: clears the startup timer and calls the binding, unless a stop is in flight. */
  function BeginStop(s: State, g: nat, code: Option<Code>): State {
    if s.status.Stopping? then s
    else s.(status := Stopping, timer := false, stopCode := if s.status.Starting? then code else None,
            stopInFlight := Some(g), log := s.log + [NativeStop(g)])
  }

  /** finishStop; `failure` is the mapped error of a rejected native stop. */
  function FinishStop(s: State, g: nat, failure: Option<Code>): State {
    var t := s.(stopInFlight := None, stopCode := None);
    if g != s.generation then t
    else
      var u := if failure == Some(Shutdown) then Fail(t) else Reset(t).(log := t.log + [StopSettled(g)]);
      if s.stopCode.Some? && s.rejectStart then
        Settle(u, g, Rejected(if failure.Some? then failure.value else s.stopCode.value))
      else u
  }

  /** A new generation, up to the call of binding.start. */
  function CallBinding(s: State, config: Option<nat>): State {
    var g := s.generation + 1;
    s.(generation := g, status := Starting, config := config, rejectStart := true, nativeStarts := s.nativeStarts + {g},
       promises := s.promises[g := Pending], log := s.log + [NativeStart(g)])
  }

  function OnStart(s: State, config: Option<nat>, timer: Timer): State {
    if config.None? || !s.status.Stopped? then s
    else
      var t := CallBinding(s, config);
      if timer.Armed? then t.(timer := true, armed := t.armed + {t.generation})
      else BeginStop(t, t.generation, Some(MapStart(timer.code)))
  }

  /** What start returns, decided before the binding is called. */
  function StartReply(s: State, config: Option<nat>): Reply {
    if config.None? then Refused(Config)
    else if s.status.Failed? then Refused(Shutdown)
    else if s.status.Stopping? then RefusedAfterStop(Cancelled)
    else if s.status.Starting? || s.status.Running? then
      (if s.config != config then Refused(ConfigConflict) else PromiseOf(s.generation))
    else PromiseOf(s.generation + 1)
  }

  function OnStop(s: State, g: nat): State {
    if s.status.Failed? || g != s.generation || s.status.Stopped? || s.status.Stopping? then s
    else BeginStop(s, g, Some(Cancelled))
  }

  function OnStartResolved(s: State, g: nat, port: int): State {
    var t := s.(nativeStarts := s.nativeStarts - {g});
    if g != s.generation || !s.status.Starting? then t
    else if port < 1 || port > 65535 then BeginStop(t, g, Some(Bootstrap))
    else Settle(t.(timer := false, status := Running, rejectStart := false), g, Fulfilled(port))
  }

  function OnStartRejected(s: State, g: nat, code: Code): State {
    var t := s.(nativeStarts := s.nativeStarts - {g});
    if g != s.generation || !s.status.Starting? then t
    else
      var u := t.(timer := false);
      var v := if MapStart(code).Shutdown? then Fail(u) else Reset(u).(log := u.log + [StartRefused(g)]);
      Settle(v, g, Rejected(MapStart(code)))
  }

  function OnTimer(s: State, g: nat): State {
    if g != s.generation || !s.status.Starting? then s else BeginStop(s, g, Some(Timeout))
  }

  function Apply(s: State, e: Event): State
    requires Enabled(s, e)
  {
    match e
    case Start(config, timer) => OnStart(s, config, timer)
    case Stop(g) => OnStop(s, g)
    case StartResolved(g, port) => OnStartResolved(s, g, port)
    case StartRejected(g, code) => OnStartRejected(s, g, code)
    case StopResolved => FinishStop(s, s.stopInFlight.value, None)
    case StopRejected(code) => FinishStop(s, s.stopInFlight.value, Some(MapStop(code)))
    case TimerFired(g) => OnTimer(s, g)
  }

  /** The lifecycle event observers see during a step. */
  function Emits(s: State, e: Event): Emission
    requires Enabled(s, e)
  {
    match e
    case StartRejected(g, code) =>
      if g != s.generation || !s.status.Starting? then Silent
      else if MapStart(code).Shutdown? then EmitFailed
      else EmitStopped(g)
    case StopResolved => if s.stopInFlight.value != s.generation then Silent else EmitStopped(s.stopInFlight.value)
    case StopRejected(_) => if s.stopInFlight.value != s.generation then Silent else EmitFailed
    case _ => Silent
  }

  predicate Feasible(s: State, run: seq<Event>)
    decreases |run|
  {
    run == [] || (Enabled(s, run[0]) && Feasible(Apply(s, run[0]), run[1..]))
  }

  function Exec(s: State, run: seq<Event>): State
    requires Feasible(s, run)
    decreases |run|
  {
    if run == [] then s else Exec(Apply(s, run[0]), run[1..])
  }
}
