/** Reference-counted ownership of the selected backend (lib/ownership.js): leases from acquire,
    one legacy service from start, and the stop that begins when the last owner leaves.

    A backend operation may call back into the ownership before it returns, so a call of the
    backend is a frame on a stack; public calls may come at any depth, settled promises only
    when the stack is empty. */
module Ownership {
  import opened Optional

  datatype Caller = ForAcquire | ForStart

  datatype Frame = Starting(caller: Caller) | Stopping

  /** What runs when the operation of a call settles. Several calls may share one operation of the
      backend; a call that came while a start was being entered has none, only a rejection. */
  datatype Continuation = OfAcquire(operation: Option<nat>) | OfStart(attempt: nat, operation: Option<nat>)

  datatype State = State(
    resolver: Option<nat>,      // the options snapshot of this generation
    started: Option<nat>,       // the first backend operation of this generation
    legacy: bool,
    attempt: Option<nat>,       // the current legacy attempt
    leases: set<nat>,
    pending: nat,               // acquisitions that have not settled
    stopping: bool,
    terminal: bool,
    entering: bool,
    frames: seq<Frame>,
    waiting: map<nat, Continuation>,  // by the call that waits
    stopInFlight: bool,         // stopBackend returned and has not settled
    nextResolver: nat,
    nextCall: nat,
    nextAttempt: nat,
    nextLease: nat,
    releasedLeases: set<nat>,   // leases whose release was called
    releasedAttempts: set<nat>) // attempts whose stop was called

  datatype Event =
    | Acquire(valid: bool)
    | Start(valid: bool)
    | Stop
    | Release(lease: nat)
    | StopService(attempt: nat)
    | StartReturned(operation: nat)   // a new operation, or one that was returned before
    | StopReturned
    | Resolved(call: nat, valid: bool)
    | Rejected(call: nat)
    | StopSettled(ok: bool)

  const Initial := State(None, None, false, None, {}, 0, false, false, false, [], map[], false, 0, 0, 0, 0, {}, {})

  function Owners(s: State): nat {
    |s.leases| + s.pending + (if s.legacy then 1 else 0)
  }

  predicate PublicCall(e: Event) {
    e.Acquire? || e.Start? || e.Stop? || e.Release? || e.StopService?
  }

  /** Public calls may come at any time; a handle must have been issued. */
  predicate Enabled(s: State, e: Event) {
    match e
    case Release(lease) => lease < s.nextLease
    case StopService(attempt) => attempt < s.nextAttempt
    case StartReturned(_) => s.frames != [] && s.frames[|s.frames| - 1].Starting?
    case StopReturned => s.frames != [] && s.frames[|s.frames| - 1].Stopping?
    case Resolved(call, _) => s.frames == [] && call in s.waiting && s.waiting[call].operation.Some?
    case Rejected(call) => s.frames == [] && call in s.waiting
    case StopSettled(_) => s.frames == [] && s.stopInFlight
    case _ => true
  }

  // ---------------------------------------------------------------- helpers of the source

  function EnsureResolver(s: State): State {
    if s.resolver.Some? then s else s.(resolver := Some(s.nextResolver), nextResolver := s.nextResolver + 1)
  }

  function ClearFailedGeneration(s: State): State {
    if Owners(s) != 0 || s.stopping then s else s.(resolver := None, started := None)
  }

  /** Enters stopBackend when the last owner has left a recorded backend. */
  function BeginStop(s: State): State {
    if s.terminal || s.stopping || Owners(s) != 0 || s.started.None? then s
    else s.(stopping := true, frames := s.frames + [Stopping])
  }

  function FinishFailedRequest(s: State, operation: Option<nat>): State {
    if Owners(s) != 0 then s
    else if operation.Some? && s.started == operation then ClearFailedGeneration(s)
    else BeginStop(s)
  }

  function FinishProjectionFailure(s: State): State {
    if Owners(s) != 0 then s else BeginStop(s)
  }

  function DropLegacy(s: State): State {
    s.(legacy := false, attempt := None)
  }

  /** The tail of start once it holds its operation: only the first becomes the legacy owner. */
  function AfterStart(s: State, call: nat, operation: Option<nat>): State {
    if s.legacy then s
    else s.(legacy := true, attempt := Some(s.nextAttempt), nextAttempt := s.nextAttempt + 1,
            waiting := s.waiting[call := OfStart(s.nextAttempt, operation)])
  }

  /** beginBackend: while a start is entering, the call gets a rejected promise of its own. */
  function BeginBackend(s: State, caller: Caller): State {
    if s.entering then
      var t := s.(nextCall := s.nextCall + 1);
      if caller.ForAcquire? then t.(waiting := t.waiting[s.nextCall := OfAcquire(None)])
      else AfterStart(t, s.nextCall, None)
    else s.(entering := true, frames := s.frames + [Starting(caller)])
  }

  function ReleaseLegacy(s: State, a: nat): State {
    if a in s.releasedAttempts then s
    else
      var t := s.(releasedAttempts := s.releasedAttempts + {a});
      if s.attempt != Some(a) || !s.legacy then t else BeginStop(DropLegacy(t))
  }

  // ---------------------------------------------------------------- events

  function OnAcquire(s: State, valid: bool): State {
    if s.terminal then ClearFailedGeneration(s)
    else
      var t := EnsureResolver(s);
      if !valid then ClearFailedGeneration(t)
      else if t.stopping then t
      else BeginBackend(t.(pending := t.pending + 1), ForAcquire)
  }

  function OnStart(s: State, valid: bool): State {
    if s.terminal then ClearFailedGeneration(s)
    else
      var t := EnsureResolver(s);
      if !valid then ClearFailedGeneration(t)
      else if t.stopping then t
      else BeginBackend(t, ForStart)
  }

  function OnStop(s: State): State {
    if s.terminal || !s.legacy || s.attempt.None? then s else ReleaseLegacy(s, s.attempt.value)
  }

  function OnRelease(s: State, lease: nat): State {
    if lease in s.releasedLeases then s
    else BeginStop(s.(releasedLeases := s.releasedLeases + {lease}, leases := s.leases - {lease}))
  }

  function OnStartReturned(s: State, operation: nat): State
    requires s.frames != [] && s.frames[|s.frames| - 1].Starting?
  {
    var call := s.nextCall;
    var caller := s.frames[|s.frames| - 1].caller;
    var t := s.(entering := false, frames := s.frames[..|s.frames| - 1], nextCall := call + 1,
                started := if s.started.Some? then s.started else Some(operation));
    if caller.ForAcquire? then t.(waiting := t.waiting[call := OfAcquire(Some(operation))])
    else AfterStart(t, call, Some(operation))
  }

  function OnStopReturned(s: State): State
    requires s.frames != []
  {
    s.(frames := s.frames[..|s.frames| - 1], stopInFlight := true)
  }

  function OnResolved(s: State, call: nat, valid: bool): State
    requires call in s.waiting
  {
    var t := s.(waiting := s.waiting - {call});
    match s.waiting[call]
    case OfAcquire(_) =>
      var u := t.(pending := if t.pending > 0 then t.pending - 1 else 0);
      if valid then u.(leases := u.leases + {u.nextLease}, nextLease := u.nextLease + 1) else FinishProjectionFailure(u)
    case OfStart(a, _) =>
      if valid then t
      else FinishProjectionFailure(if t.attempt == Some(a) then DropLegacy(t) else t)
  }

  function OnRejected(s: State, call: nat): State
    requires call in s.waiting
  {
    var t := s.(waiting := s.waiting - {call});
    match s.waiting[call]
    case OfAcquire(operation) =>
      FinishFailedRequest(t.(pending := if t.pending > 0 then t.pending - 1 else 0), operation)
    case OfStart(a, operation) => if t.attempt == Some(a) then FinishFailedRequest(DropLegacy(t), operation) else t
  }

  function OnStopSettled(s: State, ok: bool): State {
    if ok then s.(stopInFlight := false, resolver := None, started := None, stopping := false)
    else s.(stopInFlight := false, terminal := true)
  }

  function Apply(s: State, e: Event): State
    requires Enabled(s, e)
  {
    match e
    case Acquire(valid) => OnAcquire(s, valid)
    case Start(valid) => OnStart(s, valid)
    case Stop => OnStop(s)
    case Release(lease) => OnRelease(s, lease)
    case StopService(a) => ReleaseLegacy(s, a)
    case StartReturned(operation) => OnStartReturned(s, operation)
    case StopReturned => OnStopReturned(s)
    case Resolved(call, valid) => OnResolved(s, call, valid)
    case Rejected(call) => OnRejected(s, call)
    case StopSettled(ok) => OnStopSettled(s, ok)
  }

  predicate Feasible(s: State, run: seq<Event>)
    decreases |run|
  {
    run == [] || (Enabled(s, run[0]) && Feasible(Apply(s, run[0]), run[1..]))
  }

  function Exec(s: State, run: seq<Event>): State
    requires Feasible(s, run)
    decreases |run|
  {
    if run == [] then s else Exec(Apply(s, run[0]), run[1..])
  }
}
