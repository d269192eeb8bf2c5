/** The life of one sidecar process (lib/sidecar.js): startup, the port it prints, and its
    supervised shutdown. Each event handler is one step; what the operating system answers to
    kill and to arming a timer comes with the event. */
module Sidecar {
  import opened Optional
  import opened Text

  /** The code of an error, or that there is none. */
  datatype Code = NoError | Bootstrap | Timeout | Cancelled | Shutdown

  datatype Status = Starting | Running | Stopping | Stopped | Failed

  /** A promise as the last settlement attempted left it. JavaScript keeps the first one; that
      no handler attempts another is proved. */
  datatype Promise = Absent | Pending | Fulfilled | Rejected(code: Code)

  datatype Watchdog = Unwatched | Termination | Unspawned

  datatype State = State(
    status: Status,
    start: Promise,
    port: nat,                   // what start resolved with
    stopped: Promise,
    stop: Promise,               // created by the first stop request
    exitConfirmed: bool,
    waitingForExit: bool,
    exitHandled: bool,           // the callback waiting for the exit has run
    timer: bool,
    watchdog: Watchdog,
    escalated: bool,
    buffer: string,
    startError: Code,
    stopError: Code,
    canObserveExit: bool,
    spawnConfirmed: bool,
    kills: nat,
    watchdogs: nat)

  /** What kill answers: delivered, refused, or an exception; and whether a timer can be armed. */
  datatype Os = Os(killed: bool, armed: bool)

  datatype Setup = Complete | NoListeners | NoTimer

  datatype Event =
    | Exit
    | ExitHandled
    | Spawned
    | ChildError(os: Os)
    | Data(chunk: string, os: Os)
    | StartupTimeout(os: Os)
    | WatchdogFired(os: Os)
    | Stop(os: Os)

  predicate Enabled(s: State, e: Event) {
    match e
    case Exit => true
    case ExitHandled => s.exitConfirmed && s.waitingForExit && !s.exitHandled
    case Spawned => !s.exitConfirmed
    case ChildError(_) => !s.exitConfirmed
    case Data(_, _) => s.status.Starting?
    case StartupTimeout(_) => s.timer
    case WatchdogFired(_) => !s.watchdog.Unwatched?
    case Stop(_) => true
  }

  /** settleStartError: guarded by startSettled. */
  function Settle(p: Promise, outcome: Promise): Promise {
    if p.Pending? then outcome else p
  }

  /** Settles the stop promise, if one was handed out. */
  function Answer(p: Promise, outcome: Promise): Promise {
    if p.Absent? then p else outcome
  }

  function CleanupStartup(s: State): State {
    s.(timer := false, buffer := "")
  }

  function FailShutdown(s: State, code: Code): State {
    if s.status.Failed? then s
    else s.(watchdog := Unwatched, status := Failed, start := Settle(s.start, Rejected(code)),
            stopped := Rejected(code), stop := Answer(s.stop, Rejected(code)))
  }

  /** Arms a watchdog; a timer that cannot be armed fails the shutdown. */
  function Arm(s: State, w: Watchdog, armed: bool): State {
    if armed then s.(watchdog := w, watchdogs := s.watchdogs + 1) else FailShutdown(s, Shutdown)
  }

  function SettlePendingStart(s: State): Promise {
    if !s.startError.NoError? then Settle(s.start, Rejected(s.startError)) else s.start
  }

  /** A stop requested after the exit was confirmed is over at once. */
  function EndNow(s: State): State {
    if !s.stopError.NoError? then FailShutdown(s.(stop := Pending), s.stopError)
    else s.(status := Stopped, start := SettlePendingStart(s), stopped := Fulfilled, stop := Fulfilled)
  }

  /** Kills the process and watches for its exit. */
  function Terminate(s: State, os: Os): State {
    var t := s.(status := Stopping, stop := Pending, waitingForExit := true, kills := s.kills + 1);
    if !os.killed || !t.canObserveExit then FailShutdown(t, Shutdown) else Arm(t, Termination, os.armed)
  }

  function First(kept: Code, next: Code): Code {
    if kept.NoError? then next else kept
  }

  /** The first start error and the first stop error are kept, and startup is over. */
  function NoteErrors(s: State, startError: Code, stopError: Code): State {
    CleanupStartup(s.(startError := First(s.startError, startError), stopError := First(s.stopError, stopError)))
  }

  /** requestStop. */
  function RequestStop(s: State, startError: Code, stopError: Code, os: Os): State {
    if !s.stop.Absent? then s
    else
      var t := NoteErrors(s, startError, stopError);
      if t.exitConfirmed || t.status.Stopped? then EndNow(t) else Terminate(t, os)
  }

  /** waitForUnspawned: an error before the process was seen to spawn. */
  function WaitForUnspawned(s: State, os: Os): State {
    if !s.stop.Absent? then s
    else Arm(CleanupStartup(s).(startError := Bootstrap, status := Stopping, stop := Pending, waitingForExit := true),
             Unspawned, os.armed)
  }

  /** The state in which the operation is handed out. */
  function Create(setup: Setup, spawnConfirmed: bool, os: Os): State {
    var s := State(Starting, Pending, 0, Pending, Absent, false, false, false, setup.Complete?, Unwatched, false, "",
                   NoError, NoError, !setup.NoListeners?, spawnConfirmed, 0, 0);
    if setup.Complete? then s else RequestStop(s, Bootstrap, NoError, os)
  }

  function OnExit(s: State): State {
    if s.exitConfirmed then s
    else
      var t := s.(exitConfirmed := true, watchdog := Unwatched);
      if s.status.Starting? then
        CleanupStartup(t).(status := Stopped, start := Settle(t.start, Rejected(Bootstrap)), stopped := Fulfilled)
      else if s.status.Running? then t.(status := Stopped, stopped := Fulfilled)
      else t
  }

  function OnExitHandled(s: State): State {
    var t := s.(exitHandled := true);
    if t.status.Failed? then t
    else if !t.stopError.NoError? then FailShutdown(t, t.stopError)
    else t.(status := Stopped, start := SettlePendingStart(t), stopped := Fulfilled,
            stop := Answer(t.stop, Fulfilled))
  }

  function OnChildError(s: State, os: Os): State {
    match s.status
    case Starting => if s.spawnConfirmed then RequestStop(s, Bootstrap, NoError, os) else WaitForUnspawned(s, os)
    case Stopping => s.(stopError := if s.stopError.NoError? then Shutdown else s.stopError)
    case Running => RequestStop(s, NoError, Shutdown, os)
    case _ => s
  }

  /** The first whole line. `parse` reads it as the source's Number does, None for a non-integer. */
  function OnLine(s: State, line: string, parse: string -> Option<int>, os: Os): State {
    var port := parse(line);
    if port.None? || port.value < 1 || port.value > 65535 then RequestStop(s, Bootstrap, NoError, os)
    else CleanupStartup(s).(status := Running, start := Fulfilled, port := port.value)
  }

  /** onData. */
  function OnData(s: State, chunk: string, parse: string -> Option<int>, os: Os): State {
    var t := s.(buffer := s.buffer + chunk);
    var newline := FindNewline(t.buffer);
    if newline == |t.buffer| || !t.status.Starting? then t else OnLine(t, t.buffer[..newline], parse, os)
  }

  function OnWatchdog(s: State, os: Os): State {
    var unspawned := s.watchdog == Unspawned;
    var t := s.(watchdog := Unwatched);
    if t.exitConfirmed || t.status.Failed? then t
    else if unspawned then FailShutdown(t, Shutdown)
    else if !t.escalated then
      var u := t.(escalated := true, kills := t.kills + 1);
      if !os.killed then FailShutdown(u, Shutdown) else Arm(u, Termination, os.armed)
    else FailShutdown(t, Shutdown)
  }

  function OnStop(s: State, os: Os): State {
    RequestStop(s, if s.status.Starting? then Cancelled else NoError, NoError, os)
  }

  function Apply(s: State, e: Event, parse: string -> Option<int>): State {
    match e
    case Exit => OnExit(s)
    case ExitHandled => OnExitHandled(s)
    case Spawned => s.(spawnConfirmed := true)
    case ChildError(os) => OnChildError(s, os)
    case Data(chunk, os) => OnData(s, chunk, parse, os)
    case StartupTimeout(os) => RequestStop(s.(timer := false), Timeout, NoError, os)
    case WatchdogFired(os) => OnWatchdog(s, os)
    case Stop(os) => OnStop(s, os)
  }

  predicate Feasible(s: State, run: seq<Event>, parse: string -> Option<int>)
    decreases |run|
  {
    run == [] || (Enabled(s, run[0]) && Feasible(Apply(s, run[0], parse), run[1..], parse))
  }

  function Exec(s: State, run: seq<Event>, parse: string -> Option<int>): State
    requires Feasible(s, run, parse)
    decreases |run|
  {
    if run == [] then s else Exec(Apply(s, run[0], parse), run[1..], parse)
  }
}
