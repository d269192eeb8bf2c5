/** What each event of a sidecar does, in every reachable state. */
module SidecarAnswers {
  import opened Optional
  import opened Text
  import opened Sidecar
  import opened SidecarProofs

  /** Why a shutdown is requested: what start is to be rejected with, if it has not settled, and what
      is wrong even if the process exits. */
  datatype Cause = Cause(start: Code, stop: Code)

  /** The first line is complete and is no port. */
  predicate BadLine(text: string, parse: string -> Option<int>) {
    var n := FindNewline(text);
    n < |text| && (parse(text[..n]).None? || !(1 <= parse(text[..n]).value <= 65535))
  }

  /** Which events ask for a shutdown, and why. */
  function Asks(s: State, e: Event, parse: string -> Option<int>): Option<Cause> {
    match e
    case Stop(_) => Some(Cause(if s.status.Starting? then Cancelled else NoError, NoError))
    case StartupTimeout(_) => Some(Cause(Timeout, NoError))
    case ChildError(_) =>
      if s.status.Starting? && s.spawnConfirmed then Some(Cause(Bootstrap, NoError))
      else if s.status.Running? then Some(Cause(NoError, Shutdown))
      else None
    case Data(chunk, _) => if BadLine(s.buffer + chunk, parse) then Some(Cause(Bootstrap, NoError)) else None
    case _ => None
  }

  function OsOf(e: Event): Os {
    if e.Exit? || e.ExitHandled? || e.Spawned? then Os(true, true) else e.os
  }

  /** A shutdown that fails: start, stopped and stop are rejected, and nothing is watched any more. */
  predicate FailsWith(s: State, t: State, code: Code) {
    && t.status.Failed? && t.stopped == Rejected(code) && t.stop == Rejected(code) && t.watchdog.Unwatched?
    && t.start == (if s.start.Pending? then Rejected(code) else s.start)
  }

  /** The first request of a shutdown. If the exit is confirmed it is over at once; otherwise the process
      is killed once and its exit is awaited under a watchdog, and if any of that is refused the
      shutdown has failed. */
  lemma ShutdownBegins(s: State, e: Event, parse: string -> Option<int>)
    requires Reachable(s, parse) && Enabled(s, e) && Asks(s, e, parse).Some? && s.stop.Absent?
    ensures var t, os, cause := Apply(s, e, parse), OsOf(e), Asks(s, e, parse).value;
            && !t.timer && t.buffer == ""
            && (s.exitConfirmed ==>
                 t.status.Stopped? && t.stop.Fulfilled? && t.stopped.Fulfilled? && t.kills == s.kills)
            && (!s.exitConfirmed ==> t.kills == s.kills + 1 && t.waitingForExit)
            && (!s.exitConfirmed && os.killed && s.canObserveExit && os.armed ==>
                 && t.status.Stopping? && t.stop == Pending && t.watchdog == Termination
                 && t.watchdogs == s.watchdogs + 1 && t.start == s.start && t.stopped == s.stopped
                 && t.startError == cause.start && t.stopError == cause.stop)
            && (!s.exitConfirmed && !(os.killed && s.canObserveExit && os.armed) ==> FailsWith(s, t, Shutdown))
  {
    ReachableInv(s, parse);
    hide Reachable;
    match e
    case Stop(os) => RequestBegins(s, if s.status.Starting? then Cancelled else NoError, NoError, os);
    case StartupTimeout(os) => RequestBegins(s.(timer := false), Timeout, NoError, os);
    case ChildError(os) =>
      if s.status.Starting? { RequestBegins(s, Bootstrap, NoError, os);
          } else { RequestBegins(s, NoError, Shutdown, os); }
    case Data(chunk, os) => RequestBegins(s.(buffer := s.buffer + chunk), Bootstrap, NoError, os);
    hide RequestStop, FindNewline;
  }

  lemma RequestBegins(s: State, startError: Code, stopError: Code, os: Os)
    requires s.stop.Absent? && s.startError.NoError? && s.stopError.NoError?
    requires s.status.Stopped? ==> s.exitConfirmed && s.stopped.Fulfilled? && stopError.NoError?
    requires s.exitConfirmed ==> s.status.Stopped? && !s.start.Pending?
    requires !s.status.Failed?
    ensures var t := RequestStop(s, startError, stopError, os);
            && !t.timer && t.buffer == ""
            && (s.exitConfirmed ==>
                 t.status.Stopped? && t.stop.Fulfilled? && t.stopped.Fulfilled? && t.kills == s.kills)
            && (!s.exitConfirmed ==> t.kills == s.kills + 1 && t.waitingForExit)
            && (!s.exitConfirmed && os.killed && s.canObserveExit && os.armed ==>
                 && t.status.Stopping? && t.stop == Pending && t.watchdog == Termination
                 && t.watchdogs == s.watchdogs + 1 && t.start == s.start && t.stopped == s.stopped
                 && t.startError == startError && t.stopError == stopError)
            && (!s.exitConfirmed && !(os.killed && s.canObserveExit && os.armed) ==> FailsWith(s, t, Shutdown))
  {
    var noted := NoteErrors(s, startError, stopError);
    assert noted == s.(timer := false, buffer := "", startError := startError, stopError := stopError);
    if !s.exitConfirmed { KillBegins(noted, os); }
    hide Terminate, NoteErrors;
  }

  lemma KillBegins(s: State, os: Os)
    requires !s.status.Failed?
    ensures var t := Terminate(s, os);
            && t.timer == s.timer && t.buffer == s.buffer && t.kills == s.kills + 1 && t.waitingForExit
            && (os.killed && s.canObserveExit && os.armed ==>
                 && t.status.Stopping? && t.stop == Pending && t.watchdog == Termination
                 && t.watchdogs == s.watchdogs + 1 && t.start == s.start && t.stopped == s.stopped
                 && t.startError == s.startError && t.stopError == s.stopError)
            && (!(os.killed && s.canObserveExit && os.armed) ==> FailsWith(s, t, Shutdown))
  {
    var t := s.(status := Stopping, stop := Pending, waitingForExit := true, kills := s.kills + 1);
    FailureAnswers(t, Shutdown);
    assert FailsWith(s, FailShutdown(t, Shutdown), Shutdown);
    hide FailShutdown, FailsWith;
  }

  lemma FailureAnswers(s: State, code: Code)
    requires !s.status.Failed? && !s.stop.Absent?
    ensures var t := FailShutdown(s, code);
            && FailsWith(s, t, code) && t.timer == s.timer && t.buffer == s.buffer && t.kills == s.kills
            && t.waitingForExit == s.waitingForExit
  {
  }

  /** Every later request changes nothing. */
  lemma LaterRequests(s: State, e: Event, parse: string -> Option<int>)
    requires Reachable(s, parse) && Enabled(s, e) && Asks(s, e, parse).Some? && !s.stop.Absent?
    ensures Apply(s, e, parse) == s
  {
    ReachableInv(s, parse);
    hide Reachable, FindNewline;
  }

  /** The output before the first line is complete is kept, and a first line that is a port makes the
      sidecar run and start resolve with it. */
  lemma DataAnswers(s: State, chunk: string, os: Os, parse: string -> Option<int>)
    requires Reachable(s, parse) && Enabled(s, Data(chunk, os)) && !BadLine(s.buffer + chunk, parse)
    ensures var t, text := Apply(s, Data(chunk, os), parse), s.buffer + chunk;
            if FindNewline(text) == |text| then t == s.(buffer := text)
            else
              && t.status.Running? && t.start.Fulfilled? && Some(t.port as int) == parse(text[..FindNewline(text)])
              && !t.timer && t.buffer == "" && t.kills == s.kills && t.stop.Absent?
  {
    ReachableInv(s, parse);
    hide Reachable, FindNewline, RequestStop;
  }

  /** An exit that nobody asked for ends the sidecar at once: start fails if it was starting. One that
      was asked for is confirmed, unwatched, and handled next. */
  lemma ExitAnswers(s: State, parse: string -> Option<int>)
    requires Reachable(s, parse)
    ensures var t := Apply(s, Exit, parse);
            && t.exitConfirmed && (s.exitConfirmed ==> t == s)
            && (!s.exitConfirmed && (s.status.Starting? || s.status.Running?) ==>
                 && t.status.Stopped? && t.stopped.Fulfilled? && t.stop == s.stop
                 && t.start == (if s.status.Starting? then Rejected(Bootstrap) else s.start))
            && (!s.exitConfirmed && (s.status.Stopping? || s.status.Failed?) ==>
                 t == s.(exitConfirmed := true, watchdog := Unwatched))
  {
    ReachableInv(s, parse);
    hide Reachable;
  }

  /** The end of a shutdown whose exit is confirmed: it fails if something went wrong besides, and
      otherwise stop and stopped resolve and an interrupted start is rejected with its cause. */
  lemma ExitHandledAnswers(s: State, parse: string -> Option<int>)
    requires Reachable(s, parse) && Enabled(s, ExitHandled) && s.status.Stopping?
    ensures var t := Apply(s, ExitHandled, parse);
            && t.exitHandled
            && (s.stopError.NoError? ==>
                 && t.status.Stopped? && t.stop.Fulfilled? && t.stopped.Fulfilled?
                 && t.start == (if s.start.Pending? then Rejected(s.startError) else s.start))
            && (!s.stopError.NoError? ==> FailsWith(s, t, s.stopError))
  {
    ReachableInv(s, parse);
    hide Reachable;
  }

  /** The first watchdog that finds no exit kills once more and watches again; a second one, one for a
      process that never spawned, or a kill or timer that is refused, fails the shutdown. */
  lemma WatchdogAnswers(s: State, os: Os, parse: string -> Option<int>)
    requires Reachable(s, parse) && Enabled(s, WatchdogFired(os))
    ensures var t := Apply(s, WatchdogFired(os), parse);
            if s.watchdog == Termination && !s.escalated && os.killed && os.armed then
              t == s.(escalated := true, kills := s.kills + 1, watchdog := Termination, watchdogs := s.watchdogs + 1)
            else FailsWith(s, t, Shutdown)
    ensures Apply(s, WatchdogFired(os), parse).kills ==
              s.kills + if s.watchdog == Termination && !s.escalated then 1 else 0
  {
    ReachableInv(s, parse);
    hide Reachable;
  }

  /** An error before the process has spawned kills nothing: its exit is awaited under a watchdog, or
      the shutdown has failed; an error during a shutdown makes it fail in the end. */
  lemma ChildErrorAnswers(s: State, os: Os, parse: string -> Option<int>)
    requires Reachable(s, parse) && Enabled(s, ChildError(os)) && Asks(s, ChildError(os), parse).None?
    ensures var t := Apply(s, ChildError(os), parse);
            && t.kills == s.kills
            && (s.status.Starting? && os.armed ==>
                 && t.status.Stopping? && t.stop == Pending && t.watchdog == Unspawned && t.waitingForExit
                 && t.startError == Bootstrap && t.start == s.start && t.watchdogs == s.watchdogs + 1 && !t.timer)
            && (s.status.Starting? && !os.armed ==> FailsWith(s, t, Shutdown))
            && (s.status.Stopping? ==> t == s.(stopError := if s.stopError.NoError? then Shutdown else s.stopError))
            && (s.status.Stopped? || s.status.Failed? ==> t == s)
  {
    ReachableInv(s, parse);
    hide Reachable, RequestStop;
  }

  /** A sidecar is handed out starting, with its timer running if it could be armed, or already in its
      shutdown if it cannot be observed or timed. */
  lemma CreateAnswers(setup: Setup, spawnConfirmed: bool, os: Os)
    ensures var s := Create(setup, spawnConfirmed, os);
            && s.spawnConfirmed == spawnConfirmed && (s.canObserveExit <==> !setup.NoListeners?)
            && (setup.Complete? ==> s.status.Starting? && s.timer && s.kills == 0 && s.start.Pending? && s.stop.Absent?)
            && (!setup.Complete? ==>
                 && s.kills == 1 && !s.timer
                 && (setup.NoTimer? && os.killed && os.armed ==> s.status.Stopping? && s.startError == Bootstrap)
                 && (setup.NoListeners? || !os.killed || !os.armed ==>
                      s.status.Failed? && s.start == Rejected(Shutdown) && s.stopped == Rejected(Shutdown)))
  {
  }

  lemma RequestKeepsSpawn(s: State, startError: Code, stopError: Code, os: Os)
    ensures RequestStop(s, startError, stopError, os).spawnConfirmed == s.spawnConfirmed
  {
    hide SettlePendingStart, Settle, Answer, First;
  }

  lemma ExitKeepsSpawn(s: State)
    ensures OnExit(s).spawnConfirmed == s.spawnConfirmed
    ensures OnExitHandled(s).spawnConfirmed == s.spawnConfirmed
  {
    hide SettlePendingStart, Settle, Answer;
  }

  lemma WaitKeepsSpawn(s: State, os: Os)
    ensures WaitForUnspawned(s, os).spawnConfirmed == s.spawnConfirmed
  {
    hide Settle, Answer;
  }

  lemma WatchdogKeepsSpawn(s: State, os: Os)
    ensures OnWatchdog(s, os).spawnConfirmed == s.spawnConfirmed
  {
    hide Settle, Answer;
  }

  lemma SpawnStays(s: State, e: Event, parse: string -> Option<int>)
    ensures Apply(s, e, parse).spawnConfirmed == (s.spawnConfirmed || e.Spawned?)
  {
    hide FindNewline, RequestStop, OnExit, OnExitHandled, OnWatchdog, WaitForUnspawned;
    match e
    case Exit => ExitKeepsSpawn(s);
    case ExitHandled => ExitKeepsSpawn(s);
    case Spawned =>
    case ChildError(os) =>
      WaitKeepsSpawn(s, os);
      RequestKeepsSpawn(s, Bootstrap, NoError, os);
      RequestKeepsSpawn(s, NoError, Shutdown, os);
    case Data(chunk, os) => RequestKeepsSpawn(s.(buffer := s.buffer + chunk), Bootstrap, NoError, os);
    case StartupTimeout(os) => RequestKeepsSpawn(s.(timer := false), Timeout, NoError, os);
    case WatchdogFired(os) => WatchdogKeepsSpawn(s, os);
    case Stop(os) => RequestKeepsSpawn(s, if s.status.Starting? then Cancelled else NoError, NoError, os);
  }

  /** The process counts as spawned from its spawn event on, if it did not when it was created. */
  lemma {:induction false} SpawnIsRemembered(s: State, run: seq<Event>, parse: string -> Option<int>)
    requires Feasible(s, run, parse)
    ensures Exec(s, run, parse).spawnConfirmed <==> s.spawnConfirmed || Spawned in run
    decreases |run|
  {
    if run != [] {
      hide Apply, Enabled;
      SpawnStays(s, run[0], parse);
      SpawnIsRemembered(Apply(s, run[0], parse), run[1..], parse);
    }
  }
}
