/** What every run of a sidecar guarantees. */
module SidecarProofs {
  import opened Optional
  import opened Text
  import opened Sidecar

  /** The status determines what each promise has become. */
  predicate PromisesOk(s: State) {
    && (s.status.Starting? ==>
         s.start.Pending? && s.stopped.Pending? && s.stop.Absent? && s.startError.NoError? && s.stopError.NoError?)
    && (s.status.Running? ==>
         s.start.Fulfilled? && s.stopped.Pending? && s.stop.Absent? && s.startError.NoError? && s.stopError.NoError?)
    && (s.status.Stopping? ==>
         s.stopped.Pending? && s.stop == Pending && (s.start.Pending? <==> !s.startError.NoError?)
         && !s.start.Rejected?)
    && (s.status.Stopped? ==>
         !s.start.Pending? && s.stopped.Fulfilled? && (s.stop.Absent? || s.stop.Fulfilled?) && s.stopError.NoError?)
    && (s.status.Failed? ==> !s.start.Pending? && s.stopped.Rejected? && s.stop.Rejected?)
    && (s.start.Fulfilled? ==> 1 <= s.port <= 65535)
    && (s.stop.Absent? ==> s.startError.NoError? && s.stopError.NoError?)
  }

  predicate ExitOk(s: State) {
    && (s.exitConfirmed ==> !s.status.Starting? && !s.status.Running? && s.watchdog.Unwatched?)
    && (s.status.Stopped? ==> s.exitConfirmed)
    && (s.status.Stopping? ==> s.waitingForExit && !s.exitHandled)
    && (s.waitingForExit ==> !s.stop.Absent?)
    && (s.exitHandled ==> s.waitingForExit)
    && (s.timer ==> s.status.Starting?)
    && (s.buffer != "" ==> s.status.Starting?)
  }

  /** A stop in progress is always watched, and escalates at most once. */
  predicate WatchOk(s: State) {
    && (s.status.Stopping? && !s.exitConfirmed ==> !s.watchdog.Unwatched?)
    && (!s.watchdog.Unwatched? ==> s.status.Stopping? && !s.exitConfirmed)
    && (s.status.Starting? || s.status.Running? ==>
         s.kills == 0 && s.watchdogs == 0 && !s.escalated && s.watchdog.Unwatched?)
    && s.kills <= (if s.escalated then 2 else 1)
    && s.watchdogs <= (if s.escalated then 2 else 1)
    && (s.watchdog == Unspawned ==> !s.escalated && s.kills == 0)
  }

  predicate Inv(s: State) {
    PromisesOk(s) && ExitOk(s) && WatchOk(s)
  }

  lemma EndNowKeeps(s: State, startError: Code, stopError: Code)
    requires Inv(s) && s.stop.Absent? && (s.exitConfirmed || s.status.Stopped?)
    requires (s.status.Starting? <==> !startError.NoError?) && (!stopError.NoError? ==> s.status.Running?)
    ensures Inv(EndNow(NoteErrors(s, startError, stopError)))
  {
  }

  lemma TerminateKeeps(s: State, startError: Code, stopError: Code, os: Os)
    requires Inv(s) && s.stop.Absent? && !s.exitConfirmed && !s.status.Stopped?
    requires (s.status.Starting? <==> !startError.NoError?) && (!stopError.NoError? ==> s.status.Running?)
    ensures Inv(Terminate(NoteErrors(s, startError, stopError), os))
  {
  }

  lemma NotingKeeps(s: State, startError: Code, stopError: Code)
    ensures var t := NoteErrors(s, startError, stopError); t.exitConfirmed == s.exitConfirmed && t.status == s.status
  {
  }

  lemma RequestStopKeeps(s: State, startError: Code, stopError: Code, os: Os)
    requires Inv(s) && (s.status.Starting? <==> !startError.NoError?) && (!stopError.NoError? ==> s.status.Running?)
    ensures Inv(RequestStop(s, startError, stopError, os))
  {
    hide Inv, EndNow, Terminate, NoteErrors;
    NotingKeeps(s, startError, stopError);
    if s.stop.Absent? {
      if s.exitConfirmed || s.status.Stopped? {
        EndNowKeeps(s, startError, stopError);
      } else {
        TerminateKeeps(s, startError, stopError, os);
      }
    }
  }

  lemma CreateOk(setup: Setup, spawnConfirmed: bool, os: Os)
    ensures Inv(Create(setup, spawnConfirmed, os))
  {
  }

  lemma ExitKeeps(s: State)
    requires Inv(s)
    ensures Inv(OnExit(s))
  {
  }

  lemma FailKeeps(s: State, code: Code)
    requires Inv(s) && s.status.Stopping?
    ensures Inv(FailShutdown(s, code)) && Inv(FailShutdown(s.(exitHandled := true), code))
  {
  }

  lemma ExitHandledKeeps(s: State)
    requires Inv(s) && Enabled(s, ExitHandled)
    ensures Inv(OnExitHandled(s))
  {
    if s.status.Stopping? && !s.stopError.NoError? {
      FailKeeps(s, s.stopError);
      hide FailShutdown, Inv;
    }
  }

  lemma WatchdogKeeps(s: State, os: Os)
    requires Inv(s) && !s.watchdog.Unwatched?
    ensures Inv(OnWatchdog(s, os))
  {
  }

  lemma ChildErrorKeeps(s: State, os: Os)
    requires Inv(s) && !s.exitConfirmed
    ensures Inv(OnChildError(s, os))
  {
    if s.status.Starting? && s.spawnConfirmed { RequestStopKeeps(s, Bootstrap, NoError, os); }
    if s.status.Running? { RequestStopKeeps(s, NoError, Shutdown, os); }
    hide RequestStop;
  }

  lemma DataKeeps(s: State, chunk: string, parse: string -> Option<int>, os: Os)
    requires Inv(s) && s.status.Starting?
    ensures Inv(OnData(s, chunk, parse, os))
  {
    RequestStopKeeps(s.(buffer := s.buffer + chunk), Bootstrap, NoError, os);
    hide RequestStop;
  }

  lemma InvKept(s: State, e: Event, parse: string -> Option<int>)
    requires Inv(s) && Enabled(s, e)
    ensures Inv(Apply(s, e, parse))
  {
    hide OnExit, OnExitHandled, OnWatchdog, OnChildError, OnData, RequestStop;
    match e
    case Exit => ExitKeeps(s);
    case ExitHandled => ExitHandledKeeps(s);
    case Spawned =>
    case ChildError(os) => ChildErrorKeeps(s, os);
    case Data(chunk, os) => DataKeeps(s, chunk, parse, os);
    case StartupTimeout(os) => RequestStopKeeps(s.(timer := false), Timeout, NoError, os);
    case WatchdogFired(os) => WatchdogKeeps(s, os);
    case Stop(os) => RequestStopKeeps(s, if s.status.Starting? then Cancelled else NoError, NoError, os);
  }

  /** While startup lasts, no whole line has arrived. */
  predicate LineOpen(s: State) {
    s.status.Starting? ==> FindNewline(s.buffer) == |s.buffer|
  }

  lemma RequestStopLeaves(s: State, os: Os)
    requires s.stop.Absent? && s.status.Starting?
    ensures !RequestStop(s, Bootstrap, NoError, os).status.Starting?
              && !RequestStop(s, Bootstrap, NoError, os).status.Running?
  {
    var t := NoteErrors(s, Bootstrap, NoError);
    assert t.status.Starting?;
    hide NoteErrors, SettlePendingStart;
  }

  lemma LineKept(s: State, e: Event, parse: string -> Option<int>)
    requires Inv(s) && LineOpen(s) && Enabled(s, e)
    ensures LineOpen(Apply(s, e, parse))
  {
    hide FindNewline;
    match e
    case Data(chunk, os) => RequestStopLeaves(s.(buffer := s.buffer + chunk), os); hide RequestStop;
    case Stop(os) => RequestStopEnds(s, if s.status.Starting? then Cancelled else NoError, NoError, os);
        hide RequestStop;
    case StartupTimeout(os) => RequestStopEnds(s.(timer := false), Timeout, NoError, os); hide RequestStop;
    case ChildError(os) => RequestStopEnds(s, Bootstrap, NoError, os); RequestStopEnds(s, NoError, Shutdown, os);
        hide RequestStop;
    case _ =>
  }

  lemma RequestStopEnds(s: State, startError: Code, stopError: Code, os: Os)
    requires Inv(s)
    ensures !RequestStop(s, startError, stopError, os).status.Starting?
  {
  }

  /** A state of some sidecar after some run. */
  ghost predicate Reachable(s: State, parse: string -> Option<int>) {
    exists setup: Setup, spawnConfirmed: bool, os: Os, run: seq<Event> ::
      Feasible(Create(setup, spawnConfirmed, os), run, parse)
          && s == Exec(Create(setup, spawnConfirmed, os), run, parse)
  }

  lemma {:induction false} RunInv(s: State, run: seq<Event>, parse: string -> Option<int>)
    requires Inv(s) && LineOpen(s) && Feasible(s, run, parse)
    ensures Inv(Exec(s, run, parse)) && LineOpen(Exec(s, run, parse))
    decreases |run|
  {
    hide Inv, LineOpen, Apply, Enabled;
    if run != [] {
      InvKept(s, run[0], parse);
      LineKept(s, run[0], parse);
      RunInv(Apply(s, run[0], parse), run[1..], parse);
    }
  }

  lemma ReachableInv(s: State, parse: string -> Option<int>)
    requires Reachable(s, parse)
    ensures Inv(s) && LineOpen(s)
  {
    var setup: Setup, spawnConfirmed: bool, os: Os, run: seq<Event> :|
      Feasible(Create(setup, spawnConfirmed, os), run, parse)
          && s == Exec(Create(setup, spawnConfirmed, os), run, parse);
    CreateOk(setup, spawnConfirmed, os);
    assert LineOpen(Create(setup, spawnConfirmed, os)) by {
      RequestStopLeaves(State(Starting, Pending, 0, Pending, Absent, false, false, false, false, Unwatched, false, "",
                              NoError, NoError, !setup.NoListeners?, spawnConfirmed, 0, 0), os);
    }
    hide Create;
    RunInv(Create(setup, spawnConfirmed, os), run, parse);
  }

  // ---------------------------------------------------------------- promises

  /** start has settled exactly when startup is over, except that a stop which interrupts
      startup settles it with the first error once the exit is confirmed. */
  lemma StartSettlesWithStartup(s: State, parse: string -> Option<int>)
    requires Reachable(s, parse)
    ensures s.status.Starting? ==> s.start.Pending?
    ensures s.status.Running? ==> s.start.Fulfilled? && 1 <= s.port <= 65535
    ensures s.status.Stopped? || s.status.Failed? ==> !s.start.Pending?
  {
    ReachableInv(s, parse);
  }

  /** stop and stopped resolve only after the exit of the process was confirmed, and reject
      exactly when the shutdown failed. */
  lemma StoppedMeansExited(s: State, parse: string -> Option<int>)
    requires Reachable(s, parse)
    ensures s.stopped.Fulfilled? ==> s.exitConfirmed && s.status.Stopped?
    ensures s.stop.Fulfilled? ==> s.exitConfirmed && s.status.Stopped?
    ensures s.stopped.Rejected? <==> s.status.Failed?
    ensures s.stop.Rejected? <==> s.status.Failed?
  {
    ReachableInv(s, parse);
  }

  /** A promise that has settled keeps its outcome, whatever the handlers attempt later. */
  predicate Keeps(s: State, t: State) {
    && (!s.start.Pending? ==> t.start == s.start && t.port == s.port)
    && (!s.stopped.Pending? ==> t.stopped == s.stopped)
    && (!s.stop.Absent? && !s.stop.Pending? ==> t.stop == s.stop)
    && (s.status.Stopped? || s.status.Failed? ==> t.status == s.status)
  }

  lemma RequestStopSettles(s: State, startError: Code, stopError: Code, os: Os)
    requires Inv(s) && (s.status.Stopped? ==> stopError.NoError?)
    ensures Keeps(s, RequestStop(s, startError, stopError, os))
  {
  }

  lemma SettledStays(s: State, e: Event, parse: string -> Option<int>)
    requires Inv(s) && Enabled(s, e)
    ensures Keeps(s, Apply(s, e, parse))
  {
    match e
    case StartupTimeout(os) => RequestStopSettles(s.(timer := false), Timeout, NoError, os);
    case Stop(os) => RequestStopSettles(s, if s.status.Starting? then Cancelled else NoError, NoError, os);
    case ChildError(os) =>
      RequestStopSettles(s, Bootstrap, NoError, os);
      if !s.status.Stopped? { RequestStopSettles(s, NoError, Shutdown, os); }
    case Data(chunk, os) => RequestStopSettles(s.(buffer := s.buffer + chunk), Bootstrap, NoError, os);
    case _ =>
    hide RequestStop;
  }

  /** Stopped and Failed are final, and no settled promise ever changes. */
  lemma SettledForever(s: State, run: seq<Event>, parse: string -> Option<int>)
    requires Reachable(s, parse) && Feasible(s, run, parse)
    ensures Keeps(s, Exec(s, run, parse))
  {
    ReachableInv(s, parse);
    SettledRun(s, run, parse);
  }

  lemma {:induction false} SettledRun(s: State, run: seq<Event>, parse: string -> Option<int>)
    requires Inv(s) && Feasible(s, run, parse)
    ensures Keeps(s, Exec(s, run, parse))
    decreases |run|
  {
    if run != [] {
      InvKept(s, run[0], parse);
      SettledStays(s, run[0], parse);
      SettledRun(Apply(s, run[0], parse), run[1..], parse);
    }
    hide Inv, Apply, Enabled;
  }

  // ---------------------------------------------------------------- shutdown

  /** A sidecar is killed at most twice and watched at most twice. */
  lemma TwoKillsTwoWatchdogs(s: State, parse: string -> Option<int>)
    requires Reachable(s, parse)
    ensures s.kills <= 2 && s.watchdogs <= 2
  {
    ReachableInv(s, parse);
  }

  /** How far a shutdown is from its end. */
  function Rank(s: State): nat {
    if s.status.Stopped? || s.status.Failed? then 0
    else if !s.status.Stopping? then 4
    else if s.exitConfirmed then 1
    else if s.escalated then 2
    else 3
  }

  /** A stop in progress is never stuck: the exit callback or a watchdog is always due, and
      either one brings the end nearer. */
  lemma StoppingProgresses(s: State, parse: string -> Option<int>, os: Os)
    requires Reachable(s, parse) && s.status.Stopping?
    ensures Enabled(s, ExitHandled) || Enabled(s, WatchdogFired(os))
    ensures Enabled(s, ExitHandled) ==> Rank(Apply(s, ExitHandled, parse)) < Rank(s)
    ensures Enabled(s, WatchdogFired(os)) ==> Rank(Apply(s, WatchdogFired(os), parse)) < Rank(s)
  {
    ReachableInv(s, parse);
  }

  lemma RequestStopRank(s: State, startError: Code, stopError: Code, os: Os)
    requires Inv(s) && (s.status.Stopped? ==> stopError.NoError?)
    ensures Rank(RequestStop(s, startError, stopError, os)) <= Rank(s)
  {
  }

  /** No other event moves a shutdown back. */
  lemma RankNeverGrows(s: State, e: Event, parse: string -> Option<int>)
    requires Reachable(s, parse) && Enabled(s, e)
    ensures Rank(Apply(s, e, parse)) <= Rank(s)
  {
    ReachableInv(s, parse);
    RankStays(s, e, parse);
    hide Reachable, Rank, Apply;
  }

  lemma RankStays(s: State, e: Event, parse: string -> Option<int>)
    requires Inv(s) && Enabled(s, e)
    ensures Rank(Apply(s, e, parse)) <= Rank(s)
  {
    match e
    case StartupTimeout(os) => RequestStopRank(s.(timer := false), Timeout, NoError, os);
    case Stop(os) => RequestStopRank(s, if s.status.Starting? then Cancelled else NoError, NoError, os);
    case ChildError(os) =>
      RequestStopRank(s, Bootstrap, NoError, os);
      if !s.status.Stopped? { RequestStopRank(s, NoError, Shutdown, os); }
    case Data(chunk, os) => RequestStopRank(s.(buffer := s.buffer + chunk), Bootstrap, NoError, os);
    case _ =>
    hide RequestStop;
  }

  /** The callbacks that a shutdown waits for. */
  predicate Due(e: Event) {
    e.ExitHandled? || e.WatchdogFired?
  }

  /** The rank, and the exit callback that may still come to a shutdown that has failed. */
  function Callbacks(s: State): nat {
    Rank(s) + if s.exitHandled then 0 else 1
  }

  lemma CallbacksDrop(s: State, e: Event, parse: string -> Option<int>)
    requires Inv(s) && Enabled(s, e)
    ensures Callbacks(Apply(s, e, parse)) + (if Due(e) then 1 else 0) <= Callbacks(s)
  {
    RankStays(s, e, parse);
    HandledStays(s, e, parse);
    if e.WatchdogFired? { WatchdogDrops(s, e.os); }
    hide Rank, Apply;
  }

  lemma WatchdogDrops(s: State, os: Os)
    requires Inv(s) && Enabled(s, WatchdogFired(os))
    ensures Rank(OnWatchdog(s, os)) < Rank(s)
  {
  }

  lemma RequestKeepsHandled(s: State, startError: Code, stopError: Code, os: Os)
    ensures RequestStop(s, startError, stopError, os).exitHandled == s.exitHandled
  {
  }

  lemma HandledStays(s: State, e: Event, parse: string -> Option<int>)
    requires Inv(s) && Enabled(s, e)
    ensures e.ExitHandled? ==> !s.exitHandled && Apply(s, e, parse).exitHandled
    ensures !e.ExitHandled? ==> Apply(s, e, parse).exitHandled == s.exitHandled
  {
    match e
    case StartupTimeout(os) => RequestKeepsHandled(s.(timer := false), Timeout, NoError, os);
    case Stop(os) => RequestKeepsHandled(s, if s.status.Starting? then Cancelled else NoError, NoError, os);
    case ChildError(os) =>
      RequestKeepsHandled(s, Bootstrap, NoError, os);
      RequestKeepsHandled(s, NoError, Shutdown, os);
    case Data(chunk, os) => RequestKeepsHandled(s.(buffer := s.buffer + chunk), Bootstrap, NoError, os);
    case _ =>
    hide RequestStop, FindNewline;
  }

  /** How many exit and watchdog callbacks run. */
  function DueIn(run: seq<Event>): nat {
    if run == [] then 0 else (if Due(run[0]) then 1 else 0) + DueIn(run[1..])
  }

  lemma {:induction false} CallbacksRun(s: State, run: seq<Event>, parse: string -> Option<int>)
    requires Inv(s) && Feasible(s, run, parse)
    ensures var t := Exec(s, run, parse);
            && Inv(t) && Callbacks(t) + DueIn(run) <= Callbacks(s)
            && (!s.stop.Absent? ==> !t.stop.Absent?)
    decreases |run|
  {
    if run != [] {
      InvKept(s, run[0], parse);
      CallbacksDrop(s, run[0], parse);
      if !s.stop.Absent? { StopStays(s, run[0], parse); }
      hide Inv, Apply, Enabled, Callbacks;
      CallbacksRun(Apply(s, run[0], parse), run[1..], parse);
    }
  }

  /** Every shutdown ends, in every run: from its request on at most four exit and watchdog callbacks
      run, and when none is due the sidecar is Stopped, with its exit confirmed, or Failed; either way
      stop and stopped have settled. */
  lemma EveryShutdownEnds(s: State, run: seq<Event>, parse: string -> Option<int>, os: Os)
    requires Reachable(s, parse) && s.status.Stopping? && Feasible(s, run, parse)
    ensures DueIn(run) <= 4
    ensures var t := Exec(s, run, parse);
            !Enabled(t, ExitHandled) && !Enabled(t, WatchdogFired(os)) ==>
              || (t.status.Stopped? && t.exitConfirmed && t.stop.Fulfilled? && t.stopped.Fulfilled?)
              || (t.status.Failed? && t.stop.Rejected? && t.stopped.Rejected?)
  {
    ReachableInv(s, parse);
    CallbacksRun(s, run, parse);
    hide Reachable, Apply;
  }

  lemma StopStays(s: State, e: Event, parse: string -> Option<int>)
    requires Inv(s) && Enabled(s, e) && !s.stop.Absent?
    ensures !Apply(s, e, parse).stop.Absent?
  {
    hide FindNewline;
  }

  // ---------------------------------------------------------------- the printed port

  /** Delivers chunks until startup is over; the listener is removed then. */
  function Feed(s: State, chunks: seq<string>, parse: string -> Option<int>, os: Os): State
    decreases |chunks|
  {
    if chunks == [] || !s.status.Starting? then s else Feed(OnData(s, chunks[0], parse, os), chunks[1..], parse, os)
  }

  function Concat(chunks: seq<string>): string
    decreases |chunks|
  {
    if chunks == [] then "" else chunks[0] + Concat(chunks[1..])
  }

  lemma {:induction false} NewlineInPrefix(a: string, b: string)
    ensures FindNewline(a) < |a| ==> FindNewline(a + b) == FindNewline(a)
    decreases |a|
  {
    if a != "" && a[0] != '\n' {
      NewlineInPrefix(a[1..], b);
      assert (a + b)[1..] == a[1..] + b;
    }
  }

  lemma BufferIsDropped(s: State, buffer: string, os: Os)
    requires s.stop.Absent? && s.status.Starting?
    ensures RequestStop(s.(buffer := buffer), Bootstrap, NoError, os) == RequestStop(s, Bootstrap, NoError, os)
  {
    assert NoteErrors(s.(buffer := buffer), Bootstrap, NoError) == NoteErrors(s, Bootstrap, NoError);
    hide NoteErrors;
  }

  /** What follows a whole line is dropped with the buffer. */
  lemma LineDecides(s: State, buffer: string, line: string, parse: string -> Option<int>, os: Os)
    requires s.stop.Absent? && s.status.Starting?
    ensures OnLine(s.(buffer := buffer), line, parse, os) == OnLine(s, line, parse, os)
    ensures !OnLine(s, line, parse, os).status.Starting?
  {
    BufferIsDropped(s, buffer, os);
    RequestStopLeaves(s, os);
    hide RequestStop;
  }

  lemma FirstLine(a: string, chunk: string, rest: string)
    ensures a + (chunk + rest) == (a + chunk) + rest
    ensures FindNewline(a + chunk) < |a + chunk| ==>
      FindNewline(a + (chunk + rest)) == FindNewline(a + chunk)
      && (a + (chunk + rest))[..FindNewline(a + chunk)] == (a + chunk)[..FindNewline(a + chunk)]
  {
    assert a + (chunk + rest) == (a + chunk) + rest;
    NewlineInPrefix(a + chunk, rest);
  }

  lemma WholeLine(s: State, chunk: string, rest: string, parse: string -> Option<int>, os: Os)
    requires s.status.Starting? && s.stop.Absent? && FindNewline(s.buffer + chunk) < |s.buffer + chunk|
    ensures OnData(s, chunk + rest, parse, os) == OnData(s, chunk, parse, os)
    ensures !OnData(s, chunk, parse, os).status.Starting?
  {
    var buffer := s.buffer + chunk;
    FirstLine(s.buffer, chunk, rest);
    LineDecides(s, buffer, buffer[..FindNewline(buffer)], parse, os);
    LineDecides(s, buffer + rest, buffer[..FindNewline(buffer)], parse, os);
    hide OnLine, FindNewline;
  }

  lemma PartialLine(s: State, chunk: string, rest: string, parse: string -> Option<int>, os: Os)
    requires s.status.Starting? && FindNewline(s.buffer + chunk) == |s.buffer + chunk|
    ensures OnData(s, chunk, parse, os) == s.(buffer := s.buffer + chunk)
    ensures OnData(OnData(s, chunk, parse, os), rest, parse, os) == OnData(s, chunk + rest, parse, os)
  {
    FirstLine(s.buffer, chunk, rest);
    hide OnLine, FindNewline;
  }

  /** The port, and everything else startup decides, does not depend on how the output is cut
      into chunks. */
  lemma {:induction false} ChunkingIsIrrelevant(s: State, chunks: seq<string>, parse: string -> Option<int>, os: Os)
    requires Inv(s) && s.status.Starting? && LineOpen(s)
    ensures Feed(s, chunks, parse, os) == OnData(s, Concat(chunks), parse, os)
    decreases |chunks|
  {
    if chunks == [] {
      assert s.buffer + "" == s.buffer;
    } else {
      var t := OnData(s, chunks[0], parse, os);
      DataKeeps(s, chunks[0], parse, os);
      if FindNewline(s.buffer + chunks[0]) < |s.buffer + chunks[0]| {
        WholeLine(s, chunks[0], Concat(chunks[1..]), parse, os);
      } else {
        PartialLine(s, chunks[0], Concat(chunks[1..]), parse, os);
        ChunkingIsIrrelevant(t, chunks[1..], parse, os);
      }
    }
    hide OnData, Inv;
  }

  /** Startup succeeds exactly when the first line of the output names a valid port, and start
      then resolves with that port. */
  lemma PortIsFirstLine(s: State, chunks: seq<string>, parse: string -> Option<int>, os: Os)
    requires Inv(s) && s.status.Starting? && s.buffer == ""
    ensures var text, t := Concat(chunks), Feed(s, chunks, parse, os);
      var line := parse(text[..FindNewline(text)]);
      && (t.status.Running? <==> FindNewline(text) < |text| && line.Some? && 1 <= line.value <= 65535)
      && (t.status.Running? ==> t.start.Fulfilled? && t.port == line.value)
  {
    var text := Concat(chunks);
    assert FindNewline("") == 0;
    ChunkingIsIrrelevant(s, chunks, parse, os);
    assert s.buffer + text == text;
    RequestStopLeaves(s.(buffer := text), os);
    hide RequestStop, Feed, FindNewline, Concat;
  }
}
