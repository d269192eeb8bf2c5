/** startSidecar's closure as an object: its variables are fields, grouped by what they are for,
    and its event handlers are methods. `Handle` runs one of them to its end: it keeps the
    sidecar's invariant and never touches a promise that has settled. */
module SidecarObject {
  import opened Optional
  import opened Text
  import opened Sidecar
  import SidecarProofs

  datatype Promises = Promises(start: Promise, port: nat, stopped: Promise, stop: Promise)

  datatype Startup = Startup(timer: bool, buffer: string, error: Code, canObserveExit: bool, spawnConfirmed: bool)

  datatype Ending = Ending(confirmed: bool, waiting: bool, handled: bool, watchdog: Watchdog, escalated: bool,
      error: Code, kills: nat, watchdogs: nat)

  class Process {
    var status: Status
    var promises: Promises
    var startup: Startup
    var ending: Ending

    function View(): State
      reads this
    {
      State(status, promises.start, promises.port, promises.stopped, promises.stop, ending.confirmed, ending.waiting,
            ending.handled, startup.timer, ending.watchdog, ending.escalated, startup.buffer, startup.error,
            ending.error, startup.canObserveExit, startup.spawnConfirmed, ending.kills, ending.watchdogs)
    }

    /** What holds between any two events. */
    ghost predicate Valid()
      reads this
    {
      SidecarProofs.Inv(View())
    }

    /** Startup with every listener installed and the startup timer armed. */
    constructor (spawnConfirmed: bool, os: Os)
      ensures Valid() && View() == Create(Complete, spawnConfirmed, os)
    {
      status, promises := Starting, Promises(Pending, 0, Pending, Absent);
      startup := Startup(true, "", NoError, true, spawnConfirmed);
      ending := Ending(false, false, false, Unwatched, false, NoError, 0, 0);
    }

    method ClearStartup()
      modifies this`startup
      ensures View() == CleanupStartup(old(View()))
    {
      startup := startup.(timer := false, buffer := "");
    }

    method Fail(code: Code)
      modifies this
      ensures View() == FailShutdown(old(View()), code)
    {
      if status.Failed? { return; }
      ending := ending.(watchdog := Unwatched);
      status := Failed;
      promises := promises.(start := Settle(promises.start, Rejected(code)));
      promises := promises.(stopped := Rejected(code), stop := Answer(promises.stop, Rejected(code)));
    }

    method ArmWatchdog(w: Watchdog, armed: bool)
      modifies this
      ensures View() == Arm(old(View()), w, armed)
    {
      if armed {
        ending := ending.(watchdog := w, watchdogs := ending.watchdogs + 1);
      } else {
        Fail(Shutdown);
      }
    }

    method SettleStopped()
      modifies this`promises, this`status
      ensures View() == old(View()).(status := Stopped, start := SettlePendingStart(old(View())), stopped := Fulfilled)
    {
      status := Stopped;
      if !startup.error.NoError? { promises := promises.(start := Settle(promises.start, Rejected(startup.error))); }
      promises := promises.(stopped := Fulfilled);
    }

    method Finish()
      modifies this
      ensures View() == EndNow(old(View()))
    {
      hide FailShutdown;
      if !ending.error.NoError? {
        promises := promises.(stop := Pending);
        Fail(ending.error);
        return;
      }
      SettleStopped();
      promises := promises.(stop := Fulfilled);
    }

    method Kill(os: Os)
      modifies this
      ensures View() == Terminate(old(View()), os)
    {
      hide FailShutdown, Arm;
      status := Stopping;
      promises := promises.(stop := Pending);
      ending := ending.(waiting := true, kills := ending.kills + 1);
      if !os.killed || !startup.canObserveExit {
        Fail(Shutdown);
        return;
      }
      ArmWatchdog(Termination, os.armed);
    }

    method KeepErrors(startCode: Code, stopCode: Code)
      modifies this`startup, this`ending
      ensures View() == NoteErrors(old(View()), startCode, stopCode)
    {
      startup := startup.(error := First(startup.error, startCode));
      ending := ending.(error := First(ending.error, stopCode));
      ClearStartup();
    }

    method BeginStop(startCode: Code, stopCode: Code, os: Os)
      modifies this
      ensures View() == RequestStop(old(View()), startCode, stopCode, os)
    {
      hide EndNow, Terminate, NoteErrors;
      if !promises.stop.Absent? { return; }
      KeepErrors(startCode, stopCode);
      if ending.confirmed || status.Stopped? {
        Finish();
        return;
      }
      Kill(os);
    }

    method OnTerminated()
      modifies this
      ensures View() == OnExit(old(View()))
    {
      if ending.confirmed { return; }
      ending := ending.(confirmed := true, watchdog := Unwatched);
      if status.Starting? {
        ClearStartup();
        status := Stopped;
        promises := promises.(start := Settle(promises.start, Rejected(Bootstrap)), stopped := Fulfilled);
      } else if status.Running? {
        status := Stopped;
        promises := promises.(stopped := Fulfilled);
      }
    }

    /** The callback of waitForExit. */
    method AfterExit()
      modifies this
      ensures View() == OnExitHandled(old(View()))
    {
      hide FailShutdown;
      ending := ending.(handled := true);
      if status.Failed? { return; }
      if !ending.error.NoError? {
        Fail(ending.error);
        return;
      }
      SettleStopped();
      promises := promises.(stop := Answer(promises.stop, Fulfilled));
    }

    method AwaitUnspawned(os: Os)
      modifies this
      ensures View() == WaitForUnspawned(old(View()), os)
    {
      hide Arm;
      if !promises.stop.Absent? { return; }
      startup := startup.(error := Bootstrap);
      ClearStartup();
      status := Stopping;
      promises := promises.(stop := Pending);
      ending := ending.(waiting := true);
      ArmWatchdog(Unspawned, os.armed);
    }

    method OnError(os: Os)
      modifies this
      ensures View() == OnChildError(old(View()), os)
    {
      hide RequestStop, WaitForUnspawned;
      match status
      case Starting => if startup.spawnConfirmed { BeginStop(Bootstrap, NoError, os); } else { AwaitUnspawned(os); }
      case Stopping => if ending.error.NoError? { ending := ending.(error := Shutdown); }
      case Running => BeginStop(NoError, Shutdown, os);
      case _ =>
    }

    method ReadPort(line: string, parse: string -> Option<int>, os: Os)
      modifies this
      ensures View() == OnLine(old(View()), line, parse, os)
    {
      hide RequestStop;
      var port := parse(line);
      if port.None? || port.value < 1 || port.value > 65535 {
        BeginStop(Bootstrap, NoError, os);
        return;
      }
      ClearStartup();
      status := Running;
      promises := promises.(start := Fulfilled, port := port.value);
    }

    method OnOutput(chunk: string, parse: string -> Option<int>, os: Os)
      modifies this
      ensures View() == OnData(old(View()), chunk, parse, os)
    {
      hide OnLine;
      startup := startup.(buffer := startup.buffer + chunk);
      var newline := FirstNewline(startup.buffer);
      if newline == |startup.buffer| || !status.Starting? { return; }
      ReadPort(startup.buffer[..newline], parse, os);
    }

    method OnShutdownTimeout(os: Os)
      modifies this
      ensures View() == OnWatchdog(old(View()), os)
    {
      hide FailShutdown, Arm;
      var unspawned := ending.watchdog == Unspawned;
      ending := ending.(watchdog := Unwatched);
      if ending.confirmed || status.Failed? { return; }
      if unspawned {
        Fail(Shutdown);
        return;
      }
      if !ending.escalated {
        ending := ending.(escalated := true, kills := ending.kills + 1);
        if !os.killed {
          Fail(Shutdown);
          return;
        }
        ArmWatchdog(Termination, os.armed);
        return;
      }
      Fail(Shutdown);
    }

    method NoteSpawn()
      modifies this`startup
      ensures View() == old(View()).(spawnConfirmed := true)
    {
      startup := startup.(spawnConfirmed := true);
    }

    method OnStartupTimeout(os: Os)
      modifies this
      ensures View() == RequestStop(old(View()).(timer := false), Timeout, NoError, os)
    {
      startup := startup.(timer := false);
      BeginStop(Timeout, NoError, os);
    }

    method CallStop(os: Os)
      modifies this
      ensures View() == OnStop(old(View()), os)
    {
      BeginStop(if status.Starting? then Cancelled else NoError, NoError, os);
    }

    /** One event of the process, one firing of a timer or one call of stop. */
    method Handle(e: Event, parse: string -> Option<int>)
      requires Valid() && Enabled(View(), e)
      modifies this
      ensures Valid() && View() == Apply(old(View()), e, parse)
      ensures SidecarProofs.Keeps(old(View()), View())
    {
      SidecarProofs.InvKept(View(), e, parse);
      SidecarProofs.SettledStays(View(), e, parse);
      hide SidecarProofs.Inv, SidecarProofs.Keeps, OnExit, OnExitHandled, OnChildError, OnData, RequestStop,
        OnWatchdog, Sidecar.OnStop;
      match e {
        case Exit => OnTerminated();
        case ExitHandled => AfterExit();
        case Spawned => NoteSpawn();
        case ChildError(os) => OnError(os);
        case Data(chunk, os) => OnOutput(chunk, parse, os);
        case StartupTimeout(os) => OnStartupTimeout(os);
        case WatchdogFired(os) => OnShutdownTimeout(os);
        case Stop(os) => CallStop(os);
      }
    }
  }

  method FirstNewline(text: string) returns (i: nat)
    ensures i == FindNewline(text)
  {
    i := 0;
    while i < |text| && text[i] != '\n'
      invariant i <= |text|
      invariant FindNewline(text) == i + FindNewline(text[i..])
    {
      assert text[i..][1..] == text[i + 1..];
      i := i + 1;
    }
  }
}
