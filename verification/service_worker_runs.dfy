/** What a worker thread reports and how it exits, over each of its runs. */
module ServiceWorkerRuns {
  import opened Optional
  import opened ServiceCore
  import opened ServiceWorker

  /** One step of the worker: whether it is cancelled then, its channel, and the foreign answer. */
  datatype Turn = Turn(cancelled: bool, ch: Channel, choice: Choice)

  /** What has happened to a worker so far: what went wrong before it could serve, what it put on
      the ready channel, how the service ended by itself, and what its shutdown yielded. */
  datatype Story = Story(fault: Option<Code>, reported: Option<Message>, served: Option<Exit>, shutdown: Option<Exit>)

  const Untold := Story(None, None, None, None)

  /** What can go wrong on the way to serving, by stage; a cancellation goes before a failure. */
  function FaultAt(pc: Pc, cancelled: bool, choice: Choice): Option<Code> {
    match pc
    case Building => if choice.Fail? then Some(Bootstrap) else None
    case Preparing => if choice.Fail? then Some(Config) else None
    case Bootstrapping => if cancelled then Some(Cancelled) else if choice.Fail? then Some(Bootstrap) else None
    case Binding => if cancelled then Some(Cancelled) else if choice.Fail? then Some(Bind) else None
    case Bound(port) => if port == 0 then Some(Bind) else None
    case _ => None
  }

  function Tell(story: Story, pc: Pc, turn: Turn): Story {
    Story(if story.fault.Some? then story.fault else FaultAt(pc, turn.cancelled, turn.choice),
          if pc.Sending? then Some(pc.message) else story.reported,
          if pc.Serving? && !turn.cancelled && turn.choice.ServiceEnds? then Some(turn.choice.served) else story.served,
          if pc.ShuttingDown? && turn.choice.ShutdownYields? then Some(turn.choice.exit) else story.shutdown)
  }

  predicate Feasible(w: Worker, turns: seq<Turn>)
    decreases |turns|
  {
    turns == []
    || (CanStep(w, turns[0].cancelled, turns[0].ch, turns[0].choice)
        && Feasible(WorkerStep(w, turns[0].cancelled, turns[0].ch, turns[0].choice).0, turns[1..]))
  }

  function Exec(w: Worker, turns: seq<Turn>): Worker
    requires Feasible(w, turns)
    decreases |turns|
  {
    if turns == [] then w
    else Exec(WorkerStep(w, turns[0].cancelled, turns[0].ch, turns[0].choice).0, turns[1..])
  }

  function Told(w: Worker, turns: seq<Turn>, story: Story): Story
    requires Feasible(w, turns)
    decreases |turns|
  {
    if turns == [] then story
    else
      Told(WorkerStep(w, turns[0].cancelled, turns[0].ch, turns[0].choice).0, turns[1..],
           Tell(story, w.pc, turns[0]))
  }

  /** The exit of a worker that did not panic, told from its story alone. */
  predicate EndsLike(story: Story, exit: Exit) {
    match story.fault
    case Some(code) => exit == Fault(code)
    case None =>
      && story.shutdown.Some?
      && (story.served.None? ==> exit == story.shutdown.value)
      && (story.served.Some? ==>
           exit.Fault? && (story.served.value.Clean? && story.shutdown.value.Fault? ==> exit == story.shutdown.value)
           && (story.served.value.Fault? || story.shutdown.value.Clean? ==> exit == Fault(Shutdown)))
  }

  /** The story so far agrees with where the worker is. */
  predicate Agrees(story: Story, w: Worker) {
    match w.pc
    case Exited(exit) =>
      !w.panicked ==>
        && EndsLike(story, exit)
        && (story.fault.None? ==> story.reported == Some(ReadyPort(w.port)) && w.port != 0)
        && (story.fault.Some? && story.reported.Some? ==>
             story.reported == Some(ReadyFault(story.fault.value)))
    case Sending(message, after) =>
      story.reported.None? && story.served.None? && story.shutdown.None?
      && (match after
          case ThenServe => story.fault.None? && message == ReadyPort(w.port) && w.port != 0
          case ThenExit(code) => story.fault == Some(code) && message == ReadyFault(code)
          case ThenShutdown(code) => story.fault == Some(code) && message == ReadyFault(code))
    case Serving =>
      story.fault.None? && story.reported == Some(ReadyPort(w.port)) && w.port != 0
      && story.served.None? && story.shutdown.None?
    case ShuttingDown(ending) =>
      story.shutdown.None?
      && (match ending
          case ByInvalidPort(code) => story.fault == Some(code) && story.reported == Some(ReadyFault(code))
          case ByServiceEnd(served) =>
            story.fault.None? && story.served == Some(served) && story.reported == Some(ReadyPort(w.port))
                && w.port != 0
          case _ =>
            story.fault.None? && story.served.None? && story.reported == Some(ReadyPort(w.port)) && w.port != 0)
    case Bound(port) => story == Untold && port == w.port
    case _ => story == Untold
  }

  lemma TellingStep(w: Worker, turn: Turn, story: Story)
    requires Agrees(story, w) && CanStep(w, turn.cancelled, turn.ch, turn.choice)
    ensures Agrees(Tell(story, w.pc, turn), WorkerStep(w, turn.cancelled, turn.ch, turn.choice).0)
  {
  }

  lemma {:induction false} TellingRun(w: Worker, turns: seq<Turn>, story: Story)
    requires Agrees(story, w) && Feasible(w, turns)
    ensures Agrees(Told(w, turns, story), Exec(w, turns))
    decreases |turns|
  {
    if turns != [] {
      hide Agrees, Tell, WorkerStep, CanStep;
      var turn := turns[0];
      TellingStep(w, turn, story);
      TellingRun(WorkerStep(w, turn.cancelled, turn.ch, turn.choice).0, turns[1..], Tell(story, w.pc, turn));
    }
  }

  /** A worker that ends without a panic exits with what went wrong first, and reports that to the
      gate unless it never got a runtime; otherwise it reports its port. Once it serves it exits
      with what its shutdown yields, if it was told to stop, and with a fault if the service ended
      by itself. In particular it exits clean exactly when it served, was told to stop, and shut
      the service down without a fault. */
  lemma ExitTellsTheStory(turns: seq<Turn>)
    requires Feasible(Spawned, turns) && Exec(Spawned, turns).pc.Exited? && !Exec(Spawned, turns).panicked
    ensures var w, story := Exec(Spawned, turns), Told(Spawned, turns, Untold);
            && EndsLike(story, w.pc.exit)
            && (story.fault.None? ==> story.reported == Some(ReadyPort(w.port)) && w.port != 0)
            && (story.fault.Some? && story.reported.Some? ==> story.reported == Some(ReadyFault(story.fault.value)))
            && (w.pc.exit.Clean? <==> story.fault.None? && story.served.None? && story.shutdown == Some(Clean))
  {
    TellingRun(Spawned, turns, Untold);
  }
}
