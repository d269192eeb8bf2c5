/** The production worker thread (src/service.rs:193-283): its two cancellable selects, its
    blocking sends on the ready channel, and the owned SOCKS service it must shut down. */
module ServiceWorker {
  import opened Optional
  import opened ServiceCore

  /** What follows a send on the ready channel. */
  datatype After = ThenExit(code: Code) | ThenShutdown(code: Code) | ThenServe

  datatype Ending = ByCancel | ByFailedSend | ByInvalidPort(code: Code) | ByServiceEnd(served: Exit)

  datatype Pc =
    | Building
    | Preparing
    | Bootstrapping
    | Binding
    | Bound(port: Port)
    | Sending(message: Message, after: After)
    | Serving
    | ShuttingDown(ending: Ending)
    | Exited(exit: Exit)

  /** `bound` counts successful binds, `port` is what the last one brought, and `shutdowns` counts
      completed SOCKS shutdowns. */
  datatype Worker = Worker(pc: Pc, bound: nat, port: Port, shutdowns: nat, panicked: bool)

  const Spawned := Worker(Building, 0, 0, 0, false)

  /** What the foreign code under the worker answers at its next step. */
  datatype Choice = Succeed | Fail | BindTo(port: Port) | ServiceEnds(served: Exit) | ShutdownYields(exit: Exit) | Panic

  /** A step the worker can take now; a blocking send waits while the slot is full and the gate still listens. */
  predicate CanStep(w: Worker, cancelled: bool, ch: Channel, choice: Choice) {
    !w.pc.Exited? &&
    (choice.Panic? ||
     match w.pc
     case Building => choice.Succeed? || choice.Fail?
     case Preparing => choice.Succeed? || choice.Fail?
     case Bootstrapping => choice.Succeed? || choice.Fail?
     case Binding => choice.BindTo? || choice.Fail?
     case Bound(_) => choice.Succeed?
     case Sending(_, _) => choice.Succeed? && (ch.receiving ==> ch.buffer.None?)
     case Serving => cancelled || choice.ServiceEnds?
     case ShuttingDown(_) => choice.ShutdownYields?)
  }

  function ExitAfterShutdown(ending: Ending, shutdown: Exit): Exit {
    match ending
    case ByInvalidPort(code) => Fault(code)
    case ByServiceEnd(served) =>
      if served.Fault? then Fault(Shutdown) else if shutdown.Fault? then shutdown else Fault(Shutdown)
    case _ => shutdown
  }

  function WorkerStep(w: Worker, cancelled: bool, ch: Channel, choice: Choice): (Worker, Channel)
    requires CanStep(w, cancelled, ch, choice)
  {
    if choice.Panic? then (w.(pc := Exited(Fault(Shutdown)), panicked := true), ch)
    else
      match w.pc
      case Building =>
        (w.(pc := if choice.Succeed? then Preparing else Exited(Fault(Bootstrap))), ch)
      case Preparing =>
        (w.(pc := if choice.Succeed? then Bootstrapping else Sending(ReadyFault(Config), ThenExit(Config))), ch)
      case Bootstrapping =>
        (w.(pc := if cancelled then Sending(ReadyFault(Cancelled), ThenExit(Cancelled))
                  else if choice.Succeed? then Binding
                  else Sending(ReadyFault(Bootstrap), ThenExit(Bootstrap))), ch)
      case Binding =>
        if cancelled then (w.(pc := Sending(ReadyFault(Cancelled), ThenExit(Cancelled))), ch)
        else if choice.BindTo? then (w.(pc := Bound(choice.port), bound := w.bound + 1, port := choice.port), ch)
        else (w.(pc := Sending(ReadyFault(Bind), ThenExit(Bind))), ch)
      case Bound(port) =>
        (w.(pc := if port == 0 then Sending(ReadyFault(Bind), ThenShutdown(Bind))
                  else Sending(ReadyPort(port), ThenServe)), ch)
      case Sending(message, after) =>
        (w.(pc := match after
                  case ThenExit(code) => Exited(Fault(code))
                  case ThenShutdown(code) => ShuttingDown(ByInvalidPort(code))
                  case ThenServe => if ch.receiving then Serving else ShuttingDown(ByFailedSend)),
         TrySend(ch, message))
      case Serving =>
        (w.(pc := ShuttingDown(if cancelled then ByCancel else ByServiceEnd(choice.served))), ch)
      case ShuttingDown(ending) =>
        (w.(pc := Exited(ExitAfterShutdown(ending, choice.exit)), shutdowns := w.shutdowns + 1), ch)
  }

  /** The worker owns a running SOCKS service. */
  predicate OwnsService(pc: Pc) {
    pc.Bound? || pc.Serving? || pc.ShuttingDown? || (pc.Sending? && !pc.after.ThenExit?)
  }

  predicate WorkerOk(w: Worker) {
    && w.bound <= 1
    && (w.pc.Building? || w.pc.Preparing? || w.pc.Bootstrapping? || w.pc.Binding? ==> w.bound == 0)
    && (!w.pc.Exited? ==> w.shutdowns == 0 && !w.panicked && (OwnsService(w.pc) <==> w.bound == 1))
    && (w.pc.Exited? && !w.panicked ==> w.shutdowns == w.bound)
    && (w.pc.Sending? ==> (w.pc.message.ReadyPort? <==> w.pc.after.ThenServe?))
    && (w.pc.Bound? ==> w.pc.port == w.port)
    && (w.pc.Sending? && w.pc.message.ReadyPort? ==> w.pc.message.port != 0 && w.pc.message.port == w.port)
  }

  lemma WorkerKeepsOk(w: Worker, cancelled: bool, ch: Channel, choice: Choice)
    requires WorkerOk(w) && CanStep(w, cancelled, ch, choice)
    ensures WorkerOk(WorkerStep(w, cancelled, ch, choice).0)
  {
    match w.pc {
      case Sending(_, after) => match after { case ThenExit(_) => case ThenShutdown(_) => case ThenServe => }
      case _ =>
    }
  }

  function WorkerRank(pc: Pc): nat {
    match pc
    case Building => 8
    case Preparing => 7
    case Bootstrapping => 6
    case Binding => 5
    case Bound(_) => 4
    case Sending(_, _) => 3
    case Serving => 2
    case ShuttingDown(_) => 1
    case Exited(_) => 0
  }

  /** Every step brings the worker closer to its end. */
  lemma WorkerDescends(w: Worker, cancelled: bool, ch: Channel, choice: Choice)
    requires CanStep(w, cancelled, ch, choice)
    ensures WorkerRank(WorkerStep(w, cancelled, ch, choice).0.pc) < WorkerRank(w.pc)
  {
  }

  /** Once cancelled, the worker waits for nobody but the gate: unless it is sending into a full
      slot the gate still listens to, some answer of the foreign code lets it step. */
  lemma CancelledWorkerMoves(w: Worker, ch: Channel) returns (choice: Choice)
    requires !w.pc.Exited?
    requires w.pc.Sending? ==> (ch.receiving ==> ch.buffer.None?)
    ensures !choice.Panic? && CanStep(w, true, ch, choice)
  {
    choice := if w.pc.Binding? then Fail else if w.pc.ShuttingDown? then ShutdownYields(Clean) else Succeed;
  }
}
