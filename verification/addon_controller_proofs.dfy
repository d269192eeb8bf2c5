/** What every run of the addon controller guarantees. */
module AddonControllerProofs {
  import opened Optional
  import opened AddonController

  /** The status determines what is in flight and whether the current promise is open. */
  predicate StatusOk(s: State) {
    && (s.stopInFlight.Some? <==> s.status.Stopping?)
    && (s.stopInFlight.Some? ==> s.stopInFlight.value == s.generation)
    && (s.status.Starting? ==> s.rejectStart && s.stopCode.None?)
    && (s.status.Stopping? ==> (s.stopCode.Some? <==> s.rejectStart))
    && (s.status.Stopped? || s.status.Running? || s.status.Failed? ==> !s.rejectStart && s.stopCode.None?)
    && (s.timer ==> s.status.Starting?)
    && (s.status.Starting? || s.status.Running? || s.status.Stopping? ==> s.generation > 0 && s.config.Some?)
  }

  /** Only the current generation's promise can be open; every other has been settled once. */
  ghost predicate PromisesOk(promises: map<nat, Promise>, settlements: map<nat, nat>, generation: nat, open: bool) {
    && (forall g :: g in promises <==> 1 <= g <= generation)
    && (forall g :: g in promises ==> (promises[g].Pending? <==> g == generation && open))
    && (forall g :: g in promises ==> Count(settlements, g) == (if promises[g].Pending? then 0 else 1))
    && (forall g :: g in settlements ==> g in promises)
  }

  predicate NamesOk(s: State) {
    && (forall g :: g in s.nativeStarts ==> 1 <= g <= s.generation)
    && (forall g :: g in s.armed ==> 1 <= g <= s.generation)
  }

  // ---------------------------------------------------------------- the call log

  /** Whether generation g may be followed by another start: its stop settled or its start was
      refused. */
  predicate Ended(log: seq<Entry>, g: nat) {
    g == 0 || StopSettled(g) in log || StartRefused(g) in log
  }

  /** One more entry is legal after a log: starts count up and follow the end of the previous
      generation; a stop is the first for the current generation. */
  predicate Legal(log: seq<Entry>, current: nat, e: Entry) {
    match e
    case NativeStart(g) => g == current + 1 && Ended(log, current)
    case NativeStop(g) => g == current && g > 0 && NativeStop(g) !in log && !Ended(log, g)
    case StopSettled(g) => g == current && NativeStop(g) in log && !Ended(log, g)
    case StartRefused(g) => g == current && g > 0 && NativeStop(g) !in log && !Ended(log, g)
  }

  function Current(log: seq<Entry>): nat {
    if log == [] then 0
    else if log[|log| - 1].NativeStart? then log[|log| - 1].generation
    else Current(log[..|log| - 1])
  }

  predicate LegalLog(log: seq<Entry>) {
    log == [] || (LegalLog(log[..|log| - 1]) && Legal(log[..|log| - 1], Current(log[..|log| - 1]), log[|log| - 1]))
  }

  predicate LogOk(log: seq<Entry>, generation: nat, status: Status) {
    && LegalLog(log) && Current(log) == generation
    && (forall e :: e in log ==> e.generation <= generation)
    && (status.Stopped? ==> Ended(log, generation))
    && (status.Starting? || status.Running? ==> NativeStop(generation) !in log && !Ended(log, generation))
    && (status.Stopping? ==> NativeStop(generation) in log && !Ended(log, generation))
  }

  predicate StateLogOk(s: State) {
    LogOk(s.log, s.generation, s.status)
  }

  ghost predicate StatePromisesOk(s: State) {
    PromisesOk(s.promises, s.settlements, s.generation, s.rejectStart)
  }

  ghost predicate Inv(s: State) {
    StatusOk(s) && StatePromisesOk(s) && NamesOk(s) && StateLogOk(s)
  }

  lemma InitialInv()
    ensures Inv(Initial)
  {
  }

  lemma Append(log: seq<Entry>, e: Entry)
    requires LegalLog(log) && Legal(log, Current(log), e)
    ensures LegalLog(log + [e]) && Current(log + [e]) == (if e.NativeStart? then e.generation else Current(log))
    ensures forall g :: Ended(log + [e], g) <==>
              Ended(log, g) || ((e.StopSettled? || e.StartRefused?) && e.generation == g)
  {
    assert (log + [e])[..|log + [e]| - 1] == log;
  }

  lemma LogExtends(log: seq<Entry>, generation: nat, status: Status, e: Entry, next: Status)
    requires LogOk(log, generation, status) && Legal(log, generation, e)
    requires match e
      case NativeStart(_) => status.Stopped? && next.Starting?
      case NativeStop(_) => next.Stopping?
      case _ => next.Stopped?
    ensures LogOk(log + [e], if e.NativeStart? then e.generation else generation, next)
  {
    Append(log, e);
    hide LegalLog, Current;
  }

  lemma PromiseSettles(s: State, outcome: Promise)
    requires PromisesOk(s.promises, s.settlements, s.generation, true) && !outcome.Pending? && s.generation > 0
    ensures var t := Settle(s, s.generation, outcome); PromisesOk(t.promises, t.settlements, s.generation, false)
  {
  }

  lemma PromiseOpens(promises: map<nat, Promise>, settlements: map<nat, nat>, g: nat)
    requires PromisesOk(promises, settlements, g, false)
    ensures PromisesOk(promises[g + 1 := Pending], settlements, g + 1, true)
  {
  }

  lemma BeginStopKeeps(s: State, code: Code)
    requires Inv(s) && (s.status.Starting? || s.status.Running?)
    ensures Inv(BeginStop(s, s.generation, Some(code)))
  {
    LogExtends(s.log, s.generation, s.status, NativeStop(s.generation), Stopping);
    hide LogOk, PromisesOk;
  }

  lemma CallBindingKeeps(s: State, config: Option<nat>)
    requires Inv(s) && config.Some? && s.status.Stopped?
    ensures Inv(CallBinding(s, config)) && CallBinding(s, config).status.Starting?
  {
    var g := s.generation + 1;
    assert Legal(s.log, s.generation, NativeStart(g));
    LogExtends(s.log, s.generation, Stopped, NativeStart(g), Starting);
    PromiseOpens(s.promises, s.settlements, s.generation);
    hide LogOk, PromisesOk;
  }

  lemma ArmKeeps(s: State)
    requires Inv(s) && s.status.Starting?
    ensures Inv(s.(timer := true, armed := s.armed + {s.generation}))
  {
    hide LogOk, PromisesOk;
  }

  lemma StartKeeps(s: State, config: Option<nat>, timer: Timer)
    requires Inv(s)
    ensures Inv(OnStart(s, config, timer))
  {
    hide Inv, CallBinding, BeginStop;
    if config.Some? && s.status.Stopped? {
      CallBindingKeeps(s, config);
      var t := CallBinding(s, config);
      if timer.Threw? { BeginStopKeeps(t, MapStart(timer.code)); } else { ArmKeeps(t); }
    }
  }

  lemma FinishStopKeeps(s: State, failure: Option<Code>)
    requires Inv(s) && s.stopInFlight.Some? && (failure.Some? ==> failure.value.Shutdown?)
    ensures Inv(FinishStop(s, s.stopInFlight.value, failure))
  {
    assert Legal(s.log, s.generation, StopSettled(s.generation));
    LogExtends(s.log, s.generation, Stopping, StopSettled(s.generation), Stopped);
    FailedLog(s.log, s.generation, s.status);
    hide LogOk, PromisesOk;
    if s.rejectStart {
      var t := s.(stopInFlight := None, stopCode := None);
      var u := if failure.Some? then Fail(t) else Reset(t).(log := t.log + [StopSettled(s.generation)]);
      PromiseSettles(u, Rejected(if failure.Some? then failure.value else s.stopCode.value));
    }
  }

  lemma FailedLog(log: seq<Entry>, generation: nat, status: Status)
    requires LogOk(log, generation, status)
    ensures LogOk(log, generation, Failed)
    ensures status.Starting? ==> LogOk(log, generation, Running)
  {
  }

  lemma ResolvedKeeps(s: State, g: nat, port: int)
    requires Inv(s) && g in s.nativeStarts
    ensures Inv(OnStartResolved(s, g, port))
  {
    var t := s.(nativeStarts := s.nativeStarts - {g});
    FailedLog(s.log, s.generation, s.status);
    hide LogOk, PromisesOk, BeginStop;
    assert Inv(t);
    if g == s.generation && s.status.Starting? {
      if port < 1 || port > 65535 {
        BeginStopKeeps(t, Bootstrap);
      } else {
        PromiseSettles(t.(timer := false, status := Running, rejectStart := false), Fulfilled(port));
      }
    }
  }

  lemma RefusedKeeps(s: State, g: nat, code: Code)
    requires Inv(s) && g in s.nativeStarts
    ensures Inv(OnStartRejected(s, g, code))
  {
    if g == s.generation && s.status.Starting? {
      var u := s.(nativeStarts := s.nativeStarts - {g}, timer := false);
      assert Legal(s.log, g, StartRefused(g));
      LogExtends(s.log, g, Starting, StartRefused(g), Stopped);
      FailedLog(s.log, g, s.status);
      hide LogOk, PromisesOk;
      var v := if MapStart(code).Shutdown? then Fail(u) else Reset(u).(log := u.log + [StartRefused(g)]);
      PromiseSettles(v, Rejected(MapStart(code)));
    }
    hide LogOk, PromisesOk;
  }

  lemma InvKept(s: State, e: Event)
    requires Inv(s) && Enabled(s, e)
    ensures Inv(Apply(s, e))
  {
    hide BeginStop, FinishStop;
    match e
    case Start(config, timer) => StartKeeps(s, config, timer);
    case Stop(g) => if s.status.Starting? || s.status.Running? { BeginStopKeeps(s, Cancelled); }
    case StartResolved(g, port) => ResolvedKeeps(s, g, port);
    case StartRejected(g, code) => RefusedKeeps(s, g, code);
    case StopResolved => FinishStopKeeps(s, None);
    case StopRejected(code) => FinishStopKeeps(s, Some(MapStop(code)));
    case TimerFired(g) => if s.status.Starting? { BeginStopKeeps(s, Timeout); }
  }

  ghost predicate Reachable(s: State) {
    exists run: seq<Event> :: Feasible(Initial, run) && s == Exec(Initial, run)
  }

  lemma {:induction false} RunInv(s: State, run: seq<Event>)
    requires Inv(s) && Feasible(s, run)
    ensures Inv(Exec(s, run))
    decreases |run|
  {
    hide Inv, Apply, Enabled;
    if run != [] {
      InvKept(s, run[0]);
      RunInv(Apply(s, run[0]), run[1..]);
    }
  }

  lemma ReachableInv(s: State)
    requires Reachable(s)
    ensures Inv(s)
  {
    var run: seq<Event> :| Feasible(Initial, run) && s == Exec(Initial, run);
    RunInv(Initial, run);
  }

  // ---------------------------------------------------------------- native calls

  lemma {:induction false} LegalAt(log: seq<Entry>, i: nat)
    requires LegalLog(log) && i < |log|
    ensures Legal(log[..i], Current(log[..i]), log[i]) && LegalLog(log[..i])
    decreases |log|
  {
    var last := |log| - 1;
    if i < last {
      LegalAt(log[..last], i);
      assert log[..last][..i] == log[..i];
    }
  }

  lemma {:induction false} CurrentBounds(log: seq<Entry>, i: nat)
    requires LegalLog(log) && i < |log|
    ensures log[i].NativeStart? ==> log[i].generation <= Current(log)
    decreases |log|
  {
    var last := |log| - 1;
    if i < last {
      CurrentBounds(log[..last], i);
    }
  }

  /** Native starts count up by one, and each later one follows a settled stop or a refused
      start of its predecessor. */
  lemma StartsCountUp(s: State, i: nat, j: nat)
    requires Reachable(s) && i < j < |s.log| && s.log[i].NativeStart? && s.log[j].NativeStart?
    ensures s.log[i].generation < s.log[j].generation
    ensures StopSettled(s.log[j].generation - 1) in s.log[..j] || StartRefused(s.log[j].generation - 1) in s.log[..j]
  {
    ReachableInv(s);
    hide Inv;
    assert LegalLog(s.log);
    LegalAt(s.log, j);
    CurrentBounds(s.log[..j], i);
    assert s.log[..j][i] == s.log[i];
    LegalAt(s.log, i);
  }

  lemma {:induction false} ExecOne(s: State, run: seq<Event>, e: Event)
    requires Feasible(s, run) && Enabled(Exec(s, run), e)
    ensures Feasible(s, run + [e]) && Exec(s, run + [e]) == Apply(Exec(s, run), e)
    decreases |run|
  {
    hide Apply, Enabled;
    if run == [] {
      assert run + [e] == [e];
    } else {
      ExecOne(Apply(s, run[0]), run[1..], e);
      assert (run + [e])[1..] == run[1..] + [e];
    }
  }

  lemma ReachableStep(s: State, e: Event) returns (t: State)
    requires Reachable(s) && Enabled(s, e)
    ensures Reachable(t) && t == Apply(s, e)
  {
    var run: seq<Event> :| Feasible(Initial, run) && s == Exec(Initial, run);
    hide Apply, Enabled;
    ExecOne(Initial, run, e);
    t := Apply(s, e);
  }

  /** The controller starts again once a stop has settled, even if the native start that the stop
      interrupted has not. */
  lemma StartsOverlap() returns (s: State)
    ensures Reachable(s) && s.nativeStarts == {1, 2}
              && s.log == [NativeStart(1), NativeStop(1), StopSettled(1), NativeStart(2)]
  {
    assert Feasible(Initial, []) && Exec(Initial, []) == Initial;
    s := ReachableStep(Initial, Start(Some(0), Armed));
    hide Reachable;
    s := ReachableStep(s, Stop(1));
    s := ReachableStep(s, StopResolved);
    s := ReachableStep(s, Start(Some(0), Armed));
    assert s.nativeStarts == {1, 2};
  }

  /** Native stop is called at most once per generation, and only for the current one. */
  lemma StopsOnce(s: State, i: nat)
    requires Reachable(s) && i < |s.log| && s.log[i].NativeStop?
    ensures s.log[i].generation == Current(s.log[..i])
    ensures forall j :: 0 <= j < |s.log| && s.log[j] == s.log[i] ==> j == i
  {
    ReachableInv(s);
    hide Inv;
    assert LegalLog(s.log);
    LegalAt(s.log, i);
    forall j | 0 <= j < |s.log| && s.log[j] == s.log[i] ensures j == i {
      LegalAt(s.log, j);
    }
  }

  /** The stop that settles is always the current generation's: the mismatch branch of
      finishStop is never taken, and its failure is always a shutdown error. */
  lemma StopIsCurrent(s: State)
    requires Reachable(s) && s.stopInFlight.Some?
    ensures s.stopInFlight.value == s.generation
    ensures forall code: Code :: Apply(s, StopRejected(code)).status.Failed?
    ensures Apply(s, StopResolved).status.Stopped?
  {
    ReachableInv(s);
    hide LogOk, PromisesOk;
  }

  // ---------------------------------------------------------------- startup promises

  /** Every startup promise is settled at most once, exactly once when its generation is over
      or running, and is open exactly while its startup or the stop that interrupts it lasts. */
  lemma StartupSettlesOnce(s: State, g: nat)
    requires Reachable(s) && 1 <= g <= s.generation
    ensures g in s.promises && Count(s.settlements, g) == (if s.promises[g].Pending? then 0 else 1)
    ensures s.promises[g].Pending? <==>
              g == s.generation && (s.status.Starting? || (s.status.Stopping? && s.stopCode.Some?))
  {
    ReachableInv(s);
    hide LogOk;
  }

  /** A startup promise is fulfilled only by its own native start, with the valid port that
      brought. */
  lemma FulfilledByNativeStart(s: State, e: Event, g: nat)
    requires Reachable(s) && Enabled(s, e) && g in s.promises && s.promises[g].Pending?
    ensures g in Apply(s, e).promises
    ensures Apply(s, e).promises[g].Fulfilled? ==>
      e == StartResolved(g, Apply(s, e).promises[g].port) && 1 <= Apply(s, e).promises[g].port <= 65535
      && s.status.Starting? && Apply(s, e).status.Running?
  {
    ReachableInv(s);
    hide LogOk;
  }

  /** What an event that interrupts the current startup will reject it with. */
  function Interruption(s: State, e: Event): Option<Code> {
    match e
    case Stop(g) => if g == s.generation then Some(Cancelled) else None
    case TimerFired(g) => if g == s.generation then Some(Timeout) else None
    case StartResolved(g, port) => if g == s.generation && (port < 1 || port > 65535) then Some(Bootstrap) else None
    case _ => None
  }

  /** A startup that is interrupted stays open until the native stop settles, and is then
      rejected with the reason of its first interruption, or with a shutdown error. */
  lemma InterruptedStartup(s: State, e: Event)
    requires Reachable(s) && Enabled(s, e)
    ensures s.status.Starting? && Interruption(s, e).Some? ==>
      Apply(s, e).status.Stopping? && Apply(s, e).stopCode == Interruption(s, e)
    ensures s.status.Stopping? && Apply(s, e).status.Stopping? ==> Apply(s, e).stopCode == s.stopCode
    ensures s.status.Stopping? && s.stopCode.Some? && s.generation in s.promises && !Apply(s, e).status.Stopping? ==>
      Apply(s, e).promises[s.generation] == Rejected(if e.StopResolved? then s.stopCode.value else Shutdown)
  {
    ReachableInv(s);
    hide LogOk;
  }

  lemma FailedStep(s: State, e: Event)
    requires Inv(s) && s.status.Failed? && Enabled(s, e)
    ensures Apply(s, e).status.Failed? && Apply(s, e).log == s.log && Apply(s, e).promises == s.promises
  {
    hide LogOk, PromisesOk;
  }

  /** A failed shutdown is final: the binding is never called again. */
  lemma FailedForever(s: State, run: seq<Event>)
    requires Reachable(s) && s.status.Failed? && Feasible(s, run)
    ensures Exec(s, run).status.Failed? && Exec(s, run).log == s.log && Exec(s, run).promises == s.promises
  {
    ReachableInv(s);
    FailedRun(s, run);
  }

  lemma {:induction false} FailedRun(s: State, run: seq<Event>)
    requires Inv(s) && s.status.Failed? && Feasible(s, run)
    ensures Exec(s, run).status.Failed? && Exec(s, run).log == s.log && Exec(s, run).promises == s.promises
    decreases |run|
  {
    hide Inv, Apply, Enabled;
    if run != [] {
      InvKept(s, run[0]);
      FailedStep(s, run[0]);
      FailedRun(Apply(s, run[0]), run[1..]);
    }
  }
}
