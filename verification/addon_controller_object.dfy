/** createAddonController's closure as an object: its variables are fields, and its functions
    and promise callbacks are methods. `Handle` runs one of them to its end: it keeps the
    controller's invariant and never touches a promise that has settled. */
module AddonControllerObject {
  import opened Optional
  import opened AddonController
  import opened AddonControllerProofs

  /** A settled promise keeps its outcome and is not settled again, a new one is open, and after
      a failed shutdown the binding is not called. */
  predicate Promised(s: State, t: State) {
    PromisesStay(s, t) && (s.status.Failed? ==> t.log == s.log)
  }

  lemma Keeps(s: State, e: Event)
    requires Inv(s) && Enabled(s, e)
    ensures Inv(Apply(s, e)) && Promised(s, Apply(s, e))
  {
    InvKept(s, e);
    if s.status.Failed? { FailedStep(s, e); }
    SettledStays(s, e);
    hide Inv, Apply, Enabled;
  }

  /** A native start of the current generation makes it run, without a native stop, exactly if it
      brings a port. */
  lemma Runs(s: State, e: Event)
    requires Enabled(s, e) && e.StartResolved? && s.status.Starting? && e.generation == s.generation
    ensures var t := Apply(s, e);
            (t.status.Running? <==> 1 <= e.port <= 65535) && (t.log == s.log <==> 1 <= e.port <= 65535)
  {
    assert |s.log + [NativeStop(e.generation)]| != |s.log|;
  }

  predicate PromisesStay(s: State, t: State) {
    && (forall g :: g in s.promises && !s.promises[g].Pending? ==>
          g in t.promises && t.promises[g] == s.promises[g] && Count(t.settlements, g) == Count(s.settlements, g))
    && (forall g :: g in t.promises && g !in s.promises ==> g == s.generation + 1 && t.promises[g].Pending?)
  }

  /** Only the open promise of the current generation is ever settled. */
  lemma SettleStays(s: State, outcome: Promise)
    requires s.generation in s.promises && s.promises[s.generation].Pending?
    ensures PromisesStay(s, Settle(s, s.generation, outcome))
  {
  }

  lemma StartStays(s: State, config: Option<nat>, timer: Timer)
    requires StatusOk(s) && StatePromisesOk(s)
    ensures PromisesStay(s, OnStart(s, config, timer))
  {
  }

  lemma StopStays(s: State, failure: Option<Code>)
    requires StatusOk(s) && StatePromisesOk(s) && s.stopInFlight.Some?
    ensures PromisesStay(s, FinishStop(s, s.stopInFlight.value, failure))
  {
    if s.rejectStart {
      var t := s.(stopInFlight := None, stopCode := None);
      var u := if failure == Some(Shutdown) then Fail(t) else Reset(t).(log := t.log + [StopSettled(s.generation)]);
      SettleStays(u, Rejected(if failure.Some? then failure.value else s.stopCode.value));
    }
    hide PromisesOk, Settle;
  }

  lemma Untouched(s: State, t: State)
    requires t.promises == s.promises && t.settlements == s.settlements
    ensures PromisesStay(s, t)
  {
  }

  lemma ResolvedStays(s: State, g: nat, port: int)
    requires StatusOk(s) && StatePromisesOk(s)
    ensures PromisesStay(s, OnStartResolved(s, g, port))
  {
    if g == s.generation && s.status.Starting? {
      var t := s.(nativeStarts := s.nativeStarts - {g}, timer := false, status := Running, rejectStart := false);
      assert s.generation in s.promises && s.promises[s.generation].Pending?;
      hide PromisesOk, PromisesStay, Settle, StatusOk;
      if 1 <= port <= 65535 {
        SettleStays(t, Fulfilled(port));
        SameStays(s, t, Settle(t, g, Fulfilled(port)));
      } else {
        Untouched(s, OnStartResolved(s, g, port));
      }
    }
  }

  lemma RefusedStays(s: State, g: nat, code: Code)
    requires StatusOk(s) && StatePromisesOk(s)
    ensures PromisesStay(s, OnStartRejected(s, g, code))
  {
    if g == s.generation && s.status.Starting? {
      var u := s.(nativeStarts := s.nativeStarts - {g}, timer := false);
      var t := if MapStart(code).Shutdown? then Fail(u) else Reset(u).(log := u.log + [StartRefused(g)]);
      assert s.generation in s.promises && s.promises[s.generation].Pending?;
      hide PromisesOk, PromisesStay, Settle, StatusOk;
      SettleStays(t, Rejected(MapStart(code)));
      SameStays(s, t, Settle(t, g, Rejected(MapStart(code))));
    }
  }

  lemma SameStays(s: State, t: State, u: State)
    requires t.promises == s.promises && t.settlements == s.settlements && t.generation == s.generation
              && PromisesStay(t, u)
    ensures PromisesStay(s, u)
  {
  }

  lemma SettledStays(s: State, e: Event)
    requires Inv(s) && Enabled(s, e)
    ensures PromisesStay(s, Apply(s, e))
  {
    assert StatusOk(s) && StatePromisesOk(s);
    hide Inv, StatusOk, StatePromisesOk, FinishStop, OnStart, OnStartResolved, OnStartRejected, Settle;
    match e
    case Start(config, timer) => StartStays(s, config, timer);
    case StartResolved(g, port) => ResolvedStays(s, g, port);
    case StartRejected(g, code) => RefusedStays(s, g, code);
    case StopResolved => StopStays(s, None);
    case StopRejected(code) => StopStays(s, Some(MapStop(code)));
    case _ =>
  }

  class Controller {
    var generation: nat
    var status: Status
    var config: Option<nat>
    var timer: bool
    var rejectStart: bool
    var stopCode: Option<Code>
    var nativeStarts: set<nat>
    var stopInFlight: Option<nat>
    var armed: set<nat>
    var promises: map<nat, Promise>
    var settlements: map<nat, nat>
    var log: seq<Entry>

    function View(): State
      reads this
    {
      State(generation, status, config, timer, rejectStart, stopCode, nativeStarts, stopInFlight, armed, promises,
          settlements, log)
    }

    /** What holds between any two callbacks. */
    ghost predicate Valid()
      reads this
    {
      Inv(View())
    }

    constructor ()
      ensures Valid() && View() == Initial
    {
      generation, status, config, timer, rejectStart, stopCode := 0, Stopped, None, false, false, None;
      nativeStarts, stopInFlight, armed, promises, settlements, log := {}, None, {}, map[], map[], [];
    }

    method SettlePromise(g: nat, outcome: Promise)
      modifies this`promises, this`settlements
      ensures View() == Settle(old(View()), g, outcome)
    {
      if g !in promises || promises[g].Pending? { promises := promises[g := outcome]; }
      settlements := settlements[g := Count(settlements, g) + 1];
    }

    method EnterStop(g: nat, code: Option<Code>)
      modifies this
      ensures View() == BeginStop(old(View()), g, code)
    {
      if status.Stopping? { return; }
      stopCode := if status.Starting? then code else None;
      status := Stopping;
      timer := false;
      stopInFlight := Some(g);
      log := log + [NativeStop(g)];
    }

    method CallStart(options: Option<nat>, timerResult: Timer) returns (reply: Reply)
      modifies this
      ensures View() == OnStart(old(View()), options, timerResult)
      ensures reply == StartReply(old(View()), options)
    {
      if options.None? { return Refused(Config); }
      if status.Failed? { return Refused(Shutdown); }
      if status.Stopping? { return RefusedAfterStop(Cancelled); }
      if status.Starting? || status.Running? {
        return if config != options then Refused(ConfigConflict) else PromiseOf(generation);
      }
      hide BeginStop, CallBinding;
      BeginGeneration(options);
      reply := PromiseOf(generation);
      if timerResult.Armed? {
        timer := true;
        armed := armed + {generation};
      } else {
        EnterStop(generation, Some(MapStart(timerResult.code)));
      }
    }

    /** The next generation, up to the call of binding.start. */
    method BeginGeneration(options: Option<nat>)
      modifies this
      ensures View() == CallBinding(old(View()), options) && generation == old(generation) + 1
    {
      generation := generation + 1;
      status, config, rejectStart := Starting, options, true;
      promises := promises[generation := Pending];
      nativeStarts := nativeStarts + {generation};
      log := log + [NativeStart(generation)];
    }

    method CallStop(g: nat)
      modifies this
      ensures View() == OnStop(old(View()), g)
    {
      hide BeginStop;
      if status.Failed? || g != generation || status.Stopped? || status.Stopping? { return; }
      EnterStop(g, Some(Cancelled));
    }

    method StartSucceeded(g: nat, port: int)
      requires g in nativeStarts
      modifies this
      ensures View() == OnStartResolved(old(View()), g, port)
    {
      hide BeginStop, Settle;
      nativeStarts := nativeStarts - {g};
      if g != generation || !status.Starting? { return; }
      if port < 1 || port > 65535 {
        EnterStop(g, Some(Bootstrap));
        return;
      }
      timer := false;
      status := Running;
      rejectStart := false;
      SettlePromise(g, Fulfilled(port));
    }

    method StartFailed(g: nat, code: Code)
      requires g in nativeStarts
      modifies this
      ensures View() == OnStartRejected(old(View()), g, code)
    {
      hide Settle;
      nativeStarts := nativeStarts - {g};
      if g != generation || !status.Starting? { return; }
      timer := false;
      var mapped := MapStart(code);
      if mapped.Shutdown? {
        status := Failed;
      } else {
        status := Stopped;
        log := log + [StartRefused(g)];
      }
      config := None;
      rejectStart := false;
      SettlePromise(g, Rejected(mapped));
    }

    method StopSettled(failure: Option<Code>)
      requires stopInFlight.Some?
      modifies this
      ensures View() == FinishStop(old(View()), old(stopInFlight.value), failure)
    {
      hide Settle;
      var g := stopInFlight.value;
      var reject, interrupted := rejectStart, stopCode;
      stopInFlight := None;
      stopCode := None;
      if g != generation { return; }
      config := None;
      rejectStart := false;
      if failure == Some(Shutdown) {
        status := Failed;
      } else {
        status := Stopped;
        log := log + [Entry.StopSettled(g)];
      }
      if interrupted.Some? && reject {
        SettlePromise(g, Rejected(if failure.Some? then failure.value else interrupted.value));
      }
    }

    method StartupTimedOut(g: nat)
      modifies this
      ensures View() == OnTimer(old(View()), g)
    {
      hide BeginStop;
      if g != generation || !status.Starting? { return; }
      EnterStop(g, Some(Timeout));
    }

    /** One public call, one settlement of a native promise or one firing of a startup timer. */
    method Handle(e: Event)
      requires Valid() && Enabled(View(), e)
      modifies this
      ensures Valid() && View() == Apply(old(View()), e)
      ensures Promised(old(View()), View())
      ensures e.StartResolved? && old(View()).status.Starting? && e.generation == old(View()).generation ==>
                && (View().status.Running? <==> 1 <= e.port <= 65535)
                && (View().log == old(View()).log <==> 1 <= e.port <= 65535)
    {
      Keeps(View(), e);
      if e.StartResolved? && status.Starting? && e.generation == generation { Runs(View(), e); }
      hide Inv, Promised, OnStart, OnStop, OnStartResolved, OnStartRejected, FinishStop, OnTimer;
      match e {
        case Start(options, timerResult) => var _ := CallStart(options, timerResult);
        case Stop(g) => CallStop(g);
        case StartResolved(g, port) => StartSucceeded(g, port);
        case StartRejected(g, code) => StartFailed(g, code);
        case StopResolved => StopSettled(None);
        case StopRejected(code) => StopSettled(Some(MapStop(code)));
        case TimerFired(g) => StartupTimedOut(g);
      }
    }
  }
}
