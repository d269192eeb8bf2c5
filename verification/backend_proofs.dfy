/** Exclusion between the backends, over every run of the composed system. */
module BackendProofs {
  import opened Optional
  import opened Backend
  import A = AddonController
  import AP = AddonControllerProofs
  import S = Sidecar
  import SP = SidecarProofs

  /** The sidecar's process has not been seen to exit. */
  predicate Lives(s: System, id: nat) {
    HasProcess(s, id) && !s.sidecars[id].process.status.Stopped?
  }

  /** Whoever is not the owner is stopped for sure. */
  predicate Exclusive(s: System) {
    && (!s.owner.Addon? ==> s.controller.status.Stopped?)
    && (forall id :: id in s.sidecars && Lives(s, id) ==> s.owner.Sidecar? && s.owner.id == id)
    && (s.owner.Sidecar? ==> s.owner.id in s.sidecars)
    && (forall id :: id in s.sidecars ==> id < s.next)
    && (s.mobile ==> s.sidecars == map[])
  }

  predicate StatusOk(s: System) {
    && (s.controller.status.Failed? ==> s.terminal)
    && (!s.owner.Nobody? && s.owner.status.Failed? ==> s.terminal)
    && (s.terminal ==> !s.owner.Nobody? && !s.owner.status.Active?)
    && (s.terminal ==> OwnerFailed(s))
    && (s.owner.Addon? && s.owner.status.Stopping? ==> !s.controller.status.Starting? && !s.controller.status.Running?)
    && (s.owner.Sidecar? && !s.owner.status.Active? && HasProcess(s, s.owner.id) ==>
         !s.sidecars[s.owner.id].process.stop.Absent?)
  }

  /** The owner's shutdown has failed. */
  predicate OwnerFailed(s: System) {
    match s.owner
    case Nobody => false
    case Addon(_) => s.controller.status.Failed?
    case Sidecar(id, _) => HasProcess(s, id) && s.sidecars[id].process.status.Failed?
  }

  ghost predicate Inv(s: System) {
    && Exclusive(s) && StatusOk(s) && AP.Inv(s.controller)
    && (forall id :: id in s.sidecars && s.sidecars[id].Spawned? ==> SP.Inv(s.sidecars[id].process))
  }

  lemma InitialInv(mobile: bool)
    ensures Inv(Initial(mobile))
  {
    AP.InitialInv();
  }

  lemma StartKeeps(s: System, choice: Choice, a: Answers)
    requires Inv(s)
    ensures Inv(OnStart(s, choice, a))
  {
    AP.StartKeeps(s.controller, a.addonConfig, a.timer);
    SP.CreateOk(a.setup, a.spawnConfirmed, a.os);
    hide AP.Inv, SP.Inv, S.Create;
  }

  /** Observers hear of exactly the steps that end a generation. */
  lemma EmissionsMatch(c: A.State, e: A.Event)
    requires AP.Inv(c) && A.Enabled(c, e) && !e.Start?
    ensures A.Emits(c, e).EmitFailed? <==> A.Apply(c, e).status.Failed? && !c.status.Failed?
    ensures A.Emits(c, e).EmitStopped? <==> A.Apply(c, e).status.Stopped? && !c.status.Stopped?
    ensures c.status.Stopped? ==> A.Apply(c, e).status.Stopped?
    ensures c.status.Failed? ==> A.Apply(c, e).status.Failed?
    ensures c.status.Stopping? ==> !A.Apply(c, e).status.Starting? && !A.Apply(c, e).status.Running?
  {
    hide AP.LogOk, AP.PromisesOk;
  }

  lemma ObserveKeeps(s: System, c: A.State, emission: A.Emission)
    requires Inv(s) && AP.Inv(c)
    requires emission.EmitFailed? <==> c.status.Failed? && !s.controller.status.Failed?
    requires emission.EmitStopped? <==> c.status.Stopped? && !s.controller.status.Stopped?
    requires s.controller.status.Stopped? ==> c.status.Stopped?
    requires s.controller.status.Failed? ==> c.status.Failed?
    requires s.controller.status.Stopping? ==> !c.status.Starting? && !c.status.Running?
    ensures Inv(Observe(s.(controller := c), emission))
  {
    hide AP.Inv, SP.Inv;
  }

  lemma AddonKeeps(s: System, e: A.Event)
    requires Inv(s) && A.Enabled(s.controller, e) && !e.Start?
    ensures Inv(OnAddon(s, e))
  {
    AP.InvKept(s.controller, e);
    EmissionsMatch(s.controller, e);
    ObserveKeeps(s, A.Apply(s.controller, e), A.Emits(s.controller, e));
    hide Inv, Observe, A.Apply, A.Emits;
  }

  lemma FailKeepsStop(p: S.State, code: S.Code)
    requires !p.stop.Absent?
    ensures !S.FailShutdown(p, code).stop.Absent?
  {
  }

  lemma TerminateRequests(p: S.State, os: S.Os)
    ensures !S.Terminate(p, os).stop.Absent?
  {
    FailKeepsStop(p.(status := S.Stopping, stop := S.Pending, waitingForExit := true, kills := p.kills + 1),
        S.Shutdown);
    hide S.FailShutdown;
  }

  lemma EndNowRequests(p: S.State)
    ensures !S.EndNow(p).stop.Absent?
  {
    FailKeepsStop(p.(stop := S.Pending), p.stopError);
    hide S.FailShutdown, S.SettlePendingStart;
  }

  lemma RequestStopRequested(p: S.State, startError: S.Code, stopError: S.Code, os: S.Os)
    ensures !S.RequestStop(p, startError, stopError, os).stop.Absent?
  {
    var t := S.NoteErrors(p, startError, stopError);
    TerminateRequests(t, os);
    EndNowRequests(t);
    hide S.NoteErrors, S.Terminate, S.EndNow;
  }

  lemma StopStaysRequested(p: S.State, e: S.Event, parse: string -> Option<int>)
    requires SP.Inv(p) && S.Enabled(p, e) && !p.stop.Absent?
    ensures !S.Apply(p, e, parse).stop.Absent?
  {
  }

  lemma SidecarKeeps(s: System, id: nat, e: S.Event, parse: string -> Option<int>)
    requires Inv(s) && Enabled(s, OfSidecar(id, e, parse))
    ensures Inv(Apply(s, OfSidecar(id, e, parse)))
  {
    var p := s.sidecars[id].process;
    SP.InvKept(p, e, parse);
    SP.SettledStays(p, e, parse);
    if !p.stop.Absent? { StopStaysRequested(p, e, parse); }
    hide AP.Inv, SP.Inv, S.Apply, S.Enabled;
  }

  lemma StopKeepsAddon(s: System, os: S.Os)
    requires Inv(s) && !s.terminal && s.owner == Addon(Active)
    ensures Inv(OnStop(s, os))
  {
    AP.InvKept(s.controller, A.Stop(s.controller.generation));
    hide AP.Inv, SP.Inv;
  }

  lemma StopKeepsSidecar(s: System, os: S.Os)
    requires Inv(s) && !s.terminal && s.owner.Sidecar? && s.owner.status.Active?
    ensures Inv(OnStop(s, os))
  {
    if HasProcess(s, s.owner.id) {
      var p := s.sidecars[s.owner.id].process;
      SP.InvKept(p, S.Stop(os), _ => None);
      SP.SettledStays(p, S.Stop(os), _ => None);
      RequestStopRequested(p, if p.status.Starting? then S.Cancelled else S.NoError, S.NoError, os);
    }
    hide AP.Inv, SP.Inv, S.RequestStop;
  }

  lemma StopKeeps(s: System, os: S.Os)
    requires Inv(s)
    ensures Inv(OnStop(s, os))
  {
    if !s.terminal && s.owner == Addon(Active) { StopKeepsAddon(s, os); }
    else if !s.terminal && s.owner.Sidecar? && s.owner.status.Active? { StopKeepsSidecar(s, os); }
    hide AP.Inv, SP.Inv, A.OnStop, S.OnStop;
  }

  lemma SidecarStoppedKeeps(s: System, id: nat)
    requires Inv(s) && Enabled(s, SidecarStopped(id))
    ensures Inv(OnSidecarStopped(s, id))
  {
    hide AP.Inv;
  }

  lemma OwnerStoppedKeeps(s: System)
    requires Inv(s) && StopOver(s)
    ensures Inv(OnOwnerStopped(s))
  {
    hide AP.Inv;
  }

  lemma InvKept(s: System, e: Event)
    requires Inv(s) && Enabled(s, e)
    ensures Inv(Apply(s, e))
  {
    hide Inv, OnStart, OnStop, OnAddon, OnSidecarStopped, OnOwnerStopped;
    match e
    case Start(choice, a) => StartKeeps(s, choice, a);
    case Stop(os) => StopKeeps(s, os);
    case OfAddon(call) => AddonKeeps(s, call);
    case OfSidecar(id, event, parse) => SidecarKeeps(s, id, event, parse);
    case AddonStartFailed => StopKeeps(s, S.Os(true, true));
    case SidecarStartFailed(id, os) => StopKeeps(s, os);
    case SidecarStopped(id) => SidecarStoppedKeeps(s, id);
    case OwnerStopped => OwnerStoppedKeeps(s);
  }

  ghost predicate Reachable(s: System) {
    exists mobile: bool, run: seq<Event> :: Feasible(Initial(mobile), run) && s == Exec(Initial(mobile), run)
  }

  lemma {:induction false} RunInv(s: System, run: seq<Event>)
    requires Inv(s) && Feasible(s, run)
    ensures Inv(Exec(s, run))
    decreases |run|
  {
    hide Inv, Apply, Enabled;
    if run != [] {
      InvKept(s, run[0]);
      RunInv(Apply(s, run[0]), run[1..]);
    }
  }

  lemma ReachableInv(s: System)
    requires Reachable(s)
    ensures Inv(s)
  {
    var mobile: bool, run: seq<Event> :| Feasible(Initial(mobile), run) && s == Exec(Initial(mobile), run);
    InitialInv(mobile);
    RunInv(Initial(mobile), run);
  }

  // ---------------------------------------------------------------- main results

  /** At most one backend is not stopped for sure, and it is the owner. */
  lemma OneBackend(s: System, i: nat, j: nat)
    requires Reachable(s)
    ensures !s.controller.status.Stopped? ==> s.owner.Addon? && !Lives(s, i)
    ensures Lives(s, i) && Lives(s, j) ==> i == j && s.owner.Sidecar? && s.owner.id == i
  {
    ReachableInv(s);
  }

  /** The event starts a backend: the addon is called or a process is spawned. */
  predicate Begins(s: System, e: Event)
    requires Enabled(s, e)
  {
    e.Start? && (Apply(s, e).controller.log != s.controller.log || Apply(s, e).next != s.next)
  }

  /** A backend starts only when nothing is owned, no shutdown has failed, the addon is stopped
      and the exit of every earlier process was confirmed. */
  lemma BeginsAfterEnd(s: System, e: Event, id: nat)
    requires Reachable(s) && Enabled(s, e) && Begins(s, e)
    ensures s.owner.Nobody? && !s.terminal && s.controller.status.Stopped?
    ensures HasProcess(s, id) ==> s.sidecars[id].process.exitConfirmed && s.sidecars[id].process.stopped.Fulfilled?
  {
    ReachableInv(s);
  }

  /** Which start reaches a backend: on mobile the addon only, elsewhere the one chosen. */
  predicate Reaches(mobile: bool, choice: Choice, a: Answers) {
    match choice
    case InvalidChoice => false
    case AddonChoice => a.addonLoads && a.addonConfig.Some?
    case Unspecified => !mobile || (a.addonLoads && a.addonConfig.Some?)
    case SidecarChoice => !mobile
  }

  /** A start begins a backend exactly when nothing is owned, no shutdown has failed and its
      choice is available. */
  lemma BeginsExactly(s: System, choice: Choice, a: Answers)
    requires Reachable(s)
    ensures Begins(s, Start(choice, a)) <==> s.owner.Nobody? && !s.terminal && Reaches(s.mobile, choice, a)
  {
    ReachableInv(s);
    if s.owner.Nobody? { StartCallsBinding(s.controller, a.addonConfig, a.timer); }
    hide A.OnStart, AP.Inv, SP.Inv, S.Create;
  }

  /** A stopped controller with valid options calls the binding, whatever the timer does. */
  lemma StartCallsBinding(c: A.State, config: Option<nat>, timer: A.Timer)
    requires c.status.Stopped?
    ensures A.OnStart(c, config, timer).log != c.log <==> config.Some?
    ensures config.Some? ==> A.NativeStart(c.generation + 1) in A.OnStart(c, config, timer).log
  {
  }

  /** Some component's shutdown has failed, or the selection knows of one. */
  ghost predicate SomethingFailed(s: System) {
    s.terminal || s.controller.status.Failed?
        || (exists id :: HasProcess(s, id) && s.sidecars[id].process.status.Failed?)
  }

  lemma FailureBlocksStart(s: System, e: Event)
    requires Inv(s) && Enabled(s, e) && SomethingFailed(s)
    ensures !Begins(s, e)
  {
  }

  lemma FailureStays(s: System, e: Event)
    requires Inv(s) && Enabled(s, e) && SomethingFailed(s)
    ensures SomethingFailed(Apply(s, e))
  {
    InvKept(s, e);
    if s.terminal {
      TerminalStays(s, e);
    } else {
      assert s.owner.Sidecar? && Lives(s, s.owner.id) && s.sidecars[s.owner.id].process.status.Failed?;
      FailedProcessStays(s, e);
    }
    hide Inv;
  }

  lemma TerminalStays(s: System, e: Event)
    requires Enabled(s, e) && s.terminal
    ensures Apply(s, e).terminal
  {
  }

  lemma FailedProcessStays(s: System, e: Event)
    requires Inv(s) && Enabled(s, e) && s.owner.Sidecar? && HasProcess(s, s.owner.id)
    requires s.sidecars[s.owner.id].process.status.Failed?
    ensures HasProcess(Apply(s, e), s.owner.id) && Apply(s, e).sidecars[s.owner.id].process.status.Failed?
  {
    var p := s.sidecars[s.owner.id].process;
    if e.OfSidecar? && e.id == s.owner.id { SP.SettledStays(p, e.event, e.parse); }
    assert forall os: S.Os :: S.OnStop(p, os).status.Failed?;
    hide A.OnStop, S.OnStop, S.Apply, S.Enabled, A.Apply, A.Enabled, SP.Inv, AP.Inv;
  }

  predicate NeverBegins(s: System, run: seq<Event>)
    requires Feasible(s, run)
    decreases |run|
  {
    run == [] || (!Begins(s, run[0]) && NeverBegins(Apply(s, run[0]), run[1..]))
  }

  /** Once a shutdown has failed, no start ever begins a backend again. */
  lemma FailureIsFinal(s: System, run: seq<Event>)
    requires Reachable(s) && SomethingFailed(s) && Feasible(s, run)
    ensures NeverBegins(s, run)
  {
    ReachableInv(s);
    FailureRun(s, run);
  }

  lemma {:induction false} FailureRun(s: System, run: seq<Event>)
    requires Inv(s) && SomethingFailed(s) && Feasible(s, run)
    ensures NeverBegins(s, run)
    decreases |run|
  {
    hide Inv, Apply, Enabled, SomethingFailed, Begins;
    if run != [] {
      InvKept(s, run[0]);
      FailureStays(s, run[0]);
      FailureBlocksStart(s, run[0]);
      FailureRun(Apply(s, run[0]), run[1..]);
    }
  }

  /** On a mobile platform no sidecar is ever started. */
  lemma MobileHasNoSidecar(s: System)
    requires Reachable(s) && s.mobile
    ensures s.sidecars == map[] && !s.owner.Sidecar?
  {
    ReachableInv(s);
  }
}
