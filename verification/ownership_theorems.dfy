/** What every run of the ownership guarantees. */
module OwnershipTheorems {
  import opened Optional
  import opened Ownership
  import opened OwnershipProofs

  ghost predicate Reachable(s: State) {
    exists run: seq<Event> :: Feasible(Initial, run) && s == Exec(Initial, run)
  }

  lemma {:induction false} RunInv(s: State, run: seq<Event>)
    requires Inv(s) && Feasible(s, run)
    ensures Inv(Exec(s, run))
    decreases |run|
  {
    hide Inv, Apply, Enabled;
    if run != [] {
      InvKept(s, run[0]);
      RunInv(Apply(s, run[0]), run[1..]);
    }
  }

  lemma ReachableInv(s: State)
    requires Reachable(s)
    ensures Inv(s)
  {
    var run: seq<Event> :| Feasible(Initial, run) && s == Exec(Initial, run);
    RunInv(Initial, run);
  }

  // ---------------------------------------------------------------- the backend's calls

  /** Calls of stopBackend that have not finished: entered or unsettled. */
  function StopsUnderWay(s: State): nat {
    (if InStopFrame(s) then 1 else 0) + (if s.stopInFlight then 1 else 0)
  }

  /** The step calls stopBackend. */
  predicate EntersStop(s: State, e: Event)
    requires Enabled(s, e)
  {
    InStopFrame(Apply(s, e)) && !InStopFrame(s)
  }

  /** The step calls startBackend. */
  predicate EntersStart(s: State, e: Event)
    requires Enabled(s, e)
  {
    Apply(s, e).entering && !s.entering
  }

  predicate StopEntered(s: State, t: State) {
    && (InStopFrame(t) && !InStopFrame(s) ==> Owners(t) == 0 && !s.stopping)
    && (t.stopInFlight ==> s.stopInFlight) && (t.terminal ==> s.terminal || s.stopInFlight)
  }

  lemma BeginStopEnters(s: State)
    ensures StopEntered(s, BeginStop(s))
  {
  }

  lemma ReleaseLegacyEnters(s: State, a: nat)
    ensures StopEntered(s, ReleaseLegacy(s, a))
  {
    BeginStopEnters(DropLegacy(s.(releasedAttempts := s.releasedAttempts + {a})));
    hide BeginStop;
  }

  lemma FailureEnters(s: State, operation: Option<nat>)
    ensures StopEntered(s, FinishFailedRequest(s, operation)) && StopEntered(s, FinishProjectionFailure(s))
  {
    BeginStopEnters(s);
    hide BeginStop;
  }

  lemma AcquisitionEnters(s: State, call: nat, valid: bool)
    requires call in s.waiting && s.waiting[call].OfAcquire?
    ensures StopEntered(s, OnResolved(s, call, valid)) && StopEntered(s, OnRejected(s, call))
  {
    var t := s.(waiting := s.waiting - {call}, pending := if s.pending > 0 then s.pending - 1 else 0);
    FailureEnters(t, s.waiting[call].operation);
    hide FinishFailedRequest, FinishProjectionFailure, Owners;
  }

  lemma ServiceEnters(s: State, call: nat, valid: bool)
    requires call in s.waiting && s.waiting[call].OfStart?
    ensures StopEntered(s, OnResolved(s, call, valid)) && StopEntered(s, OnRejected(s, call))
  {
    var t := s.(waiting := s.waiting - {call});
    FailureEnters(t, s.waiting[call].operation);
    FailureEnters(DropLegacy(t), s.waiting[call].operation);
    hide FinishFailedRequest, FinishProjectionFailure, Owners;
  }

  lemma DepartureEnters(s: State, e: Event)
    requires Enabled(s, e) && (e.Stop? || e.StopService? || e.Release?)
    ensures StopEntered(s, Apply(s, e))
  {
    match e
    case Stop => if s.attempt.Some? { ReleaseLegacyEnters(s, s.attempt.value); hide ReleaseLegacy; }
    case StopService(a) => ReleaseLegacyEnters(s, a); hide ReleaseLegacy;
    case Release(lease) =>
      BeginStopEnters(s.(releasedLeases := s.releasedLeases + {lease}, leases := s.leases - {lease}));
      hide BeginStop;
  }

  lemma BackendEnters(s: State, caller: Caller)
    ensures StopEntered(s, BeginBackend(s, caller))
  {
  }

  lemma CallEnters(s: State, e: Event)
    requires Enabled(s, e) && (e.Acquire? || e.Start?)
    ensures StopEntered(s, Apply(s, e))
  {
    if e.Acquire? { AcquireEnters(s, e.valid); } else { StartEnters(s, e.valid); }
    hide OnAcquire, OnStart;
  }

  lemma ClearEnters(s: State)
    ensures StopEntered(s, ClearFailedGeneration(s)) && StopEntered(s, s)
  {
  }

  lemma SnapshotEnters(s: State, t: State)
    requires StopEntered(EnsureResolver(s), t)
    ensures StopEntered(s, t)
  {
    hide Owners;
  }

  lemma AcquireEnters(s: State, valid: bool)
    ensures StopEntered(s, OnAcquire(s, valid))
  {
    var t := EnsureResolver(s);
    var u := t.(pending := t.pending + 1);
    BackendEnters(u, ForAcquire);
    ClearEnters(s);
    ClearEnters(t);
    hide BeginBackend, ClearFailedGeneration, EnsureResolver, Owners;
    if !s.terminal { SnapshotEnters(s, OnAcquire(s, valid)); }
  }

  lemma StartEnters(s: State, valid: bool)
    ensures StopEntered(s, OnStart(s, valid))
  {
    var t := EnsureResolver(s);
    BackendEnters(t, ForStart);
    ClearEnters(s);
    ClearEnters(t);
    hide BeginBackend, ClearFailedGeneration, EnsureResolver, Owners;
    if !s.terminal { SnapshotEnters(s, OnStart(s, valid)); }
  }

  lemma EventEnters(s: State, e: Event)
    requires Enabled(s, e) && StackOk(s) && !e.StopReturned?
    ensures StopEntered(s, Apply(s, e))
  {
    hide OnAcquire, OnStart, OnStop, OnRelease, ReleaseLegacy, OnResolved, OnRejected, Owners;
    if e.Acquire? || e.Start? { CallEnters(s, e); }
    else if e.Stop? || e.StopService? || e.Release? { DepartureEnters(s, e); }
    else if e.Resolved? || e.Rejected? {
      if s.waiting[e.call].OfAcquire? { AcquisitionEnters(s, e.call, e.Resolved? && e.valid); }
      else { ServiceEnters(s, e.call, e.Resolved? && e.valid); }
    }
  }

  /** stopBackend is called only when no owner is left, and never overlaps itself. */
  lemma StopOnlyWithoutOwners(s: State, e: Event)
    requires Reachable(s) && Enabled(s, e)
    ensures EntersStop(s, e) ==> Owners(Apply(s, e)) == 0 && StopsUnderWay(s) == 0 && !s.terminal
    ensures StopsUnderWay(Apply(s, e)) <= 1
  {
    ReachableInv(s);
    InvKept(s, e);
    if !e.StopReturned? { EventEnters(s, e); }
    assert StopOk(s) && StopOk(Apply(s, e));
    assert e.StopReturned? ==> InStopFrame(s);
    hide Inv, Apply, Owners;
  }

  /** The rejection is that of the operation that started this generation's backend. */
  predicate StartFails(s: State, e: Event) {
    e.Rejected? && e.call in s.waiting && s.waiting[e.call].operation.Some? && s.started == s.waiting[e.call].operation
  }

  /** The event begins a stop if and only if a backend is recorded, none is under way and it was
      not the start itself that failed. */
  predicate StopsIfLast(s: State, e: Event, t: State) {
    Owners(s) > 0 && Owners(t) == 0 ==>
      (InStopFrame(t) && !InStopFrame(s) <==> s.started.Some? && !s.stopping && !StartFails(s, e))
  }

  lemma BeginStopIfLast(s: State)
    requires StopOk(s) && Owners(s) == 0
    ensures InStopFrame(BeginStop(s)) && !InStopFrame(s) <==> s.started.Some? && !s.stopping
  {
    hide Owners;
  }

  lemma ReleaseStops(s: State, lease: nat)
    requires Inv(s) && lease < s.nextLease
    ensures StopsIfLast(s, Release(lease), OnRelease(s, lease))
  {
    var t := s.(releasedLeases := s.releasedLeases + {lease}, leases := s.leases - {lease});
    if Owners(t) == 0 { BeginStopIfLast(t); }
    hide BeginStop, PendingOk, OwnersOk;
  }

  lemma LegacyStops(s: State, e: Event, a: nat)
    requires Inv(s) && (e.Stop? || e.StopService?)
    ensures StopsIfLast(s, e, ReleaseLegacy(s, a))
  {
    var t := DropLegacy(s.(releasedAttempts := s.releasedAttempts + {a}));
    if Owners(t) == 0 { BeginStopIfLast(t); }
    hide BeginStop, PendingOk, NamesOk, LeasesOk;
  }

  lemma NoDeparture(s: State, e: Event)
    ensures StopsIfLast(s, e, s)
  {
  }

  lemma DepartureStops(s: State, e: Event)
    requires Inv(s) && Enabled(s, e) && (e.Stop? || e.StopService? || e.Release?)
    ensures StopsIfLast(s, e, Apply(s, e))
  {
    hide Inv, OnRelease, ReleaseLegacy, StopsIfLast;
    match e
    case Release(lease) => ReleaseStops(s, lease);
    case StopService(a) => LegacyStops(s, e, a);
    case Stop =>
      NoDeparture(s, e);
      if s.attempt.Some? { LegacyStops(s, e, s.attempt.value); }
  }

  lemma FailureStops(s: State, operation: Option<nat>)
    requires StopOk(s) && Owners(s) == 0
    ensures InStopFrame(FinishProjectionFailure(s)) && !InStopFrame(s) <==> s.started.Some? && !s.stopping
    ensures InStopFrame(FinishFailedRequest(s, operation)) && !InStopFrame(s) <==>
              s.started.Some? && !s.stopping && !(operation.Some? && s.started == operation)
  {
    BeginStopIfLast(s);
    hide BeginStop;
  }

  lemma SettlementStops(s: State, e: Event)
    requires Inv(s) && Enabled(s, e) && (e.Resolved? || e.Rejected?)
    ensures StopsIfLast(s, e, Apply(s, e))
  {
    var operation := s.waiting[e.call].operation;
    var t := s.(waiting := s.waiting - {e.call});
    var u := t.(pending := if t.pending > 0 then t.pending - 1 else 0);
    if Owners(u) == 0 { FailureStops(u, operation); }
    if Owners(DropLegacy(t)) == 0 { FailureStops(DropLegacy(t), operation); }
    hide FinishFailedRequest, FinishProjectionFailure, PendingOk, NamesOk, LeasesOk;
  }

  lemma CallsKeepOwners(s: State, e: Event)
    requires Enabled(s, e) && (e.Acquire? || e.Start?)
    ensures Owners(s) > 0 ==> Owners(Apply(s, e)) > 0
  {
  }

  lemma ReturnsKeepOwners(s: State, e: Event)
    requires Inv(s) && Enabled(s, e) && (e.StartReturned? || e.StopReturned? || e.StopSettled?)
    ensures Owners(s) > 0 ==> Owners(Apply(s, e)) > 0
  {
    hide StopOk, OwnersOk, NamesOk, LeasesOk;
  }

  /** When the last owner leaves, the backend is stopped in the same event, if and only if one is
      recorded that is not being stopped already and whose own start is not what failed. */
  lemma LastOwnerStops(s: State, e: Event)
    requires Reachable(s) && Enabled(s, e) && Owners(s) > 0 && Owners(Apply(s, e)) == 0
    ensures EntersStop(s, e) <==> s.started.Some? && !s.stopping && !StartFails(s, e)
  {
    ReachableInv(s);
    hide Inv, Apply, Owners, Enabled, Reachable;
    if e.Stop? || e.StopService? || e.Release? { DepartureStops(s, e); }
    else if e.Resolved? || e.Rejected? { SettlementStops(s, e); }
    else if e.Acquire? || e.Start? { CallsKeepOwners(s, e); }
    else { ReturnsKeepOwners(s, e); }
  }

  /** startBackend is entered by a valid acquire or start that finds no stop in progress or
      failed and no start being entered, and by no other event. */
  lemma AcquireStarts(s: State, e: Event)
    requires Reachable(s) && Enabled(s, e)
    ensures EntersStart(s, e) <==> (e.Acquire? || e.Start?) && e.valid && !s.terminal && !s.stopping && !s.entering
  {
    ReachableInv(s);
    hide Owners, Inv;
    if e.Acquire? || e.Start? { CallEntersStart(s, e); } else { OthersEnterNothing(s, e); }
  }

  lemma CallEntersStart(s: State, e: Event)
    requires e.Acquire? || e.Start?
    ensures EntersStart(s, e) <==> e.valid && !s.terminal && !s.stopping && !s.entering
  {
    hide Owners;
  }

  lemma OthersEnterNothing(s: State, e: Event)
    requires Enabled(s, e) && !e.Acquire? && !e.Start?
    ensures !EntersStart(s, e)
  {
    hide Owners;
  }

  /** startBackend is never called while a stop is in progress or after a failed one, nor
      while it is itself being entered. */
  lemma StartNeverWhileStopping(s: State, e: Event)
    requires Reachable(s) && Enabled(s, e) && EntersStart(s, e)
    ensures !s.stopping && !s.terminal && StopsUnderWay(s) == 0 && !s.entering
  {
    ReachableInv(s);
  }

  /** A live lease means a recorded backend that is not being stopped. */
  lemma LeaseMeansBackend(s: State)
    requires Reachable(s) && s.leases != {}
    ensures s.started.Some? && !s.stopping && !s.terminal && StopsUnderWay(s) == 0
  {
    ReachableInv(s);
  }

  /** Without owners and without a stop in progress, no backend is recorded. */
  lemma NoOwnersNoBackend(s: State)
    requires Reachable(s) && Owners(s) == 0 && !s.stopping
    ensures s.started.None?
  {
    ReachableInv(s);
  }

  /** A failed stop is final: no run afterwards calls the backend again. */
  lemma TerminalStays(s: State, run: seq<Event>)
    requires Reachable(s) && s.terminal && Feasible(s, run)
    ensures Exec(s, run).terminal && Exec(s, run).stopping && |Exec(s, run).frames| <= |s.frames|
  {
    ReachableInv(s);
    TerminalRun(s, run);
  }

  lemma {:induction false} TerminalRun(s: State, run: seq<Event>)
    requires Inv(s) && s.terminal && Feasible(s, run)
    ensures Exec(s, run).terminal && Exec(s, run).stopping && |Exec(s, run).frames| <= |s.frames|
    decreases |run|
  {
    if run != [] {
      InvKept(s, run[0]);
      TerminalStep(s, run[0]);
      TerminalRun(Apply(s, run[0]), run[1..]);
    }
    hide Apply, Enabled, Almost;
  }

  lemma TerminalStep(s: State, e: Event)
    requires Inv(s) && s.terminal && Enabled(s, e)
    ensures Apply(s, e).terminal && |Apply(s, e).frames| <= |s.frames|
  {
  }

  // ---------------------------------------------------------------- handles

  datatype Handles = Handles(leases: set<nat>, nextLease: nat, attempt: Option<nat>, nextAttempt: nat)

  function HandlesOf(s: State): Handles {
    Handles(s.leases, s.nextLease, s.attempt, s.nextAttempt)
  }

  lemma HelpersKeepHandles(s: State, operation: Option<nat>)
    ensures HandlesOf(BeginStop(s)) == HandlesOf(s) && HandlesOf(ClearFailedGeneration(s)) == HandlesOf(s)
    ensures HandlesOf(FinishFailedRequest(s, operation)) == HandlesOf(s)
              && HandlesOf(FinishProjectionFailure(s)) == HandlesOf(s)
    ensures HandlesOf(EnsureResolver(s)) == HandlesOf(s)
  {
    hide Owners;
  }

  /** Handles are only ever dropped or issued under new names. */
  predicate Succeeds(h: Handles, k: Handles) {
    && h.nextLease <= k.nextLease && h.nextAttempt <= k.nextAttempt
    && (forall l :: l in k.leases ==> l in h.leases || l >= h.nextLease)
    && (k.attempt == h.attempt || k.attempt.None? || k.attempt.value >= h.nextAttempt)
  }

  lemma BackendHandles(s: State, caller: Caller)
    ensures Succeeds(HandlesOf(s), HandlesOf(BeginBackend(s, caller)))
  {
  }

  lemma CallHandles(s: State, valid: bool)
    ensures Succeeds(HandlesOf(s), HandlesOf(OnAcquire(s, valid)))
    ensures Succeeds(HandlesOf(s), HandlesOf(OnStart(s, valid)))
  {
    var t := EnsureResolver(s);
    HelpersKeepHandles(s, None);
    HelpersKeepHandles(t, None);
    BackendHandles(t, ForStart);
    BackendHandles(t.(pending := t.pending + 1), ForAcquire);
    hide ClearFailedGeneration, BeginBackend, EnsureResolver;
  }

  lemma ReleaseLegacyHandles(s: State, a: nat)
    ensures Succeeds(HandlesOf(s), HandlesOf(ReleaseLegacy(s, a)))
  {
    HelpersKeepHandles(DropLegacy(s.(releasedAttempts := s.releasedAttempts + {a})), None);
    hide BeginStop;
  }

  lemma InvalidHandles(s: State, call: nat)
    requires call in s.waiting
    ensures Succeeds(HandlesOf(s), HandlesOf(OnResolved(s, call, false)))
  {
    var t := s.(waiting := s.waiting - {call});
    hide FinishProjectionFailure;
    HelpersKeepHandles(t, s.waiting[call].operation);
    HelpersKeepHandles(DropLegacy(t), s.waiting[call].operation);
    HelpersKeepHandles(t.(pending := if t.pending > 0 then t.pending - 1 else 0), s.waiting[call].operation);
  }

  lemma ValidHandles(s: State, call: nat)
    requires call in s.waiting
    ensures Succeeds(HandlesOf(s), HandlesOf(OnResolved(s, call, true)))
  {
    hide FinishProjectionFailure, Owners;
  }

  lemma RejectionHandles(s: State, call: nat)
    requires call in s.waiting
    ensures Succeeds(HandlesOf(s), HandlesOf(OnRejected(s, call)))
  {
    var t := s.(waiting := s.waiting - {call});
    hide FinishFailedRequest;
    HelpersKeepHandles(DropLegacy(t), s.waiting[call].operation);
    HelpersKeepHandles(t.(pending := if t.pending > 0 then t.pending - 1 else 0), s.waiting[call].operation);
  }

  lemma ReleaseHandles(s: State, lease: nat)
    ensures Succeeds(HandlesOf(s), HandlesOf(OnRelease(s, lease)))
  {
    HelpersKeepHandles(s.(releasedLeases := s.releasedLeases + {lease}, leases := s.leases - {lease}), None);
    hide BeginStop;
  }

  lemma HandlesSucceed(s: State, e: Event)
    requires Enabled(s, e)
    ensures Succeeds(HandlesOf(s), HandlesOf(Apply(s, e)))
  {
    hide OnAcquire, OnStart, OnRelease, ReleaseLegacy, OnResolved, OnRejected;
    match e
    case Acquire(valid) => CallHandles(s, valid);
    case Start(valid) => CallHandles(s, valid);
    case Stop => if s.attempt.Some? { ReleaseLegacyHandles(s, s.attempt.value); }
    case Release(lease) => ReleaseHandles(s, lease);
    case StopService(a) => ReleaseLegacyHandles(s, a);
    case Resolved(call, valid) => if valid { ValidHandles(s, call); } else { InvalidHandles(s, call); }
    case Rejected(call) => RejectionHandles(s, call);
    case _ =>
  }

  /** A lease that is gone never comes back, over any later run. */
  lemma {:induction false} GoneLeaseStaysGone(s: State, run: seq<Event>, lease: nat)
    requires Feasible(s, run) && lease < s.nextLease && lease !in s.leases
    ensures lease < Exec(s, run).nextLease && lease !in Exec(s, run).leases
    decreases |run|
  {
    if run != [] {
      HandlesSucceed(s, run[0]);
      hide Apply, Enabled;
      GoneLeaseStaysGone(Apply(s, run[0]), run[1..], lease);
    }
  }

  lemma {:induction false} GoneAttemptStaysGone(s: State, run: seq<Event>, a: nat)
    requires Feasible(s, run) && a < s.nextAttempt && s.attempt != Some(a)
    ensures a < Exec(s, run).nextAttempt && Exec(s, run).attempt != Some(a)
    decreases |run|
  {
    if run != [] {
      HandlesSucceed(s, run[0]);
      hide Apply, Enabled;
      GoneAttemptStaysGone(Apply(s, run[0]), run[1..], a);
    }
  }

  lemma {:induction false} ReachableRun(s: State, run: seq<Event>)
    requires Reachable(s) && Feasible(s, run)
    ensures Reachable(Exec(s, run))
  {
    var before: seq<Event> :| Feasible(Initial, before) && s == Exec(Initial, before);
    hide Apply, Enabled;
    ExecConcat(Initial, before, run);
  }

  lemma {:induction false} ExecConcat(s: State, a: seq<Event>, b: seq<Event>)
    requires Feasible(s, a) && Feasible(Exec(s, a), b)
    ensures Feasible(s, a + b) && Exec(s, a + b) == Exec(Exec(s, a), b)
    decreases |a|
  {
    hide Apply, Enabled;
    if a == [] {
      assert a + b == b;
    } else {
      assert (a + b)[1..] == a[1..] + b;
      ExecConcat(Apply(s, a[0]), a[1..], b);
    }
  }

  /** Once a lease is gone, in that generation or a later one, releasing it changes nothing. */
  lemma StaleLeaseIsInert(s: State, run: seq<Event>, lease: nat)
    requires Reachable(s) && Feasible(s, run) && lease < s.nextLease && lease !in s.leases
    ensures var t := Exec(s, run); Enabled(t, Release(lease)) && Apply(t, Release(lease)) == t
  {
    GoneLeaseStaysGone(s, run, lease);
    ReachableRun(s, run);
    ReachableInv(Exec(s, run));
  }

  /** Once a legacy service is no longer the current attempt, its stop only notes that it was
      called: no owner changes, no backend call begins and no later step can tell. */
  lemma StaleServiceIsInert(s: State, run: seq<Event>, a: nat)
    requires Reachable(s) && Feasible(s, run) && a < s.nextAttempt && s.attempt != Some(a)
    ensures var t := Exec(s, run);
            Enabled(t, StopService(a)) && Apply(t, StopService(a)) == t.(releasedAttempts := t.releasedAttempts + {a})
  {
    GoneAttemptStaysGone(s, run, a);
    var t := Exec(s, run);
    assert a in t.releasedAttempts ==> t.releasedAttempts + {a} == t.releasedAttempts;
  }
}
