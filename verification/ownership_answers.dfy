/** What each call, return and settlement of the ownership does, in every reachable state, and which
    leases are live after any run. */
module OwnershipAnswers {
  import opened Optional
  import opened Ownership
  import opened OwnershipProofs
  import opened OwnershipTheorems

  // ---------------------------------------------------------------- settlements

  /** A valid service gives each waiting acquisition a lease of its own, which no other ever had, in
      exchange for its pending count: nobody else is touched. Without one the acquisition no longer
      counts, and no lease is issued or lost. */
  lemma AcquisitionAnswers(s: State, e: Event)
    requires Reachable(s) && Enabled(s, e) && (e.Resolved? || e.Rejected?) && s.waiting[e.call].OfAcquire?
    ensures var t := Apply(s, e);
            && s.pending > 0 && t.pending == s.pending - 1 && t.waiting == s.waiting - {e.call}
            && t.legacy == s.legacy && t.attempt == s.attempt
            && (e.Resolved? && e.valid ==>
                 && s.nextLease !in s.leases && s.nextLease !in s.releasedLeases
                 && t.leases == s.leases + {s.nextLease} && t.nextLease == s.nextLease + 1
                 && Owners(t) == Owners(s) && t.frames == s.frames && t.started == s.started
                      && t.resolver == s.resolver)
            && (!(e.Resolved? && e.valid) ==>
                 t.leases == s.leases && t.nextLease == s.nextLease && Owners(t) == Owners(s) - 1)
  {
    ReachableInv(s);
    AcquisitionSettled(s, e.call);
    assert s.nextLease !in s.leases && s.nextLease !in s.releasedLeases;
    assert |s.leases + {s.nextLease}| == |s.leases| + 1;
    hide Inv, Almost, Reachable;
    if e.Resolved? && e.valid { LeaseIssued(s, e.call); } else { NoLease(s, e); }
  }

  lemma LeaseIssued(s: State, call: nat)
    requires call in s.waiting && s.waiting[call].OfAcquire? && s.pending > 0
    ensures OnResolved(s, call, true) ==
              s.(waiting := s.waiting - {call}, pending := s.pending - 1,
                 leases := s.leases + {s.nextLease}, nextLease := s.nextLease + 1)
  {
  }

  lemma NoLease(s: State, e: Event)
    requires Enabled(s, e) && ((e.Resolved? && !e.valid) || e.Rejected?) && s.waiting[e.call].OfAcquire?
              && s.pending > 0
    ensures var t, u := Apply(s, e), s.(waiting := s.waiting - {e.call}, pending := s.pending - 1);
            && t.pending == u.pending && t.waiting == u.waiting && t.legacy == u.legacy && t.attempt == u.attempt
            && t.leases == u.leases && t.nextLease == u.nextLease && Owners(t) == Owners(u)
  {
    var u := s.(waiting := s.waiting - {e.call}, pending := s.pending - 1);
    FailureKeeps(u, s.waiting[e.call].operation);
    hide FinishFailedRequest, FinishProjectionFailure, Owners;
  }

  lemma FailureKeeps(u: State, operation: Option<nat>)
    ensures forall t :: t == FinishFailedRequest(u, operation) || t == FinishProjectionFailure(u) ==>
              && t.pending == u.pending && t.waiting == u.waiting && t.legacy == u.legacy && t.attempt == u.attempt
              && t.leases == u.leases && t.nextLease == u.nextLease && t.nextAttempt == u.nextAttempt
              && Owners(t) == Owners(u)
  {
  }

  /** A valid service leaves the legacy owner as it is. Without one the attempt that waits for it is
      over, if it is still the current one, and otherwise nothing else changes. */
  lemma LegacyAnswers(s: State, e: Event)
    requires Reachable(s) && Enabled(s, e) && (e.Resolved? || e.Rejected?) && s.waiting[e.call].OfStart?
    ensures var t, current := Apply(s, e), s.attempt == Some(s.waiting[e.call].attempt);
            && t.waiting == s.waiting - {e.call} && t.leases == s.leases && t.pending == s.pending
            && (e.Resolved? && e.valid ==> t == s.(waiting := t.waiting))
            && (!(e.Resolved? && e.valid) && current ==> !t.legacy && t.attempt.None? && Owners(t) == Owners(s) - 1)
            && (!(e.Resolved? && e.valid) && !current ==>
                 t.legacy == s.legacy && t.attempt == s.attempt && Owners(t) == Owners(s))
            && (e.Rejected? && !current ==> t == s.(waiting := t.waiting))
  {
    ReachableInv(s);
    assert s.legacy <==> s.attempt.Some?;
    var u := s.(waiting := s.waiting - {e.call});
    FailureKeeps(u, s.waiting[e.call].operation);
    FailureKeeps(DropLegacy(u), s.waiting[e.call].operation);
    hide Inv, Reachable, FinishFailedRequest, FinishProjectionFailure;
  }

  /** When the start of the backend fails and nobody is left, the generation is forgotten, so that the
      next request starts afresh. */
  lemma FailedStartIsForgotten(s: State, e: Event)
    requires Reachable(s) && Enabled(s, e) && Owners(s) > 0 && Owners(Apply(s, e)) == 0
    requires StartFails(s, e) && !s.stopping
    ensures Apply(s, e).started.None? && Apply(s, e).resolver.None? && Apply(s, e).frames == s.frames
  {
    ReachableInv(s);
    hide Inv, Reachable;
  }

  /** A stop that succeeds forgets the generation and lets requests in again; one that fails is final. */
  lemma StopSettledAnswers(s: State, ok: bool)
    requires Reachable(s) && Enabled(s, StopSettled(ok))
    ensures var t := Apply(s, StopSettled(ok));
            if ok then t == s.(stopInFlight := false, stopping := false, started := None, resolver := None)
            else t == s.(stopInFlight := false, terminal := true) && t.stopping
  {
    ReachableInv(s);
    hide Reachable;
  }

  // ---------------------------------------------------------------- requests

  /** A request is turned away: by a failed stop, for options that do not validate, or during a stop. */
  predicate TurnedAway(s: State, valid: bool) {
    s.terminal || !valid || s.stopping
  }

  /** Whom a request leaves as owners: a request that is turned away leaves them as they were, and an
      acquire that is not counts from now on. */
  lemma AcquireAnswers(s: State, valid: bool)
    requires Reachable(s)
    ensures var t := Apply(s, Acquire(valid));
            && t.leases == s.leases && t.legacy == s.legacy && t.attempt == s.attempt && t.stopping == s.stopping
            && (TurnedAway(s, valid) ==> t.pending == s.pending && t.frames == s.frames && t.waiting == s.waiting)
            && (!TurnedAway(s, valid) ==> t.pending == s.pending + 1 && t.resolver.Some? && t.started == s.started)
            && (!TurnedAway(s, valid) && s.entering ==>
                 t.frames == s.frames && t.waiting == s.waiting[s.nextCall := OfAcquire(None)])
            && (!TurnedAway(s, valid) && !s.entering ==>
                 t.frames == s.frames + [Starting(ForAcquire)] && t.entering && t.waiting == s.waiting)
            && (TurnedAway(s, valid) && !s.stopping && Owners(s) == 0 ==> t.resolver.None? && t.started.None?)
  {
    ReachableInv(s);
    assert s.terminal ==> s.stopping;
    hide Inv, Reachable, Apply, Owners, BeginBackend;
    if TurnedAway(s, valid) { AwayAnswers(s, valid); }
    else { EnterAcquire(s); EnteredAcquire(EnsureResolver(s)); SnapshotTaken(s); }
  }

  /** What a request does that is turned away. */
  lemma AwayAnswers(s: State, valid: bool)
    requires TurnedAway(s, valid) && (s.terminal ==> s.stopping)
    ensures forall t :: t == Apply(s, Acquire(valid)) || t == Apply(s, Start(valid)) ==>
              && t.leases == s.leases && t.legacy == s.legacy && t.attempt == s.attempt && t.stopping == s.stopping
              && t.pending == s.pending && t.frames == s.frames && t.waiting == s.waiting
              && (!s.stopping && Owners(s) == 0 ==> t.resolver.None? && t.started.None?)
  {
    assert Apply(s, Acquire(valid)) == Apply(s, Start(valid)) by { AwayAlike(s, valid); }
    hide BeginBackend, OnStart;
  }

  lemma AwayAlike(s: State, valid: bool)
    requires TurnedAway(s, valid)
    ensures OnAcquire(s, valid) == OnStart(s, valid)
  {
    hide BeginBackend, ClearFailedGeneration, EnsureResolver;
    assert EnsureResolver(s).stopping == s.stopping by { SnapshotTaken(s); }
  }

  lemma SnapshotTaken(s: State)
    ensures EnsureResolver(s).resolver.Some?
    ensures EnsureResolver(s) == s.(resolver := EnsureResolver(s).resolver,
              nextResolver := EnsureResolver(s).nextResolver)
  {
  }

  lemma EnterAcquire(s: State)
    requires !TurnedAway(s, true)
    ensures Apply(s, Acquire(true)) == BeginBackend(EnsureResolver(s).(pending := s.pending + 1), ForAcquire)
  {
    hide BeginBackend;
  }

  lemma EnteredAcquire(s: State)
    ensures var t := BeginBackend(s.(pending := s.pending + 1), ForAcquire);
            && t.leases == s.leases && t.legacy == s.legacy && t.attempt == s.attempt && t.stopping == s.stopping
            && t.pending == s.pending + 1 && t.resolver == s.resolver && t.started == s.started
            && (s.entering ==> t.frames == s.frames && t.waiting == s.waiting[s.nextCall := OfAcquire(None)])
            && (!s.entering ==> t.frames == s.frames + [Starting(ForAcquire)] && t.entering && t.waiting == s.waiting)
  {
  }

  lemma EnterStart(s: State)
    requires !TurnedAway(s, true)
    ensures Apply(s, Start(true)) == BeginBackend(EnsureResolver(s), ForStart)
  {
    hide BeginBackend;
  }

  lemma EnteredStart(s: State)
    ensures var t := BeginBackend(s, ForStart);
            && t.leases == s.leases && t.pending == s.pending && t.stopping == s.stopping
            && t.resolver == s.resolver && t.started == s.started
            && (s.entering ==>
                 && t.frames == s.frames && t.legacy
                 && (s.legacy ==> t.attempt == s.attempt && t.waiting == s.waiting)
                 && (!s.legacy ==>
                      t.attempt == Some(s.nextAttempt)
                      && t.waiting == s.waiting[s.nextCall := OfStart(s.nextAttempt, None)]))
            && (!s.entering ==>
                 t.frames == s.frames + [Starting(ForStart)] && t.entering && t.legacy == s.legacy
                     && t.waiting == s.waiting)
  {
  }

  /** The same for start: one that is not turned away makes the caller the legacy owner at once if a
      start is being entered, or else when it has been, unless there is one already. */
  lemma StartAnswers(s: State, valid: bool)
    requires Reachable(s)
    ensures var t := Apply(s, Start(valid));
            && t.leases == s.leases && t.pending == s.pending && t.stopping == s.stopping
            && (TurnedAway(s, valid) ==> t.legacy == s.legacy && t.frames == s.frames && t.waiting == s.waiting)
            && (!TurnedAway(s, valid) ==> t.resolver.Some? && t.started == s.started)
            && (!TurnedAway(s, valid) && s.entering ==>
                 && t.frames == s.frames && t.legacy
                 && (s.legacy ==> t.attempt == s.attempt && t.waiting == s.waiting)
                 && (!s.legacy ==>
                      t.attempt == Some(s.nextAttempt)
                      && t.waiting == s.waiting[s.nextCall := OfStart(s.nextAttempt, None)]))
            && (!TurnedAway(s, valid) && !s.entering ==>
                 t.frames == s.frames + [Starting(ForStart)] && t.entering && t.legacy == s.legacy
                     && t.waiting == s.waiting)
            && (TurnedAway(s, valid) && !s.stopping && Owners(s) == 0 ==> t.resolver.None? && t.started.None?)
  {
    ReachableInv(s);
    assert s.terminal ==> s.stopping;
    hide Inv, Reachable, Apply, Owners, BeginBackend;
    if TurnedAway(s, valid) { AwayAnswers(s, valid); }
    else { EnterStart(s); EnteredStart(EnsureResolver(s)); SnapshotTaken(s); }
  }

  /** When startBackend has returned, its operation is the generation's if it is the first, and the
      request waits for it: as a pending acquisition, or as the legacy owner unless there is one. */
  lemma ReturnAnswers(s: State, operation: nat)
    requires Reachable(s) && Enabled(s, StartReturned(operation))
    ensures var t, caller := Apply(s, StartReturned(operation)), s.frames[|s.frames| - 1].caller;
            && !t.entering && t.frames == s.frames[..|s.frames| - 1] && t.leases == s.leases && t.pending == s.pending
            && t.started == (if s.started.Some? then s.started else Some(operation))
            && (caller.ForAcquire? ==>
                 t.waiting == s.waiting[s.nextCall := OfAcquire(Some(operation))] && t.legacy == s.legacy)
            && (caller.ForStart? ==> t.legacy)
            && (caller.ForStart? && s.legacy ==> t.attempt == s.attempt && t.waiting == s.waiting)
            && (caller.ForStart? && !s.legacy ==>
                 && t.attempt == Some(s.nextAttempt) && t.nextAttempt == s.nextAttempt + 1
                 && t.waiting == s.waiting[s.nextCall := OfStart(s.nextAttempt, Some(operation))])
  {
    hide Reachable;
  }

  // ---------------------------------------------------------------- departures

  /** Releasing a live lease takes exactly that one away; releasing any other does nothing. */
  lemma ReleaseAnswers(s: State, lease: nat)
    requires Reachable(s) && Enabled(s, Release(lease))
    ensures var t := Apply(s, Release(lease));
            && t.leases == s.leases - {lease} && t.pending == s.pending && t.legacy == s.legacy
                 && t.waiting == s.waiting
            && Owners(t) == Owners(s) - (if lease in s.leases then 1 else 0)
            && (lease !in s.leases ==> t == s)
  {
    ReachableInv(s);
    assert lease in s.releasedLeases ==> lease !in s.leases;
    assert lease !in s.releasedLeases ==> lease in s.leases;
    if lease in s.leases { assert |s.leases - {lease}| == |s.leases| - 1; }
    else { assert s.leases - {lease} == s.leases; }
    hide Inv, Reachable;
  }

  /** Stopping the service of the current attempt takes the legacy owner away, and so does stop itself;
      every other owner stays. */
  lemma LegacyStopAnswers(s: State, e: Event)
    requires Reachable(s) && Enabled(s, e) && (e.Stop? || e.StopService?)
    ensures var t, departs := Apply(s, e), if e.Stop? then s.legacy && !s.terminal else s.attempt == Some(e.attempt);
            && t.leases == s.leases && t.pending == s.pending && t.waiting == s.waiting
            && (departs ==> !t.legacy && t.attempt.None? && Owners(t) == Owners(s) - 1)
            && (!departs ==> t == s.(releasedAttempts := t.releasedAttempts))
  {
    ReachableInv(s);
    assert s.legacy <==> s.attempt.Some?;
    assert s.attempt.Some? ==> s.attempt.value !in s.releasedAttempts;
    hide Inv, Reachable;
  }

  // ---------------------------------------------------------------- every run

  /** How many acquisitions have been given a valid service. */
  function Served(s: State, run: seq<Event>): nat
    requires Feasible(s, run)
    decreases |run|
  {
    if run == [] then 0
    else
      var e := run[0];
      (if e.Resolved? && e.valid && s.waiting[e.call].OfAcquire? then 1 else 0) + Served(Apply(s, e), run[1..])
  }

  lemma IssuedStep(s: State, e: Event)
    requires Reachable(s) && Enabled(s, e)
    ensures Apply(s, e).nextLease ==
              s.nextLease + (if e.Resolved? && e.valid && s.waiting[e.call].OfAcquire? then 1 else 0)
    ensures forall l: nat :: l in Apply(s, e).releasedLeases <==> l in s.releasedLeases || e == Release(l)
  {
    if e.Resolved? || e.Rejected? {
      if s.waiting[e.call].OfAcquire? { AcquisitionAnswers(s, e); } else { LegacyAnswers(s, e); }
    }
    NamesAfter(s, e);
    hide Reachable, Apply, Owners;
  }

  lemma NamesAfter(s: State, e: Event)
    requires Enabled(s, e)
    ensures (e.Resolved? || e.Rejected? ==> s.waiting[e.call].OfStart?) ==> Apply(s, e).nextLease == s.nextLease
    ensures forall l: nat :: l in Apply(s, e).releasedLeases <==> l in s.releasedLeases || e == Release(l)
  {
    if e.Acquire? || e.Start? { CallNames(s, e); }
    else if e.Resolved? || e.Rejected? { SettlementNames(s, e); }
    else { OtherNames(s, e); }
    hide Apply, Enabled;
  }

  lemma CallNames(s: State, e: Event)
    requires e.Acquire? || e.Start?
    ensures Apply(s, e).nextLease == s.nextLease && Apply(s, e).releasedLeases == s.releasedLeases
  {
    var t := EnsureResolver(s);
    BackendNames(t, ForStart);
    BackendNames(t.(pending := t.pending + 1), ForAcquire);
    hide BeginBackend, Owners;
  }

  lemma BackendNames(s: State, caller: Caller)
    ensures BeginBackend(s, caller).nextLease == s.nextLease
    ensures BeginBackend(s, caller).releasedLeases == s.releasedLeases
  {
  }

  lemma SettlementNames(s: State, e: Event)
    requires Enabled(s, e) && (e.Resolved? || e.Rejected?)
    ensures s.waiting[e.call].OfStart? ==> Apply(s, e).nextLease == s.nextLease
    ensures Apply(s, e).releasedLeases == s.releasedLeases
  {
    hide Owners;
  }

  lemma OtherNames(s: State, e: Event)
    requires Enabled(s, e) && !e.Acquire? && !e.Start? && !e.Resolved? && !e.Rejected?
    ensures Apply(s, e).nextLease == s.nextLease
    ensures forall l: nat :: l in Apply(s, e).releasedLeases <==> l in s.releasedLeases || e == Release(l)
  {
    match e
    case Release(lease) => StopNames(s.(releasedLeases := s.releasedLeases + {lease}, leases := s.leases - {lease}));
    case Stop => if s.attempt.Some? { LegacyNames(s, s.attempt.value); }
    case StopService(a) => LegacyNames(s, a);
    case StartReturned(operation) => LegacyOwnerNames(s, operation);
    case _ =>
  }

  lemma StopNames(s: State)
    ensures BeginStop(s).nextLease == s.nextLease && BeginStop(s).releasedLeases == s.releasedLeases
  {
    hide Owners;
  }

  lemma LegacyNames(s: State, a: nat)
    ensures ReleaseLegacy(s, a).nextLease == s.nextLease && ReleaseLegacy(s, a).releasedLeases == s.releasedLeases
  {
    hide Owners;
  }

  lemma LegacyOwnerNames(s: State, operation: nat)
    requires Enabled(s, StartReturned(operation))
    ensures OnStartReturned(s, operation).nextLease == s.nextLease
    ensures OnStartReturned(s, operation).releasedLeases == s.releasedLeases
  {
  }

  lemma {:induction false} LeasesFrom(s: State, run: seq<Event>, l: nat)
    requires Reachable(s) && Feasible(s, run)
    ensures Exec(s, run).nextLease == s.nextLease + Served(s, run)
    ensures l in Exec(s, run).releasedLeases <==> l in s.releasedLeases || Release(l) in run
    decreases |run|
  {
    if run != [] {
      IssuedStep(s, run[0]);
      ReachableRun(s, [run[0]]);
      assert Exec(s, [run[0]]) == Apply(s, run[0]);
      hide Reachable, Apply, Enabled;
      LeasesFrom(Apply(s, run[0]), run[1..], l);
      assert Release(l) in run <==> run[0] == Release(l) || Release(l) in run[1..];
    }
  }

  /** After any run the live leases are exactly those given to the acquisitions that got a valid
      service, one each, and not released since. */
  lemma LiveLeasesExactly(run: seq<Event>, l: nat)
    requires Feasible(Initial, run)
    ensures l in Exec(Initial, run).leases <==> l < Served(Initial, run) && Release(l) !in run
  {
    assert Reachable(Initial) by { assert Feasible(Initial, []) && Exec(Initial, []) == Initial; }
    LeasesFrom(Initial, run, l);
    ReachableRun(Initial, run);
    ReachableInv(Exec(Initial, run));
    hide Reachable, Apply, Enabled, StackOk, PendingOk, StopOk, OwnersOk;
  }
}
