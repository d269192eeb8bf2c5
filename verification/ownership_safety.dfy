/** When an owner can rely on its snapshot and its backend: in every run but those in which an
    operation of the backend, while a start is being entered, calls back in one of two ways. */
module OwnershipSafety {
  import opened Optional
  import opened Ownership
  import opened OwnershipProofs
  import opened OwnershipTheorems

  /** An owner, or a start being entered, has its options snapshot and a backend that is not
      stopping. */
  predicate Safe(s: State) {
    Owners(s) > 0 || s.entering ==> s.resolver.Some? && !s.stopping
  }

  /** Past the entry of its start an owner has a recorded backend. */
  predicate Backed(s: State) {
    Owners(s) > 0 && !s.entering ==> s.started.Some?
  }

  /** The call takes an owner away. */
  predicate Departs(s: State, e: Event) {
    match e
    case Release(lease) => lease in s.leases
    case Stop => s.legacy && !s.terminal
    case StopService(a) => s.attempt == Some(a)
    case _ => false
  }

  /** From inside startBackend: a request that fails to validate while nobody owns the backend
      yet, or the departure of the last owner of a recorded one. */
  predicate Breach(s: State, e: Event) {
    s.entering
    && (((e.Acquire? || e.Start?) && !e.valid && Owners(s) == 0)
        || (Departs(s, e) && Owners(s) == 1 && s.started.Some?))
  }

  /** The snapshot is not replaced while an owner stays. */
  predicate Fixed(s: State, t: State) {
    Owners(s) > 0 && Owners(t) > 0 ==> t.resolver == s.resolver
  }

  /** What one step from a safe state does, in terms of whether it is a breach. */
  predicate Judged(s: State, t: State, breach: bool) {
    (Safe(t) <==> !breach) && (Backed(s) && !breach ==> Backed(t)) && Fixed(s, t)
  }

  // ---------------------------------------------------------------- every event

  lemma BackendSafe(s: State, caller: Caller)
    requires Safe(s) && s.resolver.Some? && !s.stopping && (caller.ForAcquire? ==> s.pending > 0)
    ensures Safe(BeginBackend(s, caller)) && BeginBackend(s, caller).entering
              && BeginBackend(s, caller).resolver == s.resolver
  {
  }

  lemma CallSafe(s: State, e: Event)
    requires Inv(s) && Safe(s) && (e.Acquire? || e.Start?)
    ensures Judged(s, Apply(s, e), Breach(s, e))
  {
    var t := EnsureResolver(s);
    if !t.stopping {
      BackendSafe(t, ForStart);
      BackendSafe(t.(pending := t.pending + 1), ForAcquire);
    }
    hide BeginBackend, Almost;
    assert s.terminal ==> s.stopping;
  }

  lemma LegacySafe(s: State, a: nat)
    requires Inv(s) && Safe(s) && a < s.nextAttempt
    ensures Judged(s, ReleaseLegacy(s, a), Breach(s, StopService(a)))
  {
    assert s.legacy <==> s.attempt.Some?;
    assert s.terminal ==> s.stopping;
    hide PendingOk, StackOk, LeasesOk;
  }

  lemma StopSafe(s: State)
    requires Inv(s) && Safe(s)
    ensures Judged(s, OnStop(s), Breach(s, Stop))
  {
    assert s.legacy <==> s.attempt.Some?;
    assert s.terminal ==> s.stopping;
    if s.attempt.Some? { LegacySafe(s, s.attempt.value); }
    hide Almost, ReleaseLegacy;
  }

  lemma ReleaseSafe(s: State, lease: nat)
    requires Inv(s) && Safe(s) && lease < s.nextLease
    ensures Judged(s, OnRelease(s, lease), Breach(s, Release(lease)))
  {
    assert s.terminal ==> s.stopping;
    hide PendingOk, StackOk;
  }

  lemma FailureSafe(s: State, operation: Option<nat>)
    requires Safe(s) && !s.entering
    ensures Judged(s, FinishFailedRequest(s, operation), false) && Judged(s, FinishProjectionFailure(s), false)
  {
  }

  lemma AcquisitionSafe(s: State, call: nat, valid: bool)
    requires Inv(s) && Safe(s) && s.frames == [] && call in s.waiting && s.waiting[call].OfAcquire?
    ensures Judged(s, OnResolved(s, call, valid), false) && Judged(s, OnRejected(s, call), false)
  {
    AcquisitionSettled(s, call);
    assert !s.entering && s.nextLease !in s.leases;
    hide Almost, FinishFailedRequest, FinishProjectionFailure;
    FailureSafe(s.(waiting := s.waiting - {call}, pending := s.pending - 1), s.waiting[call].operation);
  }

  lemma ServiceSafe(s: State, call: nat, valid: bool)
    requires Inv(s) && Safe(s) && s.frames == [] && call in s.waiting && s.waiting[call].OfStart?
    ensures Judged(s, OnResolved(s, call, valid), false) && Judged(s, OnRejected(s, call), false)
  {
    assert !s.entering;
    hide Almost, FinishFailedRequest, FinishProjectionFailure;
    var t := s.(waiting := s.waiting - {call});
    FailureSafe(t, s.waiting[call].operation);
    FailureSafe(DropLegacy(t), s.waiting[call].operation);
  }

  lemma ReturnSafe(s: State, operation: nat)
    requires Inv(s) && Safe(s) && Enabled(s, StartReturned(operation))
    ensures Judged(s, OnStartReturned(s, operation), false)
  {
  }

  lemma SettledSafe(s: State, e: Event)
    requires Inv(s) && Safe(s) && Enabled(s, e) && (e.StopReturned? || e.StopSettled?)
    ensures Judged(s, Apply(s, e), false)
  {
    hide PendingOk, NamesOk, LeasesOk;
  }

  lemma EventJudged(s: State, e: Event)
    requires Inv(s) && Safe(s) && Enabled(s, e)
    ensures Judged(s, Apply(s, e), Breach(s, e))
  {
    hide Inv, Judged, OnAcquire, OnStart, OnStop, OnRelease, ReleaseLegacy, OnStartReturned, OnStopReturned,
      OnResolved, OnRejected, OnStopSettled;
    if e.Acquire? || e.Start? { CallSafe(s, e); }
    else if e.Stop? { StopSafe(s); }
    else if e.StopService? { LegacySafe(s, e.attempt); }
    else if e.Release? { ReleaseSafe(s, e.lease); }
    else if e.StartReturned? { ReturnSafe(s, e.operation); }
    else if e.StopReturned? || e.StopSettled? { SettledSafe(s, e); }
    else if s.waiting[e.call].OfAcquire? { AcquisitionSafe(s, e.call, e.Resolved? && e.valid); }
    else { ServiceSafe(s, e.call, e.Resolved? && e.valid); }
  }

  // ---------------------------------------------------------------- every run

  /** Safety is lost by a breach and by nothing else. */
  lemma SafetyLostExactly(s: State, e: Event)
    requires Reachable(s) && Safe(s) && Enabled(s, e)
    ensures Safe(Apply(s, e)) <==> !Breach(s, e)
  {
    ReachableInv(s);
    hide Inv, Enabled, Apply, Breach, Safe, Reachable, Backed, Fixed;
    EventJudged(s, e);
  }

  predicate BreachFree(s: State, run: seq<Event>)
    requires Feasible(s, run)
    decreases |run|
  {
    run == [] || (!Breach(s, run[0]) && BreachFree(Apply(s, run[0]), run[1..]))
  }

  predicate AlwaysSafe(s: State, run: seq<Event>)
    requires Feasible(s, run)
    decreases |run|
  {
    Safe(s) && (run == [] || AlwaysSafe(Apply(s, run[0]), run[1..]))
  }

  lemma {:induction false} SafeFrom(s: State, run: seq<Event>)
    requires Inv(s) && Safe(s) && Backed(s) && Feasible(s, run)
    ensures AlwaysSafe(s, run) <==> BreachFree(s, run)
    ensures BreachFree(s, run) ==> Safe(Exec(s, run)) && Backed(Exec(s, run))
    decreases |run|
  {
    hide Inv, Apply, Enabled, Safe, Backed, Breach, Fixed;
    if run != [] {
      InvKept(s, run[0]);
      EventJudged(s, run[0]);
      if !Breach(s, run[0]) {
        SafeFrom(Apply(s, run[0]), run[1..]);
      } else {
        assert !Safe(Apply(s, run[0]));
      }
    }
  }

  /** The runs in which every owner and every start being entered keeps its snapshot and a
      backend that is not stopping are exactly the runs without a breach. */
  lemma OwnerMeansBackend(run: seq<Event>)
    requires Feasible(Initial, run)
    ensures AlwaysSafe(Initial, run) <==> BreachFree(Initial, run)
    ensures var s := Exec(Initial, run);
            BreachFree(Initial, run) && Owners(s) > 0 ==>
                s.resolver.Some? && !s.stopping && (!s.entering ==> s.started.Some?)
  {
    InitialInv();
    SafeFrom(Initial, run);
  }

  /** Public calls that find no backend operation on the stack. */
  predicate CalmRun(s: State, run: seq<Event>)
    requires Feasible(s, run)
    decreases |run|
  {
    run == [] || ((PublicCall(run[0]) ==> s.frames == []) && CalmRun(Apply(s, run[0]), run[1..]))
  }

  /** A backend that never calls back causes no breach. */
  lemma {:induction false} CalmRunsAreSafe(s: State, run: seq<Event>)
    requires Inv(s) && Feasible(s, run) && CalmRun(s, run)
    ensures BreachFree(s, run)
    decreases |run|
  {
    if run != [] {
      assert s.entering ==> s.frames != [];
      InvKept(s, run[0]);
      hide Inv, Apply, Enabled, Owners;
      CalmRunsAreSafe(Apply(s, run[0]), run[1..]);
    }
  }

  predicate AlwaysOwned(s: State, run: seq<Event>)
    requires Feasible(s, run)
    decreases |run|
  {
    Owners(s) > 0 && (run == [] || AlwaysOwned(Apply(s, run[0]), run[1..]))
  }

  /** From a safe state the options snapshot stays the same for as long as any owner remains,
      re-entrant calls or not: a breach would need the moment without owners. */
  lemma SnapshotFixed(s: State, run: seq<Event>)
    requires Reachable(s) && Safe(s) && Feasible(s, run) && AlwaysOwned(s, run)
    ensures Exec(s, run).resolver == s.resolver && s.resolver.Some? && BreachFree(s, run)
  {
    ReachableInv(s);
    SnapshotFrom(s, run);
  }

  lemma LastDeparture(s: State, e: Event)
    requires Inv(s) && Enabled(s, e) && Departs(s, e) && Owners(s) == 1
    ensures Owners(Apply(s, e)) == 0
  {
    if e.Release? {
      assert |s.leases - {e.lease}| == |s.leases| - 1 && e.lease !in s.releasedLeases;
    } else {
      assert s.legacy && s.attempt.Some? && s.attempt.value !in s.releasedAttempts;
    }
    hide Almost;
  }

  lemma {:induction false} SnapshotFrom(s: State, run: seq<Event>)
    requires Inv(s) && Safe(s) && Feasible(s, run) && AlwaysOwned(s, run)
    ensures Exec(s, run).resolver == s.resolver && BreachFree(s, run)
    decreases |run|
  {
    hide Inv, Apply, Enabled, Safe, Owners, Departs;
    if run != [] {
      InvKept(s, run[0]);
      EventJudged(s, run[0]);
      assert AlwaysOwned(Apply(s, run[0]), run[1..]);
      if Departs(s, run[0]) && Owners(s) == 1 { LastDeparture(s, run[0]); }
      assert !Breach(s, run[0]);
      SnapshotFrom(Apply(s, run[0]), run[1..]);
    }
  }

  /** A breach shows: once startBackend has returned, its start owns a backend without a
      snapshot, or one that is stopping. */
  lemma BreachOrphansOwner(s: State, e: Event) returns (run: seq<Event>)
    requires Reachable(s) && Safe(s) && Enabled(s, e) && Breach(s, e)
    ensures Feasible(Apply(s, e), run) && forall i :: 0 <= i < |run| ==> run[i].StartReturned? || run[i].StopReturned?
    ensures var t := Exec(Apply(s, e), run); Owners(t) > 0 && (t.resolver.None? || t.stopping)
  {
    ReachableInv(s);
    var t := Apply(s, e);
    if e.Acquire? || e.Start? {
      LostSnapshot(s, e);
      run := [StartReturned(0)];
      assert run[1..] == [];
    } else {
      LostBackend(s, e);
      run := [StopReturned, StartReturned(0)];
      assert run[1..] == [StartReturned(0)];
      assert [StartReturned(0)][1..] == [];
    }
  }

  lemma LostSnapshot(s: State, e: Event)
    requires Inv(s) && Safe(s) && Enabled(s, e) && Breach(s, e) && (e.Acquire? || e.Start?)
    ensures var t := Apply(s, e);
              Enabled(t, StartReturned(0)) && Owners(Apply(t, StartReturned(0))) > 0
              && Apply(t, StartReturned(0)).resolver.None?
  {
  }

  lemma LostBackend(s: State, e: Event)
    requires Inv(s) && Safe(s) && Enabled(s, e) && Breach(s, e) && Departs(s, e)
    ensures var t := Apply(s, e);
            && Enabled(t, StopReturned) && Enabled(Apply(t, StopReturned), StartReturned(0))
            && Owners(Apply(Apply(t, StopReturned), StartReturned(0))) > 0
                 && Apply(Apply(t, StopReturned), StartReturned(0)).stopping
  {
  }

  // ---------------------------------------------------------------- a run for each breach

  /** A start that fails to validate inside startBackend clears the snapshot the outer start
      will own. */
  lemma ReentrantStartLosesSnapshot()
    ensures var run := [Start(true), Start(false), StartReturned(0)];
      Feasible(Initial, run) && Owners(Exec(Initial, run)) == 1 && Exec(Initial, run).resolver.None?
  {
    var s1 := Initial.(entering := true, frames := [Starting(ForStart)], resolver := Some(0), nextResolver := 1);
    assert [] + [Starting(ForStart)] == [Starting(ForStart)];
    assert Apply(Initial, Start(true)) == s1;
    var s2 := s1.(resolver := None);
    assert Apply(s1, Start(false)) == s2;
    var s3 := Apply(s2, StartReturned(0));
    assert [Start(true), Start(false), StartReturned(0)][1..] == [Start(false), StartReturned(0)];
    assert [Start(false), StartReturned(0)][1..] == [StartReturned(0)];
    assert [StartReturned(0)][1..] == [];
    assert Exec(s2, [StartReturned(0)]) == s3;
    assert Exec(s1, [Start(false), StartReturned(0)]) == s3;
  }

  const Leased := Initial.(resolver := Some(0), nextResolver := 1, started := Some(0), nextCall := 1, leases := {0},
      nextLease := 1)

  lemma OneLease()
    ensures Feasible(Initial, [Acquire(true), StartReturned(0), Resolved(0, true)])
    ensures Exec(Initial, [Acquire(true), StartReturned(0), Resolved(0, true)]) == Leased
  {
    var s1 := Initial.(resolver := Some(0), nextResolver := 1, pending := 1, entering := true,
        frames := [Starting(ForAcquire)]);
    assert [] + [Starting(ForAcquire)] == [Starting(ForAcquire)];
    assert Apply(Initial, Acquire(true)) == s1;
    var s2 := s1.(entering := false, frames := [], nextCall := 1, started := Some(0),
        waiting := map[0 := OfAcquire(Some(0))]);
    assert s1.frames[..0] == [];
    assert Apply(s1, StartReturned(0)) == s2;
    assert map[0 := OfAcquire(Some(0))] - {0} == map[];
    assert Apply(s2, Resolved(0, true)) == Leased;
    assert [Acquire(true), StartReturned(0), Resolved(0, true)][1..] == [StartReturned(0), Resolved(0, true)];
    assert [StartReturned(0), Resolved(0, true)][1..] == [Resolved(0, true)];
    assert [Resolved(0, true)][1..] == [];
    assert Exec(s2, [Resolved(0, true)]) == Leased;
    assert Exec(s1, [StartReturned(0), Resolved(0, true)]) == Leased;
  }

  lemma OrphanedInside(s: State)
    requires s.frames == [Starting(ForStart)] && s.leases == {0} && s.pending == 0 && !s.legacy && s.started.Some?
    requires !s.terminal && !s.stopping && s.nextLease > 0 && 0 !in s.releasedLeases
    ensures var run := [Release(0), StopReturned, StartReturned(0)];
      Feasible(s, run) && Exec(s, run).legacy && Exec(s, run).stopping
  {
    var s1 := Apply(s, Release(0));
    assert s1.frames == [Starting(ForStart), Stopping];
    var s2 := Apply(s1, StopReturned);
    assert s2.frames == [Starting(ForStart)];
    var s3 := Apply(s2, StartReturned(0));
    assert [Release(0), StopReturned, StartReturned(0)][1..] == [StopReturned, StartReturned(0)];
    assert [StopReturned, StartReturned(0)][1..] == [StartReturned(0)];
    assert [StartReturned(0)][1..] == [];
    assert Exec(s2, [StartReturned(0)]) == s3;
    assert Exec(s1, [StopReturned, StartReturned(0)]) == s3;
  }

  /** From one acquired lease, releasing it inside startBackend makes the start an owner of a
      backend that is already stopping. */
  lemma ReentrantReleaseOrphansStart()
    ensures var run := [Start(true), Release(0), StopReturned, StartReturned(0)];
      Feasible(Leased, run) && Exec(Leased, run).legacy && Exec(Leased, run).stopping
    ensures Reachable(Leased)
  {
    OneLease();
    var entered := Leased.(entering := true, frames := [Starting(ForStart)]);
    assert [] + [Starting(ForStart)] == [Starting(ForStart)];
    assert Apply(Leased, Start(true)) == entered;
    assert Enabled(Leased, Start(true));
    OrphanedInside(entered);
    hide Apply, Enabled;
    assert [Start(true), Release(0), StopReturned, StartReturned(0)][1..]
        == [Release(0), StopReturned, StartReturned(0)];
  }
}
