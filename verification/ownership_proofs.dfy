/** What the ownership keeps under every order of calls, settlements and re-entrant calls. */
module OwnershipProofs {
  import opened Optional
  import opened Ownership

  predicate StackOk(s: State) {
    && (s.frames == [] || s.frames == [Stopping] || s.frames == [Starting(ForStart)]
         || s.frames == [Starting(ForAcquire)]
        || s.frames == [Starting(ForStart), Stopping])
    && (s.entering <==> s.frames != [] && s.frames[0].Starting?)
  }

  predicate InStopFrame(s: State) {
    s.frames != [] && s.frames[|s.frames| - 1].Stopping?
  }

  /** One stop at a time: entering, in flight, or failed for good. */
  predicate StopOk(s: State) {
    && (s.stopping <==> InStopFrame(s) || s.stopInFlight || s.terminal)
    && (InStopFrame(s) ==> !s.stopInFlight && !s.terminal)
    && (s.stopInFlight ==> !s.terminal)
    && (s.stopping ==> s.started.Some?)
  }

  function Acquiring(waiting: map<nat, Continuation>): set<nat> {
    set call | call in waiting && waiting[call].OfAcquire?
  }

  predicate PendingOk(s: State) {
    s.pending == |Acquiring(s.waiting)| + (if s.frames == [Starting(ForAcquire)] then 1 else 0)
  }

  predicate OwnersOk(s: State) {
    && (s.leases != {} ==> s.started.Some? && !s.stopping)
    && (s.pending > 0 ==> !s.stopping)
    && (forall call :: call in s.waiting && s.waiting[call].OfAcquire? && s.waiting[call].operation.Some? ==>
         s.started.Some?)
    && (s.legacy <==> s.attempt.Some?)
  }

  predicate NamesOk(s: State) {
    && (forall call :: call in s.waiting ==> call < s.nextCall)
    && (forall l :: l in s.leases ==> l < s.nextLease && l !in s.releasedLeases)
    && (forall l :: l in s.releasedLeases ==> l < s.nextLease)
    && (s.attempt.Some? ==> s.attempt.value < s.nextAttempt && s.attempt.value !in s.releasedAttempts)
    && (forall a :: a in s.releasedAttempts ==> a < s.nextAttempt)
  }

  /** A lease is live until its release was called. */
  ghost predicate LeasesOk(s: State) {
    forall l: nat :: l < s.nextLease && l !in s.releasedLeases ==> l in s.leases
  }

  /** What holds even in the middle of an event, before a departed owner is accounted for. */
  ghost predicate Almost(s: State) {
    StackOk(s) && StopOk(s) && PendingOk(s) && OwnersOk(s) && NamesOk(s) && LeasesOk(s)
  }

  ghost predicate Inv(s: State) {
    Almost(s) && (Owners(s) == 0 && !s.stopping ==> s.started.None?)
  }

  lemma InitialInv()
    ensures Inv(Initial)
  {
  }

  // ---------------------------------------------------------------- helpers

  lemma BeginStopKeeps(s: State)
    requires Almost(s)
    ensures Inv(BeginStop(s))
  {
  }

  lemma ClearKeeps(s: State)
    requires Almost(s) && s.frames != [Starting(ForAcquire)]
    requires forall call :: call in s.waiting && s.waiting[call].OfAcquire? ==> s.waiting[call].operation.None?
    ensures Inv(ClearFailedGeneration(s))
  {
  }

  lemma DropLegacyKeeps(s: State)
    requires Almost(s)
    ensures Almost(DropLegacy(s))
  {
  }

  lemma AcquiringDrop(waiting: map<nat, Continuation>, call: nat)
    requires call in waiting
    ensures Acquiring(waiting - {call}) == Acquiring(waiting) - {call}
    ensures |Acquiring(waiting - {call})| == |Acquiring(waiting)| - (if waiting[call].OfAcquire? then 1 else 0)
  {
    assert Acquiring(waiting - {call}) == Acquiring(waiting) - {call};
  }

  lemma AcquiringAdd(waiting: map<nat, Continuation>, call: nat, c: Continuation)
    requires call !in waiting
    ensures |Acquiring(waiting[call := c])| == |Acquiring(waiting)| + (if c.OfAcquire? then 1 else 0)
  {
    assert Acquiring(waiting[call := c]) == Acquiring(waiting) + (if c.OfAcquire? then {call} else {});
  }

  /** Every waiting acquisition is counted as an owner. */
  lemma NonePendingNoneWaiting(s: State)
    requires PendingOk(s) && s.pending == 0
    ensures s.frames != [Starting(ForAcquire)]
    ensures forall call :: call in s.waiting ==> !s.waiting[call].OfAcquire?
  {
    assert Acquiring(s.waiting) == {};
    forall call | call in s.waiting ensures !s.waiting[call].OfAcquire? {
      assert call !in Acquiring(s.waiting);
    }
  }

  lemma ClearRestores(s: State)
    requires Almost(s)
    ensures Inv(ClearFailedGeneration(s))
  {
    if Owners(s) == 0 {
      NonePendingNoneWaiting(s);
      ClearKeeps(s);
    }
  }

  lemma FailedRequestKeeps(s: State, operation: Option<nat>)
    requires Almost(s)
    ensures Inv(FinishFailedRequest(s, operation))
  {
    ClearRestores(s);
    BeginStopKeeps(s);
    hide Almost, ClearFailedGeneration, BeginStop;
  }

  lemma ProjectionFailureKeeps(s: State)
    requires Almost(s)
    ensures Inv(FinishProjectionFailure(s))
  {
    BeginStopKeeps(s);
    hide Almost, BeginStop;
  }

  lemma EnsureResolverKeeps(s: State)
    requires Inv(s)
    ensures Inv(EnsureResolver(s))
  {
  }

  lemma AfterStartKeeps(s: State, call: nat, operation: Option<nat>)
    requires Almost(s) && call < s.nextCall && call !in s.waiting
    requires s.frames == [] || operation.Some? || s.entering
    ensures Almost(AfterStart(s, call, operation)) && Owners(AfterStart(s, call, operation)) > 0
  {
    AcquiringAdd(s.waiting, call, OfStart(s.nextAttempt, operation));
    hide Acquiring;
  }

  // ---------------------------------------------------------------- events

  lemma ReleaseLegacyKeeps(s: State, a: nat)
    requires Inv(s) && a < s.nextAttempt
    ensures Inv(ReleaseLegacy(s, a))
  {
    if a !in s.releasedAttempts && s.attempt == Some(a) && s.legacy {
      var t := DropLegacy(s.(releasedAttempts := s.releasedAttempts + {a}));
      assert Almost(t);
      BeginStopKeeps(t);
    }
    hide BeginStop;
  }

  lemma ReleaseKeeps(s: State, lease: nat)
    requires Inv(s) && lease < s.nextLease
    ensures Inv(OnRelease(s, lease))
  {
    if lease !in s.releasedLeases {
      var t := s.(releasedLeases := s.releasedLeases + {lease}, leases := s.leases - {lease});
      assert Almost(t);
      BeginStopKeeps(t);
    }
    hide BeginStop;
  }

  lemma EnterKeeps(s: State)
    requires Inv(s) && !s.stopping && !s.entering
    ensures Inv(BeginBackend(s, ForStart)) && Inv(BeginBackend(s.(pending := s.pending + 1), ForAcquire))
  {
    assert s.frames == [];
    assert BeginBackend(s, ForStart) == s.(entering := true, frames := [Starting(ForStart)]);
    assert BeginBackend(s.(pending := s.pending + 1), ForAcquire)
        == s.(entering := true, frames := [Starting(ForAcquire)], pending := s.pending + 1);
    hide BeginBackend, Acquiring;
  }

  lemma CancelledKeeps(s: State)
    requires Inv(s) && !s.stopping && s.entering
    ensures Inv(BeginBackend(s, ForStart)) && Inv(BeginBackend(s.(pending := s.pending + 1), ForAcquire))
  {
    var call := s.nextCall;
    AcquiringAdd(s.waiting, call, OfAcquire(None));
    assert call !in s.waiting;
    assert Almost(s.(nextCall := call + 1));
    AfterStartKeeps(s.(nextCall := call + 1), call, None);
    hide Acquiring, AfterStart;
  }

  lemma CallKeeps(s: State, valid: bool)
    requires Inv(s)
    ensures Inv(OnAcquire(s, valid)) && Inv(OnStart(s, valid))
  {
    ClearRestores(s);
    var t := EnsureResolver(s);
    EnsureResolverKeeps(s);
    ClearRestores(t);
    hide Inv, ClearFailedGeneration, BeginBackend;
    if !t.stopping {
      if t.entering { CancelledKeeps(t); } else { EnterKeeps(t); }
    }
  }

  lemma StartReturnedKeeps(s: State, operation: nat)
    requires Inv(s) && Enabled(s, StartReturned(operation))
    ensures Inv(OnStartReturned(s, operation))
  {
    var call := s.nextCall;
    if s.frames == [Starting(ForStart)] {
      var t := s.(entering := false, frames := [], nextCall := call + 1,
                  started := if s.started.Some? then s.started else Some(operation));
      assert Almost(t);
      AfterStartKeeps(t, call, Some(operation));
    } else {
      AcquiringAdd(s.waiting, call, OfAcquire(Some(operation)));
    }
    hide Acquiring, AfterStart;
  }

  /** Removing a settled operation leaves the acquisition to be uncounted. */
  lemma AcquisitionSettled(s: State, call: nat)
    requires Almost(s) && s.frames == [] && call in s.waiting && s.waiting[call].OfAcquire?
    ensures s.pending > 0 && Almost(s.(waiting := s.waiting - {call}, pending := s.pending - 1))
  {
    AcquiringDrop(s.waiting, call);
    hide Acquiring;
  }

  lemma StartSettled(s: State, call: nat)
    requires Almost(s) && call in s.waiting && s.waiting[call].OfStart?
    ensures Almost(s.(waiting := s.waiting - {call}))
  {
    AcquiringDrop(s.waiting, call);
    hide Acquiring;
  }

  lemma LeaseKeeps(s: State, call: nat)
    requires Inv(s) && Enabled(s, Resolved(call, true)) && s.waiting[call].OfAcquire?
    ensures Inv(OnResolved(s, call, true))
  {
    AcquisitionSettled(s, call);
    hide PendingOk;
  }

  lemma ResolvedKeeps(s: State, call: nat, valid: bool)
    requires Inv(s) && Enabled(s, Resolved(call, valid)) && !(valid && s.waiting[call].OfAcquire?)
    ensures Inv(OnResolved(s, call, valid))
  {
    var t := s.(waiting := s.waiting - {call});
    if s.waiting[call].OfAcquire? {
      AcquisitionSettled(s, call);
      hide Almost, FinishProjectionFailure;
      ProjectionFailureKeeps(t.(pending := t.pending - 1));
    } else {
      StartSettled(s, call);
      DropLegacyKeeps(t);
      ProjectionFailureKeeps(t);
      ProjectionFailureKeeps(DropLegacy(t));
      hide Almost, FinishProjectionFailure, DropLegacy;
    }
  }

  lemma RejectedKeeps(s: State, call: nat)
    requires Inv(s) && Enabled(s, Rejected(call))
    ensures Inv(OnRejected(s, call))
  {
    var t := s.(waiting := s.waiting - {call});
    if s.waiting[call].OfAcquire? {
      AcquisitionSettled(s, call);
      hide Almost, FinishFailedRequest;
      FailedRequestKeeps(t.(pending := t.pending - 1), s.waiting[call].operation);
    } else {
      StartSettled(s, call);
      DropLegacyKeeps(t);
      FailedRequestKeeps(DropLegacy(t), s.waiting[call].operation);
      hide Almost, FinishFailedRequest, DropLegacy;
    }
  }

  lemma StopSettledKeeps(s: State, ok: bool)
    requires Inv(s) && Enabled(s, StopSettled(ok))
    ensures Inv(OnStopSettled(s, ok))
  {
    NonePendingNoneWaiting(s);
  }

  lemma InvKept(s: State, e: Event)
    requires Inv(s) && Enabled(s, e)
    ensures Inv(Apply(s, e))
  {
    match e
    case Acquire(valid) => CallKeeps(s, valid);
    case Start(valid) => CallKeeps(s, valid);
    case Stop => if s.attempt.Some? { ReleaseLegacyKeeps(s, s.attempt.value); }
    case Release(lease) => ReleaseKeeps(s, lease);
    case StopService(a) => ReleaseLegacyKeeps(s, a);
    case StartReturned(operation) => StartReturnedKeeps(s, operation);
    case StopReturned =>
    case Resolved(call, valid) =>
      if valid && s.waiting[call].OfAcquire? { LeaseKeeps(s, call); } else { ResolvedKeeps(s, call, valid); }
    case Rejected(call) => RejectedKeeps(s, call);
    case StopSettled(ok) => StopSettledKeeps(s, ok);
  }
}
