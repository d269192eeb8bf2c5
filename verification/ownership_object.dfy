/** createOwnership's closure as an object: its variables are fields, and its functions and
    promise callbacks are methods. `Handle` runs one of them to its end: it keeps the ownership
    invariant and never enters stopBackend while an owner is left. */
module OwnershipObject {
  import opened Optional
  import opened Ownership
  import opened OwnershipProofs
  import opened OwnershipTheorems

  /** stopBackend is entered only when no owner is left and no other stop is under way, and a
      live lease has a recorded backend that is not stopping. */
  predicate Promised(s: State, t: State) {
    && (InStopFrame(t) && !InStopFrame(s) ==> Owners(t) == 0 && !s.stopping && !t.stopInFlight)
    && (t.leases != {} ==> t.started.Some? && !t.stopping)
  }

  lemma Keeps(s: State, e: Event)
    requires Inv(s) && Enabled(s, e)
    ensures Inv(Apply(s, e)) && Promised(s, Apply(s, e))
  {
    InvKept(s, e);
    if !e.StopReturned? { EventEnters(s, e); }
    assert StopOk(Apply(s, e)) && OwnersOk(Apply(s, e));
    hide Apply, Inv, Owners, StackOk, PendingOk, NamesOk, LeasesOk;
  }

  /** Every acquisition that gets a valid service gets a lease of its own, and stays one owner. */
  lemma Grants(s: State, call: nat)
    requires Inv(s) && Enabled(s, Resolved(call, true)) && s.waiting[call].OfAcquire?
    ensures var t := Apply(s, Resolved(call, true));
            t.leases == s.leases + {s.nextLease} && s.nextLease !in s.leases && Owners(t) == Owners(s)
  {
    AcquisitionSettled(s, call);
    assert s.nextLease !in s.leases;
    assert |s.leases + {s.nextLease}| == |s.leases| + 1;
  }

  class Owner {
    var resolver: Option<nat>
    var started: Option<nat>
    var legacy: bool
    var attempt: Option<nat>
    var leases: set<nat>
    var pending: nat
    var stopping: bool
    var terminal: bool
    var entering: bool
    var frames: seq<Frame>
    var waiting: map<nat, Continuation>
    var stopInFlight: bool
    var nextResolver: nat
    var nextCall: nat
    var nextAttempt: nat
    var nextLease: nat
    var releasedLeases: set<nat>
    var releasedAttempts: set<nat>

    function View(): State
      reads this
    {
      State(resolver, started, legacy, attempt, leases, pending, stopping, terminal, entering, frames, waiting,
            stopInFlight, nextResolver, nextCall, nextAttempt, nextLease, releasedLeases, releasedAttempts)
    }

    /** What holds between any two callbacks. */
    ghost predicate Valid()
      reads this
    {
      Inv(View())
    }

    constructor ()
      ensures Valid() && View() == Initial
    {
      resolver, started, legacy, attempt, leases, pending := None, None, false, None, {}, 0;
      stopping, terminal, entering, frames, waiting, stopInFlight := false, false, false, [], map[], false;
      nextResolver, nextCall, nextAttempt, nextLease := 0, 0, 0, 0;
      releasedLeases, releasedAttempts := {}, {};
    }

    method CountOwners() returns (n: nat)
      ensures n == Owners(View())
    {
      n := |leases| + pending;
      if legacy { n := n + 1; }
    }

    /** normalize, up to the options' own validity. */
    method TakeSnapshot()
      modifies this`resolver, this`nextResolver
      ensures View() == EnsureResolver(old(View()))
    {
      if resolver.None? {
        resolver := Some(nextResolver);
        nextResolver := nextResolver + 1;
      }
    }

    method ClearGeneration()
      modifies this`resolver, this`started
      ensures View() == ClearFailedGeneration(old(View()))
    {
      var n := CountOwners();
      if n != 0 || stopping { return; }
      resolver := None;
      started := None;
    }

    method EnterStop()
      modifies this`stopping, this`frames
      ensures View() == BeginStop(old(View()))
    {
      if terminal || stopping { return; }
      var n := CountOwners();
      if n != 0 || started.None? { return; }
      stopping := true;
      frames := frames + [Stopping];
    }

    method FailRequest(operation: Option<nat>)
      modifies this
      ensures View() == FinishFailedRequest(old(View()), operation)
    {
      var n := CountOwners();
      if n != 0 { return; }
      if operation.Some? && started == operation {
        ClearGeneration();
        return;
      }
      EnterStop();
    }

    method FailProjection()
      modifies this
      ensures View() == FinishProjectionFailure(old(View()))
    {
      var n := CountOwners();
      if n != 0 { return; }
      EnterStop();
    }

    method BecomeLegacy(call: nat, operation: Option<nat>)
      modifies this
      ensures View() == AfterStart(old(View()), call, operation)
    {
      if legacy { return; }
      legacy := true;
      attempt := Some(nextAttempt);
      waiting := waiting[call := OfStart(nextAttempt, operation)];
      nextAttempt := nextAttempt + 1;
    }

    /** beginBackend up to the call of startBackend; while one is entering, its rejection. */
    method EnterBackend(caller: Caller)
      modifies this
      ensures View() == BeginBackend(old(View()), caller)
    {
      if entering {
        var call := nextCall;
        nextCall := call + 1;
        if caller.ForAcquire? {
          waiting := waiting[call := OfAcquire(None)];
        } else {
          BecomeLegacy(call, None);
        }
        return;
      }
      entering := true;
      frames := frames + [Starting(caller)];
    }

    method CallAcquire(valid: bool)
      modifies this
      ensures View() == OnAcquire(old(View()), valid)
    {
      hide ClearFailedGeneration, BeginBackend;
      pending := pending + 1;
      if terminal {
        pending := pending - 1;
        ClearGeneration();
        return;
      }
      TakeSnapshot();
      if !valid {
        pending := pending - 1;
        ClearGeneration();
        return;
      }
      if stopping {
        pending := pending - 1;
        return;
      }
      EnterBackend(ForAcquire);
    }

    method CallStart(valid: bool)
      modifies this
      ensures View() == OnStart(old(View()), valid)
    {
      if terminal {
        ClearGeneration();
        return;
      }
      TakeSnapshot();
      if !valid {
        ClearGeneration();
        return;
      }
      if stopping { return; }
      EnterBackend(ForStart);
    }

    method CallRelease(lease: nat)
      requires lease < nextLease
      modifies this
      ensures View() == OnRelease(old(View()), lease)
    {
      hide BeginStop;
      if lease in releasedLeases { return; }
      releasedLeases := releasedLeases + {lease};
      leases := leases - {lease};
      EnterStop();
    }

    method ReleaseAttempt(a: nat)
      modifies this
      ensures View() == ReleaseLegacy(old(View()), a)
    {
      hide BeginStop;
      if a in releasedAttempts { return; }
      releasedAttempts := releasedAttempts + {a};
      if attempt != Some(a) || !legacy { return; }
      legacy := false;
      attempt := None;
      EnterStop();
    }

    method CallStop()
      modifies this
      ensures View() == OnStop(old(View()))
    {
      if terminal || !legacy || attempt.None? { return; }
      ReleaseAttempt(attempt.value);
    }

    /** startBackend has returned its operation. */
    method LeaveStart(operation: nat)
      requires frames != []
      modifies this`entering, this`frames, this`nextCall, this`started
      ensures View() == old(View()).(entering := false, frames := old(frames)[..|old(frames)| - 1],
                nextCall := old(nextCall) + 1,
                                     started := if old(started).Some? then old(started) else Some(operation))
    {
      entering := false;
      frames := frames[..|frames| - 1];
      started := if started.Some? then started else Some(operation);
      nextCall := nextCall + 1;
    }

    method ReturnFromStart(operation: nat)
      requires frames != [] && frames[|frames| - 1].Starting?
      modifies this
      ensures View() == OnStartReturned(old(View()), operation)
    {
      hide AfterStart;
      var call := nextCall;
      var caller := frames[|frames| - 1].caller;
      LeaveStart(operation);
      if caller.ForAcquire? {
        waiting := waiting[call := OfAcquire(Some(operation))];
      } else {
        BecomeLegacy(call, Some(operation));
      }
    }

    method ReturnFromStop()
      requires frames != []
      modifies this
      ensures View() == OnStopReturned(old(View()))
    {
      frames := frames[..|frames| - 1];
      stopInFlight := true;
    }

    method OnAcquisition(call: nat, resolved: bool, valid: bool)
      requires frames == [] && call in waiting && waiting[call].OfAcquire?
                && (resolved ==> waiting[call].operation.Some?)
      modifies this
      ensures View() == (if resolved then OnResolved(old(View()), call, valid) else OnRejected(old(View()), call))
    {
      hide FinishFailedRequest, FinishProjectionFailure;
      var operation := waiting[call].operation;
      waiting := waiting - {call};
      if pending > 0 { pending := pending - 1; }
      if !resolved {
        FailRequest(operation);
      } else if valid {
        leases := leases + {nextLease};
        nextLease := nextLease + 1;
      } else {
        FailProjection();
      }
    }

    method OnLegacyStart(call: nat, resolved: bool, valid: bool)
      requires frames == [] && call in waiting && waiting[call].OfStart? && (resolved ==> waiting[call].operation.Some?)
      modifies this
      ensures View() == (if resolved then OnResolved(old(View()), call, valid) else OnRejected(old(View()), call))
    {
      hide FinishFailedRequest, FinishProjectionFailure;
      var current, operation := attempt == Some(waiting[call].attempt), waiting[call].operation;
      waiting := waiting - {call};
      if resolved && valid { return; }
      if current {
        legacy := false;
        attempt := None;
      }
      if resolved { FailProjection(); } else if current { FailRequest(operation); }
    }

    method Settle(call: nat, resolved: bool, valid: bool)
      requires frames == [] && call in waiting && (resolved ==> waiting[call].operation.Some?)
      modifies this
      ensures View() == (if resolved then OnResolved(old(View()), call, valid) else OnRejected(old(View()), call))
    {
      hide OnResolved, OnRejected;
      if waiting[call].OfAcquire? {
        OnAcquisition(call, resolved, valid);
      } else {
        OnLegacyStart(call, resolved, valid);
      }
    }

    method OnStopSettled(ok: bool)
      requires frames == [] && stopInFlight
      modifies this
      ensures View() == Ownership.OnStopSettled(old(View()), ok)
    {
      stopInFlight := false;
      if ok {
        resolver, started, stopping := None, None, false;
      } else {
        terminal := true;
      }
    }

    /** One call of the ownership, one return of a backend operation or one settlement. */
    method Handle(e: Event)
      requires Valid() && Enabled(View(), e)
      modifies this
      ensures Valid() && View() == Apply(old(View()), e)
      ensures Promised(old(View()), View())
      ensures e.Resolved? && e.valid && old(View()).waiting[e.call].OfAcquire? ==>
                && View().leases == old(View()).leases + {old(View()).nextLease}
                && old(View()).nextLease !in old(View()).leases && Owners(View()) == Owners(old(View()))
    {
      Keeps(View(), e);
      if e.Resolved? && e.valid && View().waiting[e.call].OfAcquire? { Grants(View(), e.call); }
      hide Inv, Promised, OnAcquire, OnStart, OnStop, OnRelease, ReleaseLegacy, OnStartReturned, OnStopReturned,
        OnResolved, OnRejected;
      hide Ownership.OnStopSettled;
      match e {
        case Acquire(valid) => CallAcquire(valid);
        case Start(valid) => CallStart(valid);
        case Stop => CallStop();
        case Release(lease) => CallRelease(lease);
        case StopService(a) => ReleaseAttempt(a);
        case StartReturned(operation) => ReturnFromStart(operation);
        case StopReturned => ReturnFromStop();
        case Resolved(call, valid) => Settle(call, true, valid);
        case Rejected(call) => Settle(call, false, false);
        case StopSettled(ok) => OnStopSettled(ok);
      }
    }
  }
}
