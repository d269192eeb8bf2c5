/** What every run of the bridge guarantees, for any interleaving of its realms' JavaScript
    threads with the native thread. */
module BridgeTheorems {
  import opened Optional
  import opened Bridge
  import opened BridgeSafety

  /** A state of the bridge after some run from a freshly loaded library. */
  ghost predicate Reachable(s: World) {
    exists run: seq<Step> :: Feasible(Fresh, run) && s == Exec(Fresh, run)
  }

  lemma {:induction false} RunInv(s: World, run: seq<Step>)
    requires Inv(s) && Feasible(s, run)
    ensures Inv(Exec(s, run))
    decreases |run|
  {
    hide Inv, Apply, Enabled;
    if run != [] {
      InvKept(s, run[0]);
      RunInv(Apply(s, run[0]), run[1..]);
    }
  }

  lemma ReachableInv(s: World)
    requires Reachable(s)
    ensures Inv(s)
  {
    var run: seq<Step> :| Feasible(Fresh, run) && s == Exec(Fresh, run);
    RunInv(Fresh, run);
  }

  // ---------------------------------------------------------------- requests

  /** A request's count is its outstanding callback plus its outstanding finalizer, and it is
      freed once, when both are gone. */
  lemma ReferencesAreOutstandingWork(s: World, q: nat)
    requires Reachable(s) && q in s.requests
    ensures var req := s.requests[q];
      && req.references == (if req.native.Last? || req.native.Dropped? then 0 else 1)
           + (if req.finalizer.Pending? then 1 else 0)
      && req.frees == (if req.native.Dropped? && req.finalizer.Finalized? then 1 else 0)
  {
    ReachableInv(s);
    RequestFacts(s, q);
  }

  /** A realm's pending count is the number of its requests that have not been freed. */
  lemma PendingCountsLiveRequests(s: World, r: nat)
    requires Reachable(s) && r in s.realms
    ensures s.realms[r].pending == |set q | q in s.requests && s.requests[q].realm == r && s.requests[q].frees == 0|
  {
    ReachableInv(s);
    RealmFacts(s, r);
    assert Live(s.requests, r) == set q | q in s.requests && s.requests[q].realm == r && s.requests[q].frees == 0;
  }

  /** The thread-safe function is released at most once, and by exactly one side: by the
      native completion of a request that was not aborted, or by its abort. */
  lemma ReleasedOnce(s: World, q: nat)
    requires Reachable(s) && q in s.requests
    ensures s.requests[q].releases <= 1
    ensures s.requests[q].releases == 1 <==> s.requests[q].completed || s.requests[q].aborted
    ensures s.requests[q].releases == 1 <==> !s.requests[q].tsfn.Open?
    ensures s.requests[q].frees == 1 ==> s.requests[q].releases == 1
  {
    ReachableInv(s);
    RequestFacts(s, q);
  }

  /** No step reads or writes a request or a realm that has been freed. */
  lemma NoUseAfterFree(s: World, e: Step)
    requires Reachable(s) && Enabled(s, e) && !e.Export?
    ensures RealmOf(s, e) in s.realms && !s.realms[RealmOf(s, e)].freed
    ensures RequestOf(s, e).Some? && !e.Create? ==>
              RequestOf(s, e).value in s.requests && s.requests[RequestOf(s, e).value].frees == 0
  {
    ReachableInv(s);
    StepHasRealm(s, e);
    if RequestOf(s, e).Some? && !e.Create? {
      TouchedRequest(s, e);
      LiveKeepsRealm(s, RequestOf(s, e).value);
    }
    hide Inv;
    RealmFacts(s, RealmOf(s, e));
  }

  /** A later start of the realm was installed over this one while its callback was owed: the
      callback will not find it, and its reference is never dropped. */
  predicate Lost(s: World, q: nat) {
    q in s.requests && (s.requests[q].native.Leaked?
      || (s.requests[q].native.Outstanding? && s.requests[q].kind.Start?
           && RealmAt(s, s.requests[q].realm).start != Some(q)))
  }

  /** The native callback finds its request active and not completed exactly when the request is not
      lost; a stop never is. */
  lemma NoDuplicateResult(s: World, q: nat, failed: bool)
    requires Reachable(s) && Enabled(s, NativeResult(q, failed))
    ensures Active(s, q) <==> !Lost(s, q)
    ensures !s.requests[q].completed && (s.requests[q].kind.Stop? ==> Active(s, q))
  {
    ReachableInv(s);
    CallbackFindsRequest(s, q);
    hide Inv, Active;
  }

  lemma RequestGrows(s: World, e: Step, q: nat)
    requires Inv(s) && Enabled(s, e) && q in s.requests
    ensures q in Apply(s, e).requests
    ensures s.requests[q].aborted ==>
              Apply(s, e).requests[q].aborted && Apply(s, e).requests[q].settled == s.requests[q].settled
    ensures s.requests[q].settled <= Apply(s, e).requests[q].settled
  {
    RequestFacts(s, q);
    if RequestOf(s, e) != Some(q) { RequestsElsewhere(s, e, q); }
    else if e.Create? { NewIsUnused(s, e); }
    hide Inv, NextRealms, Active;
  }

  /** Once aborted, a request's promise is never settled again, whatever happens next. */
  lemma {:induction false} AbortedNeverSettles(s: World, run: seq<Step>, q: nat)
    requires Reachable(s) && Feasible(s, run) && q in s.requests && s.requests[q].aborted
    ensures q in Exec(s, run).requests && Exec(s, run).requests[q].settled == s.requests[q].settled
  {
    ReachableInv(s);
    AbortedFrom(s, run, q);
  }

  lemma {:induction false} AbortedFrom(s: World, run: seq<Step>, q: nat)
    requires Inv(s) && Feasible(s, run) && q in s.requests && s.requests[q].aborted
    ensures q in Exec(s, run).requests && Exec(s, run).requests[q].settled == s.requests[q].settled
    decreases |run|
  {
    hide Inv, Apply, Enabled;
    if run != [] {
      InvKept(s, run[0]);
      RequestGrows(s, run[0], q);
      AbortedFrom(Apply(s, run[0]), run[1..], q);
    }
  }

  /** Every promise settles at most once, and only with the result its callback brought. */
  lemma SettledOnce(s: World, q: nat)
    requires Reachable(s) && q in s.requests
    ensures s.requests[q].settled <= 1
    ensures s.requests[q].settled == 1 ==> s.requests[q].completed && s.requests[q].tsfn.ByNative?
  {
    ReachableInv(s);
    RequestFacts(s, q);
  }

  // ---------------------------------------------------------------- lost requests

  /** The step installs a start over one whose native callback is still owed. */
  predicate Overwrites(s: World, e: Step, q: nat) {
    && e.Install? && e.r in s.realms && s.realms[e.r].js.Created? && s.realms[e.r].js.kind.Start?
    && q in s.requests && s.requests[q].realm == e.r && s.realms[e.r].start == Some(q)
    && s.requests[q].kind.Start? && s.requests[q].native.Outstanding?
  }

  lemma StartByCall(s: World, e: Step, realm: Realm)
    requires Enabled(s, e) && CallStep(e) && !e.Export? && !e.Install? && !e.Uninstall?
    ensures NextRealm(s, e, realm).start == realm.start
  {
    if e.Check? || e.Create? { StartByNewCall(s, e, realm); } else { StartByAnswer(s, e, realm); }
    hide Enabled, NextRealm;
  }

  lemma StartByNewCall(s: World, e: Step, realm: Realm)
    requires Enabled(s, e) && (e.Check? || e.Create?)
    ensures NextRealm(s, e, realm).start == realm.start
  {
    hide Enabled, RequestAt, RealmAt;
  }

  lemma StartByAnswer(s: World, e: Step, realm: Realm)
    requires Enabled(s, e) && (e.CallNative? || e.DropUnaccepted?)
    ensures NextRealm(s, e, realm).start == realm.start
  {
    hide Enabled, RequestAt, RealmAt;
  }

  lemma ScalarsByAbort(s: World, e: Step, realm: Realm)
    requires Enabled(s, e) && (e.AbortStart? || e.AbortStop?)
    ensures NextRealm(s, e, realm).finishes == realm.finishes && NextRealm(s, e, realm).start == realm.start
  {
    hide Enabled, Active, RequestAt, RealmAt;
  }

  lemma ScalarsByStopping(s: World, e: Step, realm: Realm)
    requires Enabled(s, e) && (e.StopForTeardown? || e.GiveUpStop? || e.TeardownStopped?)
    ensures NextRealm(s, e, realm).finishes == realm.finishes && NextRealm(s, e, realm).start == realm.start
  {
    hide Enabled, Active, RequestAt, RealmAt;
  }

  lemma StartByTeardown(s: World, e: Step, realm: Realm)
    requires Enabled(s, e) && TeardownStep(e)
    ensures NextRealm(s, e, realm).start == realm.start
  {
    if e.Teardown? { StartAtTeardown(s, e, realm); }
    else if e.AbortStart? || e.AbortStop? { ScalarsByAbort(s, e, realm); }
    else { ScalarsByStopping(s, e, realm); }
    hide Enabled, NextRealm;
  }

  lemma StartAtTeardown(s: World, e: Step, realm: Realm)
    requires Enabled(s, e) && e.Teardown?
    ensures NextRealm(s, e, realm).start == realm.start
  {
    hide RequestAt, RealmAt;
  }

  lemma StartByFinish(s: World, e: Step, realm: Realm)
    requires Enabled(s, e) && (e.Finalize? || e.FinishIfReady? || e.FinishCall? || e.FreeRealm?)
    ensures NextRealm(s, e, realm).start == realm.start
  {
    hide RequestAt, RealmAt;
  }

  lemma StartByNative(s: World, e: Step, realm: Realm)
    requires Enabled(s, e) && (e.NativeResult? || e.NativeRelease?)
    ensures NextRealm(s, e, realm).start == realm.start
  {
    hide Active;
  }

  /** The pointer is cleared for a request that is not owed a callback, or overwritten. */
  lemma StartCleared(s: World, e: Step, q: nat)
    requires Inv(s) && Enabled(s, e) && (e.Uninstall? || e.Deliver? || e.FreeOnJs? || e.NativeFree?)
    requires q in s.requests && s.requests[q].native.Outstanding? && RealmOf(s, e) in s.realms
    requires s.realms[RealmOf(s, e)].start == Some(q)
    ensures NextRealm(s, e, s.realms[RealmOf(s, e)]).start == Some(q)
  {
    if e.Uninstall? {
      ClearedByUninstall(s, e, q);
    } else {
      TouchedRequest(s, e);
      RequestFacts(s, RequestOf(s, e).value);
      if e.FreeOnJs? { FreeingIsKnown(s, e.r); }
      ClearedByEnd(s, e, q);
    }
    hide Inv, NextRealm;
  }

  lemma FreeingIsKnown(s: World, r: nat)
    requires Inv(s) && r in s.realms && s.realms[r].js.Freeing?
    ensures s.realms[r].js.request in s.requests && s.requests[s.realms[r].js.request].finalizer.Freeing?
  {
    RealmFacts(s, r);
    hide Inv, TeardownMoves, PointersOk, Live;
  }

  lemma ClearedByUninstall(s: World, e: Step, q: nat)
    requires Inv(s) && Enabled(s, e) && e.Uninstall? && q in s.requests && s.requests[q].native.Outstanding?
    requires s.realms[e.r].start == Some(q)
    ensures RealmOf(s, e) == e.r && NextRealm(s, e, s.realms[e.r]).start == Some(q)
  {
    RealmFacts(s, e.r);
    hide Inv, TeardownMoves, Live, HeldOk, TeardownPlan, PointersOk, RealmOk;
  }

  lemma ClearedByEnd(s: World, e: Step, q: nat)
    requires Enabled(s, e) && (e.Deliver? || e.FreeOnJs? || e.NativeFree?) && RequestOf(s, e).Some?
    requires RequestOf(s, e).value in s.requests && RequestOk(s.requests[RequestOf(s, e).value])
    requires e.FreeOnJs? ==> s.requests[RequestOf(s, e).value].finalizer.Freeing?
    requires q in s.requests && s.requests[q].native.Outstanding? && RealmOf(s, e) in s.realms
    requires s.realms[RealmOf(s, e)].start == Some(q)
    ensures NextRealm(s, e, s.realms[RealmOf(s, e)]).start == Some(q)
  {
  }

  lemma StartInstalled(s: World, e: Step, q: nat)
    requires Inv(s) && Enabled(s, e) && e.Install? && q in s.requests && s.requests[q].native.Outstanding?
    requires s.realms[e.r].start == Some(q)
    ensures NextRealm(s, e, s.realms[e.r]).start == Some(q) <==> s.realms[e.r].js.kind.Stop?
  {
    RealmFacts(s, e.r);
    hide Inv, TeardownMoves, Live, HeldOk, TeardownPlan, PointersOk, RealmOk;
  }

  /** An outstanding start stays installed unless another is installed over it. */
  lemma StartStays(s: World, e: Step, q: nat)
    requires Inv(s) && Enabled(s, e) && !e.Export? && q in s.requests && s.requests[q].native.Outstanding?
    requires RealmOf(s, e) in s.realms && s.realms[RealmOf(s, e)].start == Some(q)
    ensures NextRealm(s, e, s.realms[RealmOf(s, e)]).start == Some(q) <==> !(e.Install? && s.realms[e.r].js.kind.Start?)
  {
    hide Inv, NextRealm, RealmOf;
    var realm := s.realms[RealmOf(s, e)];
    if e.Uninstall? || e.Deliver? || e.FreeOnJs? || e.NativeFree? { StartCleared(s, e, q); }
    else if e.Install? { InstallsHere(s, e); StartInstalled(s, e, q); }
    else if CallStep(e) { StartByCall(s, e, realm); }
    else if TeardownStep(e) { StartByTeardown(s, e, realm); }
    else if NativeStep(e) { StartByNative(s, e, realm); }
    else { StartByFinish(s, e, realm); }
  }

  /** What a step does to a request that it does not complete. */
  lemma CallbackAfter(s: World, e: Step, q: nat)
    requires Inv(s) && Enabled(s, e) && q in s.requests
    ensures q in Apply(s, e).requests
    ensures var was, now := s.requests[q], Apply(s, e).requests[q];
      && now.realm == was.realm && now.kind == was.kind
      && (was.native.Leaked? ==> now.native.Leaked?)
      && (was.native.Outstanding? && !(e.NativeResult? && e.q == q) ==> now.native.Outstanding?)
      && (now.native.Outstanding? ==>
           was.native.Outstanding? || (e.CallNative? && RequestOf(s, e) == Some(q) && was.native.Unaccepted?))
      && (now.native.Leaked? ==> was.native.Leaked? || (e.NativeResult? && e.q == q && !Active(s, q)))
      && (e.NativeResult? && e.q == q ==> (now.native.Leaked? <==> !Active(s, q)) && !now.native.Outstanding?)
  {
    RequestFacts(s, q);
    if RequestOf(s, e) != Some(q) { RequestsElsewhere(s, e, q); ResultElsewhere(s, e, q); }
    else { CallbackOfTouched(s, e, q); }
    hide Inv, NextRealms, Active, NextRequests;
  }

  lemma ResultElsewhere(s: World, e: Step, q: nat)
    requires Enabled(s, e) && RequestOf(s, e) != Some(q)
    ensures !(e.NativeResult? && e.q == q)
  {
  }

  lemma CallbackOfTouched(s: World, e: Step, q: nat)
    requires Inv(s) && Enabled(s, e) && q in s.requests && RequestOf(s, e) == Some(q)
    ensures q in NextRequests(s, e)
    ensures var was, now := s.requests[q], NextRequests(s, e)[q];
      && now.realm == was.realm && now.kind == was.kind
      && (was.native.Leaked? ==> now.native.Leaked?)
      && (was.native.Outstanding? && !(e.NativeResult? && e.q == q) ==> now.native.Outstanding?)
      && (now.native.Outstanding? ==> was.native.Outstanding? || (e.CallNative? && was.native.Unaccepted?))
      && (now.native.Leaked? ==> was.native.Leaked? || (e.NativeResult? && e.q == q && !Active(s, q)))
      && (e.NativeResult? && e.q == q ==> (now.native.Leaked? <==> !Active(s, q)) && !now.native.Outstanding?)
  {
    RequestFacts(s, q);
    if e.Create? { NewIsUnused(s, e); }
    if e.CallNative? || e.DropUnaccepted? { RealmFacts(s, e.r); }
    hide Inv, Active, TeardownMoves, Live, HeldOk, TeardownPlan, PointersOk, RealmOk;
  }

  /** A call that is accepted finds its request installed. */
  lemma AcceptedIsInstalled(s: World, e: Step, q: nat)
    requires Inv(s) && Enabled(s, e) && e.CallNative? && RequestOf(s, e) == Some(q) && q in s.requests
    ensures s.requests[q].kind.Start? ==> Apply(s, e).realms[e.r].start == Some(q)
    ensures s.requests[q].realm == e.r
  {
    RealmFacts(s, e.r);
    hide Inv, TeardownMoves, Live, HeldOk, TeardownPlan, PointersOk, RealmOk, NextRequests;
  }

  /** A request becomes lost by one step exactly when that step installs a start over it. */
  lemma LostExactly(s: World, e: Step, q: nat)
    requires Reachable(s) && Enabled(s, e) && q in s.requests && !Lost(s, q)
    ensures Lost(Apply(s, e), q) <==> Overwrites(s, e, q)
  {
    ReachableInv(s);
    LostFrom(s, e, q);
  }

  lemma LostFrom(s: World, e: Step, q: nat)
    requires Inv(s) && Enabled(s, e) && q in s.requests && !Lost(s, q)
    ensures Lost(Apply(s, e), q) <==> Overwrites(s, e, q)
  {
    assert e.NativeResult? ==> s.requests[e.q].native.Outstanding?;
    hide Inv, Apply, Active, Enabled, RealmOf;
    CallbackAfter(s, e, q);
    RequestFacts(s, q);
    var r := s.requests[q].realm;
    PointerAfter(s, e, r);
    if s.requests[q].native.Outstanding? {
      CallbackFindsRequest(s, q);
      if s.realms[r].start == Some(q) && !e.Export? && RealmOf(s, e) == r { StartStays(s, e, q); }
      if e.Install? { InstallsHere(s, e); }
    } else if e.CallNative? && RequestOf(s, e) == Some(q) {
      AcceptedIsInstalled(s, e, q);
    }
    hide RequestOf;
  }

  lemma InstallsHere(s: World, e: Step)
    requires Enabled(s, e) && e.Install?
    ensures RealmOf(s, e) == e.r && e.r in s.realms && s.realms[e.r].js.Created?
  {
  }

  /** The record of a realm is changed by its own steps only. */
  lemma PointerAfter(s: World, e: Step, r: nat)
    requires Inv(s) && Enabled(s, e) && r in s.realms
    ensures r in Apply(s, e).realms
    ensures !e.Export? && RealmOf(s, e) == r ==> Apply(s, e).realms[r] == NextRealm(s, e, s.realms[r])
    ensures e.Export? || RealmOf(s, e) != r ==> Apply(s, e).realms[r] == s.realms[r]
  {
    if e.Export? || RealmOf(s, e) != r { FinishesElsewhere(s, e, r); }
    hide Inv, NextRealm, NextRequests, RealmOf;
  }

  /** A lost request stays lost. */
  lemma LostStays(s: World, e: Step, q: nat)
    requires Inv(s) && Enabled(s, e) && Lost(s, q)
    ensures Lost(Apply(s, e), q)
  {
    hide Inv, Apply, Active, Enabled, RealmOf;
    CallbackAfter(s, e, q);
    RequestFacts(s, q);
    var r := s.requests[q].realm;
    PointerAfter(s, e, r);
    if s.requests[q].native.Outstanding? {
      CallbackFindsRequest(s, q);
      if !e.Export? && RealmOf(s, e) == r { OtherPointer(s, e, q); }
    }
    hide RequestOf;
  }

  /** Only an unaccepted request is installed. */
  lemma OtherPointer(s: World, e: Step, q: nat)
    requires Inv(s) && Enabled(s, e) && !e.Export? && q in s.requests && s.requests[q].native.Outstanding?
    requires RealmOf(s, e) in s.realms && s.realms[RealmOf(s, e)].start != Some(q)
    ensures NextRealm(s, e, s.realms[RealmOf(s, e)]).start != Some(q)
  {
    var realm := s.realms[RealmOf(s, e)];
    hide Inv, NextRealm, RealmOf;
    if e.Install? { InstallsHere(s, e); NewPointer(s, e, q); }
    else if e.Uninstall? || e.Deliver? || e.FreeOnJs? || e.NativeFree? { PointerGoes(s, e, realm); }
    else if CallStep(e) { StartByCall(s, e, realm); }
    else if TeardownStep(e) { StartByTeardown(s, e, realm); }
    else if NativeStep(e) { StartByNative(s, e, realm); }
    else { StartByFinish(s, e, realm); }
  }

  lemma NewPointer(s: World, e: Step, q: nat)
    requires Inv(s) && Enabled(s, e) && e.Install? && q in s.requests && s.requests[q].native.Outstanding?
    requires s.realms[e.r].start != Some(q)
    ensures RealmOf(s, e) == e.r && NextRealm(s, e, s.realms[e.r]).start != Some(q)
  {
    RealmFacts(s, e.r);
    hide Inv, TeardownMoves, Live, HeldOk, TeardownPlan, PointersOk, RealmOk;
  }

  lemma PointerGoes(s: World, e: Step, realm: Realm)
    requires Enabled(s, e) && (e.Uninstall? || e.Deliver? || e.FreeOnJs? || e.NativeFree?)
    ensures NextRealm(s, e, realm).start == realm.start || NextRealm(s, e, realm).start.None?
  {
    hide Active, RealmAt;
  }

  lemma LostState(s: World, q: nat)
    requires Inv(s) && Lost(s, q)
    ensures s.requests[q].frees == 0 && s.requests[q].settled == 0
    ensures s.requests[q].realm in s.realms && s.realms[s.requests[q].realm].pending > 0
    ensures s.realms[s.requests[q].realm].finishes == 0
  {
    RequestFacts(s, q);
    LiveKeepsRealm(s, q);
    RealmFacts(s, s.requests[q].realm);
    hide Inv, PcOk, PointersOk, TeardownMoves, Live;
  }

  lemma {:induction false} LostRun(s: World, run: seq<Step>, q: nat)
    requires Inv(s) && Feasible(s, run) && Lost(s, q)
    ensures Inv(Exec(s, run)) && Lost(Exec(s, run), q)
    decreases |run|
  {
    if run != [] {
      InvKept(s, run[0]);
      LostStays(s, run[0], q);
      hide Inv, Apply, Enabled, Lost;
      LostRun(Apply(s, run[0]), run[1..], q);
    }
  }

  /** In every continuation a lost request is neither freed nor settled, and its realm keeps it
      pending and never finishes. */
  lemma LostForever(s: World, run: seq<Step>, q: nat)
    requires Reachable(s) && Feasible(s, run) && Lost(s, q)
    ensures var t := Exec(s, run);
            && Lost(t, q) && t.requests[q].frees == 0 && t.requests[q].settled == 0
            && t.requests[q].realm in t.realms && t.realms[t.requests[q].realm].pending > 0
            && t.realms[t.requests[q].realm].finishes == 0
  {
    ReachableInv(s);
    LostRun(s, run, q);
    LostState(Exec(s, run), q);
    hide Inv, Lost, Apply, Enabled, Reachable;
  }

  /** The run never installs a start over one whose callback is owed: its callers never start again
      before the result of an accepted start has come. */
  ghost predicate Patient(s: World, run: seq<Step>)
    requires Feasible(s, run)
    decreases |run|
  {
    run == [] || ((forall q :: q in s.requests ==> !Overwrites(s, run[0], q)) && Patient(Apply(s, run[0]), run[1..]))
  }

  lemma NewIsNotLost(s: World, e: Step, q: nat)
    requires Inv(s) && Enabled(s, e) && q !in s.requests
    ensures !Lost(Apply(s, e), q)
  {
    if q in NextRequests(s, e) { RequestKeys(s, e, q); }
    hide Inv, NextRealms;
  }

  lemma {:induction false} PatientFrom(s: World, run: seq<Step>, q: nat)
    requires Inv(s) && Feasible(s, run) && Patient(s, run) && !Lost(s, q)
    ensures !Lost(Exec(s, run), q)
    decreases |run|
  {
    if run != [] {
      InvKept(s, run[0]);
      if q in s.requests { LostFrom(s, run[0], q); } else { NewIsNotLost(s, run[0], q); }
      hide Inv, Apply, Enabled, Lost, Overwrites;
      PatientFrom(Apply(s, run[0]), run[1..], q);
    }
  }

  /** Patient callers never lose a request. */
  lemma PatientLosesNothing(run: seq<Step>, q: nat)
    requires Feasible(Fresh, run) && Patient(Fresh, run)
    ensures !Lost(Exec(Fresh, run), q)
  {
    PatientFrom(Fresh, run, q);
  }

  // ---------------------------------------------------------------- realms

  /** At most one realm has not finished its teardown, and it owns the library. */
  lemma OneOwner(s: World, r: nat, p: nat)
    requires Reachable(s) && r in s.realms && p in s.realms && s.realms[r].finishes == 0 && s.realms[p].finishes == 0
    ensures r == p && s.owner == Some(r)
  {
    ReachableInv(s);
    hide Inv;
    RealmFacts(s, r);
    RealmFacts(s, p);
  }

  lemma FinishesByRefusal(s: World, e: Step, realm: Realm)
    requires Enabled(s, e) && (e.CallNative? || e.Uninstall? || e.DropUnaccepted?)
    ensures NextRealm(s, e, realm).finishes == realm.finishes
  {
    hide Enabled, Active, RequestAt, RealmAt;
  }

  lemma FinishesByNewCall(s: World, e: Step, realm: Realm)
    requires Enabled(s, e) && (e.Check? || e.Create? || e.Install?)
    ensures NextRealm(s, e, realm).finishes == realm.finishes
  {
    hide Enabled, Active, RequestAt, RealmAt;
  }

  lemma FinishesByCall(s: World, e: Step, realm: Realm)
    requires Enabled(s, e) && !e.Export? && CallStep(e)
    ensures NextRealm(s, e, realm).finishes == realm.finishes
  {
    if e.Check? || e.Create? || e.Install? { FinishesByNewCall(s, e, realm); } else { FinishesByRefusal(s, e, realm); }
    hide Enabled, NextRealm;
  }

  lemma FinishesByTeardown(s: World, e: Step, realm: Realm)
    requires Enabled(s, e) && TeardownStep(e) && !e.Teardown?
    ensures NextRealm(s, e, realm).finishes == realm.finishes
  {
    hide Enabled, NextRealm;
    if e.AbortStart? || e.AbortStop? { ScalarsByAbort(s, e, realm); } else { ScalarsByStopping(s, e, realm); }
  }

  lemma HelpersFinishNothing(realm: Realm, q: nat, req: Request, native: bool)
    ensures Delivered(realm, q, req).finishes == realm.finishes && Release(realm, q, native).finishes == realm.finishes
  {
  }

  lemma FinishesByDelivery(s: World, e: Step, realm: Realm)
    requires Enabled(s, e) && DeliveryStep(e)
    ensures NextRealm(s, e, realm).finishes ==
      realm.finishes + (if e.FinishIfReady? && ReadyToFinish(realm) && realm.teardown then 1 else 0)
  {
    if e.Deliver? { HelpersFinishNothing(realm, e.q, s.requests[e.q], false); }
    if e.FreeOnJs? { HelpersFinishNothing(realm, s.realms[e.r].js.request, NoRequest, false); }
    hide Enabled, Active, Delivered, Release;
  }

  lemma FinishesByFree(s: World, e: Step, realm: Realm)
    requires Enabled(s, e) && (e.NativeFree? || e.Teardown?)
    ensures NextRealm(s, e, realm).finishes == realm.finishes
  {
    hide Enabled, Active;
  }

  lemma FinishesByNative(s: World, e: Step, realm: Realm)
    requires Enabled(s, e) && (NativeStep(e) || e.Teardown?)
    ensures NextRealm(s, e, realm).finishes == realm.finishes
  {
    if e.NativeFree? || e.Teardown? {
      FinishesByFree(s, e, realm);
      hide NextRealm;
    }
    hide Enabled, Active;
  }

  lemma FinishesAfter(s: World, e: Step, realm: Realm)
    requires Enabled(s, e) && !e.Export?
    ensures NextRealm(s, e, realm).finishes ==
      realm.finishes + (if e.FinishIfReady? && ReadyToFinish(realm) && realm.teardown then 1 else 0)
  {
    hide Enabled, NextRealm;
    if DeliveryStep(e) { FinishesByDelivery(s, e, realm); }
    else if NativeStep(e) || e.Teardown? { FinishesByNative(s, e, realm); }
    else if CallStep(e) { FinishesByCall(s, e, realm); }
    else { FinishesByTeardown(s, e, realm); }
  }

  lemma FinishesHere(s: World, e: Step)
    requires Inv(s) && Enabled(s, e) && !e.Export?
    ensures var r := RealmOf(s, e);
      && r in s.realms && r in Apply(s, e).realms
      && Apply(s, e).realms[r].finishes ==
           s.realms[r].finishes
           + (if e.FinishIfReady? && ReadyToFinish(s.realms[r]) && s.realms[r].teardown then 1 else 0)
  {
    StepHasRealm(s, e);
    FinishesAfter(s, e, s.realms[RealmOf(s, e)]);
    hide Inv, NextRequests, NextRealm, NextOwner, RealmOf;
  }

  lemma FinishesElsewhere(s: World, e: Step, r: nat)
    requires Enabled(s, e) && r in s.realms && (e.Export? || r != RealmOf(s, e))
    ensures r in Apply(s, e).realms && Apply(s, e).realms[r] == s.realms[r]
  {
    hide NextRealm, NextRequests;
  }

  lemma FinishDropsOwner(s: World, r: nat)
    requires Enabled(s, FinishIfReady(r)) && ReadyToFinish(s.realms[r]) && s.owner == Some(r)
    ensures Apply(s, FinishIfReady(r)).owner.None? && RealmOf(s, FinishIfReady(r)) == r
  {
  }

  /** Teardown finishes at most once, only for a realm that is exiting, terminal and without
      pending requests, and the same critical section drops the ownership. */
  lemma FinishedOnce(s: World, e: Step, r: nat)
    requires Reachable(s) && Enabled(s, e) && r in s.realms
    ensures s.realms[r].finishes <= 1
    ensures r in Apply(s, e).realms && s.realms[r].finishes <= Apply(s, e).realms[r].finishes
    ensures s.realms[r].finishes < Apply(s, e).realms[r].finishes ==>
      s.realms[r].exiting && s.realms[r].terminal && s.realms[r].pending == 0
      && s.owner == Some(r) && Apply(s, e).owner.None?
  {
    ReachableInv(s);
    hide Inv, PcOk, PointersOk, TeardownMoves, Live, Apply, Enabled, Reachable;
    RealmFacts(s, r);
    if e.Export? || r != RealmOf(s, e) {
      FinishesElsewhere(s, e, r);
    } else {
      FinishesHere(s, e);
      if e.FinishIfReady? && ReadyToFinish(s.realms[r]) && s.owner == Some(r) { FinishDropsOwner(s, r); }
    }
  }

  // ---------------------------------------------------------------- teardown

  /** A step that goes on with what has begun: not a new call, nor a teardown, nor the end of the realm's memory. */
  predicate GoesOn(e: Step) {
    !e.Export? && !e.Check? && !e.Teardown? && !e.FreeRealm?
  }

  /** Such a step of the realm itself or of the native thread on one of its requests. */
  ghost predicate CanMove(s: World, r: nat) {
    exists e: Step :: Enabled(s, e) && GoesOn(e) && RealmOf(s, e) == r
  }

  lemma MovesBy(s: World, r: nat, e: Step)
    requires Enabled(s, e) && GoesOn(e) && RealmOf(s, e) == r
    ensures CanMove(s, r)
  {
  }

  lemma LiveMoves(s: World, q: nat)
    requires Inv(s) && q in s.requests && s.requests[q].frees == 0 && !s.requests[q].native.Leaked?
    requires s.requests[q].realm in s.realms && s.realms[s.requests[q].realm].js.Idle?
    ensures CanMove(s, s.requests[q].realm)
  {
    var r := s.requests[q].realm;
    RequestFacts(s, q);
    if s.requests[q].native.Outstanding? { MovesBy(s, r, NativeResult(q, false)); }
    else if s.requests[q].native.Called? { MovesBy(s, r, NativeRelease(q)); }
    else if s.requests[q].native.Last? { MovesBy(s, r, NativeFree(q)); }
    else if s.requests[q].delivery { MovesBy(s, r, Deliver(r, q)); }
    else { MovesBy(s, r, Finalize(r, q)); }
  }

  lemma {:induction false} Unused(names: set<nat>) returns (q: nat)
    ensures forall n :: n in names ==> n < q
    decreases names
  {
    if names == {} {
      q := 0;
    } else {
      var n :| n in names;
      var above := Unused(names - {n});
      q := if above <= n then n + 1 else above;
      forall m | m in names ensures m < q {
        assert m != n ==> m in names - {n};
      }
    }
  }

  /** Between two of its lock regions a JavaScript thread always has its next one. */
  lemma BusyRealmMoves(s: World, r: nat)
    requires r in s.realms && !s.realms[r].js.Idle?
    ensures CanMove(s, r)
  {
    match s.realms[r].js
    case Checked(_, _) =>
      var q := Unused(s.requests.Keys);
      MovesBy(s, r, Create(r, q, true));
    case Created(_, _) => MovesBy(s, r, Install(r));
    case Installed(_, _) => MovesBy(s, r, CallNative(r, true));
    case Refused(_, _) => MovesBy(s, r, Uninstall(r));
    case Uninstalled(_) => MovesBy(s, r, DropUnaccepted(r));
    case Freeing(_) => MovesBy(s, r, FreeOnJs(r));
    case AbortingStart(_, _, _) => MovesBy(s, r, AbortStart(r));
    case AbortingStop(_, _) => MovesBy(s, r, AbortStop(r));
    case StoppingNative(_, _) => MovesBy(s, r, StopForTeardown(r, true));
    case StopRefused => MovesBy(s, r, GiveUpStop(r));
    case CheckingFinish => MovesBy(s, r, FinishIfReady(r));
  }

  /** A realm that has nothing left to go on with has freed every request that is not lost, each
      exactly once, released each one's thread-safe function exactly once, and settled every promise
      that was not aborted exactly once; what is lost has been leaked. */
  lemma RestFreesRequests(s: World, r: nat)
    requires Reachable(s) && r in s.realms && !CanMove(s, r)
    ensures s.realms[r].js.Idle?
    ensures forall q :: q in s.requests && s.requests[q].realm == r ==>
              if Lost(s, q) then s.requests[q].native.Leaked? && s.requests[q].frees == 0 && s.requests[q].settled == 0
              else s.requests[q].frees == 1 && s.requests[q].releases == 1
                   && (s.requests[q].settled == 1 || s.requests[q].aborted)
    ensures s.realms[r].pending == 0 <==> forall q :: q in s.requests && s.requests[q].realm == r ==> !Lost(s, q)
  {
    ReachableInv(s);
    if !s.realms[r].js.Idle? { BusyRealmMoves(s, r); }
    hide CanMove, Reachable;
    forall q | q in s.requests && s.requests[q].realm == r
      ensures if Lost(s, q) then s.requests[q].native.Leaked? && s.requests[q].frees == 0 && s.requests[q].settled == 0
              else s.requests[q].frees == 1 && s.requests[q].releases == 1
                   && (s.requests[q].settled == 1 || s.requests[q].aborted)
    {
      RequestFacts(s, q);
      if s.requests[q].frees == 0 && !s.requests[q].native.Leaked? { LiveMoves(s, q); }
      hide Inv;
    }
    RealmFacts(s, r);
    hide Inv;
    LeakedIsLive(s.requests, r);
  }

  lemma LeakedIsLive(requests: map<nat, Request>, r: nat)
    requires forall q :: q in requests && requests[q].realm == r ==>
              (requests[q].frees == 0 <==> requests[q].native.Leaked?)
    ensures |Live(requests, r)| == 0 <==>
              forall q :: q in requests && requests[q].realm == r ==> !requests[q].native.Leaked?
  {
    if forall q :: q in requests && requests[q].realm == r ==> !requests[q].native.Leaked? {
      assert Live(requests, r) == {};
    } else {
      var q :| q in requests && requests[q].realm == r && requests[q].native.Leaked?;
      assert q in Live(requests, r);
    }
  }

  lemma IdleRealmMoves(s: World, r: nat)
    requires Inv(s) && r in s.realms && s.realms[r].exiting && s.realms[r].finishes == 0 && !s.realms[r].missed
    requires s.realms[r].js.Idle? && s.realms[r].pending == 0
    ensures CanMove(s, r)
  {
    RealmFacts(s, r);
    if StopComing(s.realms[r], s.requests) { MovesBy(s, r, NativeResult(s.realms[r].stop.value, false)); }
    else if s.realms[r].stopOutstanding { MovesBy(s, r, TeardownStopped(r)); }
    else if s.realms[r].terminal { MovesBy(s, r, FinishCall(r)); }
  }

  /** A realm misses its terminal event exactly when teardown begins between the native
      completion of its stop and the delivery of that result. */
  lemma MissedExactly(s: World, r: nat)
    requires Reachable(s) && Enabled(s, Teardown(r))
    ensures Apply(s, Teardown(r)).realms[r].missed <==>
              s.realms[r].stop.Some? && s.realms[r].stop.value in s.requests
                  && s.requests[s.realms[r].stop.value].delivery
  {
    ReachableInv(s);
    RealmFacts(s, r);
    if s.realms[r].stop.Some? { RequestFacts(s, s.realms[r].stop.value); }
  }

  /** A realm in teardown that has nothing left to do has finished, unless it missed its terminal
      event or lost a request; then it never finishes. */
  lemma TeardownFinishesUnlessMissed(s: World, r: nat)
    requires Reachable(s) && r in s.realms && s.realms[r].exiting && !CanMove(s, r)
    ensures s.realms[r].finishes == 1 <==>
              !s.realms[r].missed && forall q :: q in s.requests && s.requests[q].realm == r ==> !Lost(s, q)
  {
    ReachableInv(s);
    RestFreesRequests(s, r);
    RealmFacts(s, r);
    if s.realms[r].finishes == 0 && !s.realms[r].missed && s.realms[r].pending == 0 { IdleRealmMoves(s, r); }
    hide Inv, PcOk, PointersOk, Live, Lost, CanMove, Reachable;
  }

  lemma {:induction false} FeasibleAppend(s: World, run: seq<Step>, e: Step)
    requires Feasible(s, run) && Enabled(Exec(s, run), e)
    ensures Feasible(s, run + [e]) && Exec(s, run + [e]) == Apply(Exec(s, run), e)
    decreases |run|
  {
    if run == [] {
      assert run + [e] == [e];
    } else {
      FeasibleAppend(Apply(s, run[0]), run[1..], e);
      assert (run + [e])[1..] == run[1..] + [e];
    }
    hide Apply, Enabled;
  }

  lemma ReachableStep(s: World, e: Step)
    requires Reachable(s) && Enabled(s, e)
    ensures Reachable(Apply(s, e))
  {
    var run: seq<Step> :| Feasible(Fresh, run) && s == Exec(Fresh, run);
    hide Apply, Enabled;
    FeasibleAppend(Fresh, run, e);
  }

  const NewRealm := Realm(0, None, None, 0, false, false, true, 0, 0, false, Idle, false, false)
  const Served := NewRequest(0, Start, 1).(native := Called, completed := true, settled := 1, tsfn := ByNative,
      releases := 1)
  const Asked := NewRequest(0, Stop, 1)

  function One(realm: Realm, requests: map<nat, Request>): World {
    World(Some(0), map[0 := realm], requests)
  }

  lemma ReachableTo(s: World, e: Step, t: World)
    requires Reachable(s) && Enabled(s, e) && Apply(s, e) == t
    ensures Reachable(t)
  {
    ReachableStep(s, e);
  }

  lemma StartChecked()
    ensures Reachable(One(NewRealm.(js := Checked(Start, 1)), map[]))
  {
    assert Exec(Fresh, []) == Fresh;
    hide Reachable;
    ReachableTo(Fresh, Export(0), One(NewRealm, map[]));
    ReachableTo(One(NewRealm, map[]), Check(0, Start, 1), One(NewRealm.(js := Checked(Start, 1)), map[]));
  }

  lemma StartCalled()
    ensures Reachable(One(NewRealm.(generation := 1, start := Some(0), pending := 1, js := Installed(Start, 0)),
                          map[0 := NewRequest(0, Start, 1)]))
  {
    StartChecked();
    hide Reachable;
    var q := NewRequest(0, Start, 1);
    var created := NewRealm.(pending := 1, js := Created(Start, 0));
    ReachableTo(One(NewRealm.(js := Checked(Start, 1)), map[]), Create(0, 0, true), One(created, map[0 := q]));
    ReachableTo(One(created, map[0 := q]), Install(0),
        One(created.(generation := 1, start := Some(0), js := Installed(Start, 0)), map[0 := q]));
  }

  lemma StartServed()
    ensures Reachable(One(NewRealm.(generation := 1, pending := 1), map[0 := Served]))
  {
    StartCalled();
    hide Reachable;
    var q := NewRequest(0, Start, 1);
    var asked := NewRealm.(generation := 1, start := Some(0), pending := 1, js := Installed(Start, 0));
    ReachableTo(One(asked, map[0 := q]), CallNative(0, true),
        One(asked.(js := Idle), map[0 := q.(native := Outstanding)]));
    ReachableTo(One(asked.(js := Idle), map[0 := q.(native := Outstanding)]), NativeResult(0, false),
                One(asked.(js := Idle), map[0 := Served.(delivery := true, settled := 0)]));
    ReachableTo(One(asked.(js := Idle), map[0 := Served.(delivery := true, settled := 0)]), Deliver(0, 0),
                One(asked.(js := Idle, start := None), map[0 := Served]));
  }

  lemma StopInstalled()
    ensures Reachable(One(NewRealm.(generation := 1, stop := Some(1), pending := 2, js := Installed(Stop, 1)),
              map[0 := Served, 1 := Asked]))
  {
    StartServed();
    hide Reachable;
    var up := NewRealm.(generation := 1, pending := 1);
    var created := up.(pending := 2, js := Created(Stop, 1));
    ReachableTo(One(up, map[0 := Served]), Check(0, Stop, 1), One(up.(js := Checked(Stop, 1)), map[0 := Served]));
    ReachableTo(One(up.(js := Checked(Stop, 1)), map[0 := Served]), Create(0, 1, true),
        One(created, map[0 := Served, 1 := Asked]));
    ReachableTo(One(created, map[0 := Served, 1 := Asked]), Install(0),
                One(created.(stop := Some(1), js := Installed(Stop, 1)), map[0 := Served, 1 := Asked]));
  }

  /** The miss is reachable: the stop reports, and teardown begins before its delivery. */
  lemma MissHappens()
    ensures exists s: World :: Reachable(s) && 0 in s.realms && s.realms[0].missed
  {
    StopInstalled();
    hide Reachable;
    var stopping := NewRealm.(generation := 1, stop := Some(1), pending := 2);
    var reported := Asked.(native := Called, completed := true, delivery := true, tsfn := ByNative, releases := 1);
    ReachableTo(One(stopping.(js := Installed(Stop, 1)), map[0 := Served, 1 := Asked]), CallNative(0, true),
                One(stopping, map[0 := Served, 1 := Asked.(native := Outstanding)]));
    ReachableTo(One(stopping, map[0 := Served, 1 := Asked.(native := Outstanding)]), NativeResult(1, false),
                One(stopping, map[0 := Served, 1 := reported]));
    var end := One(stopping.(exiting := true, missed := true, js := AbortingStart(None, Some(1), 1)),
        map[0 := Served, 1 := reported]);
    ReachableTo(One(stopping, map[0 := Served, 1 := reported]), Teardown(0), end);
    assert Reachable(end) && 0 in end.realms && end.realms[0].missed;
  }

  // ---------------------------------------------------------------- a request that is lost

  const Abandoned := NewRequest(0, Start, 1).(native := Outstanding)
  const StoppedEarly :=
    Asked.(native := Called, completed := true, settled := 1, tsfn := ByNative, releases := 1)
  const Again := NewRequest(0, Start, 2)

  lemma StopAsked()
    ensures Reachable(One(NewRealm.(generation := 1, start := Some(0), stop := Some(1), pending := 2,
              js := Installed(Stop, 1)),
                          map[0 := Abandoned, 1 := Asked]))
  {
    StartCalled();
    hide Reachable;
    var up := NewRealm.(generation := 1, start := Some(0), pending := 1);
    ReachableTo(One(up.(js := Installed(Start, 0)), map[0 := NewRequest(0, Start, 1)]), CallNative(0, true),
                One(up, map[0 := Abandoned]));
    ReachableTo(One(up, map[0 := Abandoned]), Check(0, Stop, 1), One(up.(js := Checked(Stop, 1)), map[0 := Abandoned]));
    var two := up.(pending := 2);
    ReachableTo(One(up.(js := Checked(Stop, 1)), map[0 := Abandoned]), Create(0, 1, true),
                One(two.(js := Created(Stop, 1)), map[0 := Abandoned, 1 := Asked]));
    var stopping := two.(stop := Some(1));
    ReachableTo(One(two.(js := Created(Stop, 1)), map[0 := Abandoned, 1 := Asked]), Install(0),
                One(stopping.(js := Installed(Stop, 1)), map[0 := Abandoned, 1 := Asked]));
  }

  lemma StopBeforeStart()
    ensures Reachable(One(NewRealm.(start := Some(0), pending := 2), map[0 := Abandoned, 1 := StoppedEarly]))
  {
    StopAsked();
    hide Reachable;
    var stopping := NewRealm.(generation := 1, start := Some(0), stop := Some(1), pending := 2);
    var asked := Asked.(native := Outstanding);
    ReachableTo(One(stopping.(js := Installed(Stop, 1)), map[0 := Abandoned, 1 := Asked]), CallNative(0, true),
                One(stopping, map[0 := Abandoned, 1 := asked]));
    var reported := StoppedEarly.(settled := 0, delivery := true);
    ReachableTo(One(stopping, map[0 := Abandoned, 1 := asked]), NativeResult(1, false),
                One(stopping, map[0 := Abandoned, 1 := reported]));
    ReachableTo(One(stopping, map[0 := Abandoned, 1 := reported]), Deliver(0, 1),
                One(NewRealm.(start := Some(0), pending := 2), map[0 := Abandoned, 1 := StoppedEarly]));
  }

  /** A request does get lost, with no teardown and no failure but its own: the stop of generation 1
      reports and is delivered before the start does, generation 2 is started, and then the start of
      generation 1 fails. */
  lemma LossHappens()
    ensures exists s: World ::
              Reachable(s) && Lost(s, 0) && s.requests[0].native.Leaked? && 0 in s.realms && !s.realms[0].exiting
  {
    StopBeforeStart();
    hide Reachable;
    var rest := NewRealm.(start := Some(0), pending := 2);
    var known := map[0 := Abandoned, 1 := StoppedEarly];
    ReachableTo(One(rest, known), Check(0, Start, 2), One(rest.(js := Checked(Start, 2)), known));
    var three := rest.(pending := 3);
    var all := known[2 := Again];
    ReachableTo(One(rest.(js := Checked(Start, 2)), known), Create(0, 2, true),
        One(three.(js := Created(Start, 2)), all));
    var second := three.(generation := 2, start := Some(2));
    ReachableTo(One(three.(js := Created(Start, 2)), all), Install(0), One(second.(js := Installed(Start, 2)), all));
    var end := One(second.(js := Installed(Start, 2)), all[0 := Abandoned.(native := Leaked)]);
    ReachableTo(One(second.(js := Installed(Start, 2)), all), NativeResult(0, true), end);
    assert Reachable(end) && Lost(end, 0) && end.requests[0].native.Leaked?;
    assert 0 in end.realms && !end.realms[0].exiting;
  }
}
