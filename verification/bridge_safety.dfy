/** What every step of the bridge keeps: reference counts, pointers and pending counts. */
module BridgeSafety {
  import opened Optional
  import opened Bridge

  /** A request's own bookkeeping: the count is the outstanding callback plus the outstanding
      finalizer, whoever drops the last reference frees, and the thread-safe function is
      released once, by the abort or by the completion. */
  predicate RequestOk(q: Request) {
    && q.references == (if q.native.Last? || q.native.Dropped? then 0 else 1) + (if q.finalizer.Pending? then 1 else 0)
    && q.frees == (if q.native.Dropped? && q.finalizer.Finalized? then 1 else 0)
    && (q.native.Last? ==> q.finalizer.Finalized?)
    && (q.finalizer.Freeing? ==> q.native.Dropped?)
    && q.releases == (if q.tsfn.Open? then 0 else 1)
    && (!q.finalizer.Pending? ==> !q.tsfn.Open?)
    && (!q.completed ==> q.tsfn == (if q.aborted then ByAbort else Open))
    && (q.completed ==> !q.tsfn.Open? && (q.native.Called? || q.native.Last? || q.native.Dropped?))
    && (q.native.Called? || q.native.Last? ==> q.completed)
    && (q.native.Dropped? && !q.completed ==> q.aborted)
    && (q.native.Unaccepted? ==> !q.aborted)
    && (q.native.Leaked? ==> q.kind.Start?)
    && (q.delivery ==> q.completed && q.tsfn.ByNative? && q.finalizer.Pending? && q.settled == 0)
    && q.settled <= 1
    && (q.settled == 1 ==> q.completed && q.tsfn.ByNative? && !q.delivery)
    && (q.tsfn.ByNative? && !q.delivery && !q.aborted ==> q.settled == 1)
    && (q.tsfn.ByAbort? ==> q.aborted)
    && q.generation > 0
  }

  predicate InTeardown(js: Js) {
    js.AbortingStart? || js.AbortingStop? || js.StoppingNative? || js.StopRefused?
  }

  predicate RealmOk(owner: Option<nat>, r: nat, realm: Realm) {
    && (!realm.exiting ==> !realm.terminal && realm.finishCalls == 0 && !realm.stopOutstanding && !realm.missed)
    && realm.finishes == (if realm.teardown then 0 else 1)
    && (owner == Some(r) <==> realm.teardown)
    && (!realm.teardown ==> realm.exiting && realm.terminal && realm.pending == 0 && !InTeardown(realm.js))
    && (realm.freed ==> !realm.teardown && realm.finishCalls == 0 && realm.js.Idle?)
    && (realm.stopOutstanding ==> !realm.terminal && realm.stop.None?)
    && (realm.stop.Some? ==> realm.generation > 0)
  }

  /** What the JavaScript thread holds between two of its lock regions. */
  predicate PcOk(owner: Option<nat>, r: nat, realm: Realm, requests: map<nat, Request>) {
    match realm.js
    case Idle => true
    case Checked(kind, g) =>
      owner == Some(r) && !realm.exiting && g > 0
      && (if kind.Start? then realm.generation == 0 else realm.generation == g && realm.stop.None?)
    case Created(kind, q) =>
      && owner == Some(r) && !realm.exiting && q in requests && requests[q].realm == r && requests[q].kind == kind
      && requests[q].native.Unaccepted? && realm.start != Some(q) && realm.stop != Some(q)
      && (if kind.Start? then realm.generation == 0 else realm.generation == requests[q].generation && realm.stop.None?)
    case Installed(kind, q) => InstalledOk(owner, r, realm, requests, kind, q)
    case Refused(kind, q) => InstalledOk(owner, r, realm, requests, kind, q)
    case Uninstalled(q) =>
      && owner == Some(r) && !realm.exiting && q in requests && requests[q].realm == r && requests[q].native.Unaccepted?
      && realm.start != Some(q) && realm.stop != Some(q)
    case Freeing(q) => q in requests && requests[q].realm == r && requests[q].finalizer.Freeing?
    case AbortingStart(start, stop, g) =>
      realm.exiting && HeldOk(r, start, requests) && HeldOk(r, stop, requests) && TeardownPlan(realm, stop.Some?, g)
    case AbortingStop(stop, g) => realm.exiting && HeldOk(r, stop, requests) && TeardownPlan(realm, stop.Some?, g)
    case StoppingNative(g, hasStop) => realm.exiting && TeardownPlan(realm, hasStop, g)
    case StopRefused => realm.exiting && TeardownPlan(realm, false, 1)
    case CheckingFinish => true
  }

  predicate InstalledOk(owner: Option<nat>, r: nat, realm: Realm, requests: map<nat, Request>, kind: Kind, q: nat) {
    && owner == Some(r) && !realm.exiting && q in requests && requests[q].realm == r && requests[q].kind == kind
    && requests[q].native.Unaccepted? && realm.generation == requests[q].generation
    && (if kind.Start? then realm.start == Some(q) && realm.stop.None? else realm.stop == Some(q))
  }

  /** A request that teardown still has to abort cannot have been finalized. */
  predicate HeldOk(r: nat, held: Option<nat>, requests: map<nat, Request>) {
    held.Some? ==> held.value in requests && requests[held.value].realm == r && requests[held.value].finalizer.Pending?
                   && !requests[held.value].native.Unaccepted?
  }

  /** What teardown saw when it began: a stop in flight ends the service for it, an idle realm
      is over at once, and otherwise teardown will stop the service itself. */
  predicate TeardownPlan(realm: Realm, hasStop: bool, g: nat) {
    && !realm.stopOutstanding
    && (hasStop ==> g != 0)
    && (!hasStop ==> (g == 0 <==> realm.terminal) && realm.stop.None? && !realm.missed)
  }

  predicate PointersOk(r: nat, realm: Realm, requests: map<nat, Request>) {
    && (realm.start.Some? ==> PointedOk(r, realm, requests, realm.start.value, Start))
    && (realm.stop.Some? ==>
         PointedOk(r, realm, requests, realm.stop.value, Stop)
         && realm.generation == requests[realm.stop.value].generation)
  }

  predicate PointedOk(r: nat, realm: Realm, requests: map<nat, Request>, q: nat, kind: Kind) {
    && q in requests && requests[q].realm == r && requests[q].kind == kind && requests[q].frees == 0
    && (requests[q].native.Dropped? ==> requests[q].completed)
    && (!realm.exiting ==>
         requests[q].finalizer.Pending? && !requests[q].aborted && (requests[q].completed ==> requests[q].delivery))
  }

  /** What keeps a callback deliverable while the native side still owes it. */
  predicate NativeOk(q: nat, req: Request, realm: Realm) {
    && (req.native.Unaccepted? ==>
          (realm.js.Created? || realm.js.Installed? || realm.js.Refused? || realm.js.Uninstalled?)
              && realm.js.request == q)
    && (req.native.Outstanding? && req.kind.Stop? ==> realm.stop == Some(q))
    && (req.finalizer.Freeing? ==> realm.js == Js.Freeing(q))
  }

  /** Why a realm that is being torn down is not stuck: it is done, or something is coming. */
  predicate TeardownMoves(realm: Realm, requests: map<nat, Request>) {
    && (realm.exiting && !realm.terminal && !InTeardown(realm.js) ==>
          realm.missed || realm.stopOutstanding || StopComing(realm, requests))
    && (realm.exiting && !realm.terminal && (realm.js.AbortingStart? || realm.js.AbortingStop?)
         && realm.js.stop.Some? ==>
          realm.missed || StopComing(realm, requests))
    && (realm.exiting && !realm.terminal && realm.js.StoppingNative? && realm.js.hasStop ==>
         realm.missed || StopComing(realm, requests))
    && (realm.exiting && realm.terminal && realm.pending == 0 && realm.teardown ==>
          realm.finishCalls > 0 || InTeardown(realm.js) || realm.js.CheckingFinish?)
    && (realm.missed ==> MissedOk(realm, requests))
  }

  predicate StopComing(realm: Realm, requests: map<nat, Request>) {
    realm.stop.Some? && realm.stop.value in requests && requests[realm.stop.value].native.Outstanding?
  }

  predicate MissedOk(realm: Realm, requests: map<nat, Request>) {
    && realm.exiting && !realm.terminal && !realm.stopOutstanding && !realm.js.StopRefused?
    && (realm.js.AbortingStart? || realm.js.AbortingStop? ==> realm.js.stop.Some?)
    && (realm.js.StoppingNative? ==> realm.js.hasStop)
    && (realm.stop.Some? ==> realm.stop.value in requests && requests[realm.stop.value].completed)
  }

  function Live(requests: map<nat, Request>, r: nat): set<nat> {
    set q | q in requests && requests[q].realm == r && requests[q].frees == 0
  }

  ghost predicate Inv(s: World) {
    && (forall q :: q in s.requests ==> RequestOk(s.requests[q]) && s.requests[q].realm in s.realms)
    && (forall r :: r in s.realms ==> RealmInv(s.owner, r, s.realms[r], s.requests))
    && (forall q :: q in s.requests && s.requests[q].realm in s.realms ==>
          NativeOk(q, s.requests[q], s.realms[s.requests[q].realm]))
    && (s.owner.Some? ==> s.owner.value in s.realms)
  }

  predicate RealmInv(owner: Option<nat>, r: nat, realm: Realm, requests: map<nat, Request>) {
    && RealmOk(owner, r, realm) && PcOk(owner, r, realm, requests) && PointersOk(r, realm, requests)
    && TeardownMoves(realm, requests)
    && realm.pending == |Live(requests, r)|
  }

  // ---------------------------------------------------------------- what a step may assume

  lemma RequestFacts(s: World, q: nat)
    requires Inv(s) && q in s.requests
    ensures RequestOk(s.requests[q]) && s.requests[q].realm in s.realms
    ensures NativeOk(q, s.requests[q], s.realms[s.requests[q].realm])
  {
    hide RequestOk, NativeOk, RealmInv;
  }

  lemma RealmFacts(s: World, r: nat)
    requires Inv(s) && r in s.realms
    ensures RealmOk(s.owner, r, s.realms[r]) && PcOk(s.owner, r, s.realms[r], s.requests)
    ensures PointersOk(r, s.realms[r], s.requests) && TeardownMoves(s.realms[r], s.requests)
    ensures s.realms[r].pending == |Live(s.requests, r)|
  {
    hide RequestOk, NativeOk, RealmOk, PcOk, PointersOk, TeardownMoves;
  }

  /** A live request keeps its realm unfinished. */
  lemma LiveKeepsRealm(s: World, q: nat)
    requires Inv(s) && q in s.requests && s.requests[q].frees == 0
    ensures s.requests[q].realm in s.realms && s.realms[s.requests[q].realm].teardown
    ensures s.realms[s.requests[q].realm].pending > 0
    ensures s.owner == Some(s.requests[q].realm)
  {
    hide Inv, PcOk, PointersOk, TeardownMoves;
    RequestFacts(s, q);
    RealmFacts(s, s.requests[q].realm);
    assert q in Live(s.requests, s.requests[q].realm);
  }

  /** The native callback of a stop always finds its request installed in the owning realm, and that
      of a start does exactly when no later start was installed over it; it is not yet completed. */
  lemma CallbackFindsRequest(s: World, q: nat)
    requires Inv(s) && q in s.requests && s.requests[q].native.Outstanding?
    ensures s.requests[q].realm in s.realms && s.owner == Some(s.requests[q].realm) && !s.requests[q].completed
    ensures Active(s, q) <==> s.requests[q].kind.Stop? || s.realms[s.requests[q].realm].start == Some(q)
  {
    RequestFacts(s, q);
    LiveKeepsRealm(s, q);
    RealmFacts(s, s.requests[q].realm);
    hide Inv, PcOk, TeardownMoves, Live;
  }

  predicate NativeStep(e: Step) {
    e.NativeResult? || e.NativeRelease? || e.NativeFree?
  }

  predicate CallStep(e: Step) {
    e.Export? || e.Check? || e.Create? || e.Install? || e.CallNative? || e.Uninstall? || e.DropUnaccepted?
  }

  predicate DeliveryStep(e: Step) {
    e.Deliver? || e.Finalize? || e.FreeOnJs? || e.FinishIfReady? || e.FinishCall? || e.FreeRealm?
  }

  predicate TeardownStep(e: Step) {
    e.Teardown? || e.AbortStart? || e.AbortStop? || e.StopForTeardown? || e.GiveUpStop? || e.TeardownStopped?
  }

  /** The request a step touches exists, is live, and belongs to the step's realm. */
  lemma TouchedRequest(s: World, e: Step)
    requires Inv(s) && Enabled(s, e) && RequestOf(s, e).Some? && !e.Create?
    ensures RequestOf(s, e).value in s.requests
    ensures s.requests[RequestOf(s, e).value].frees == 0
    ensures s.requests[RequestOf(s, e).value].realm == RealmOf(s, e)
  {
    hide Inv, RealmOk, TeardownMoves, PointersOk, Live, TeardownPlan;
    if !NativeStep(e) { RealmFacts(s, e.r); }
    RequestFacts(s, RequestOf(s, e).value);
  }

  // ---------------------------------------------------------------- requests

  lemma JsRequestKept(s: World, e: Step)
    requires Inv(s) && Enabled(s, e) && RequestOf(s, e).Some? && !NativeStep(e)
    ensures RequestOk(NextRequest(s, e, RequestAt(s, RequestOf(s, e).value)))
  {
    hide Inv, RealmOk, TeardownMoves, PointersOk, Live, TeardownPlan, NativeOk;
    RealmFacts(s, e.r);
    if !e.Create? { RequestFacts(s, RequestOf(s, e).value); }
  }

  lemma NativeRequestKept(s: World, e: Step)
    requires Inv(s) && Enabled(s, e) && NativeStep(e)
    ensures RequestOk(NextRequest(s, e, s.requests[e.q]))
  {
    hide Inv;
    RequestFacts(s, e.q);
    if e.NativeResult? { CallbackFindsRequest(s, e.q); }
  }

  lemma SameRealm(s: World, e: Step)
    requires Enabled(s, e) && RequestOf(s, e).Some?
    ensures e.Create? ==> NextRequest(s, e, RequestAt(s, RequestOf(s, e).value)).realm == RealmOf(s, e)
    ensures !e.Create? ==>
              NextRequest(s, e, RequestAt(s, RequestOf(s, e).value)).realm == RequestAt(s, RequestOf(s, e).value).realm
  {
  }

  lemma RequestsKept(s: World, e: Step)
    requires Inv(s) && Enabled(s, e)
    ensures var t := Apply(s, e);
              forall q :: q in t.requests ==> RequestOk(t.requests[q]) && t.requests[q].realm in t.realms
  {
    var t := Apply(s, e);
    forall q | q in t.requests ensures RequestOk(t.requests[q]) && t.requests[q].realm in t.realms {
      hide Inv, RequestOk, NextRequest, NextRealm, NextOwner, RealmOf;
      if RequestOf(s, e) == Some(q) {
        if NativeStep(e) { NativeRequestKept(s, e); } else { JsRequestKept(s, e); }
        if !e.Create? { TouchedRequest(s, e); }
        SameRealm(s, e);
      } else {
        RequestFacts(s, q);
      }
    }
  }

  // ---------------------------------------------------------------- realms

  lemma ScalarsByNative(s: World, e: Step)
    requires Inv(s) && Enabled(s, e) && NativeStep(e)
    ensures RealmOk(NextOwner(s, e), RealmOf(s, e), NextRealm(s, e, RealmAt(s, RealmOf(s, e))))
  {
    hide Inv, Live, TeardownMoves, PcOk, PointersOk;
    RequestFacts(s, e.q);
    RealmFacts(s, RealmOf(s, e));
    LiveKeepsRealm(s, e.q);
    if e.NativeResult? { CallbackFindsRequest(s, e.q); }
  }

  lemma ScalarsByCall(s: World, e: Step)
    requires Inv(s) && Enabled(s, e) && CallStep(e) && !RefusedExport(s, e)
    ensures RealmOk(NextOwner(s, e), RealmOf(s, e), NextRealm(s, e, RealmAt(s, RealmOf(s, e))))
  {
    hide Inv, Live, HeldOk, TeardownMoves, NativeOk;
    if !e.Export? { RealmFacts(s, e.r); }
    if e.Install? { RequestFacts(s, s.realms[e.r].js.request); }
  }

  lemma ScalarsByDelivery(s: World, e: Step)
    requires Inv(s) && Enabled(s, e) && DeliveryStep(e)
    ensures RealmOk(NextOwner(s, e), RealmOf(s, e), NextRealm(s, e, RealmAt(s, RealmOf(s, e))))
  {
    hide Inv, Live, HeldOk, TeardownMoves, NativeOk, InstalledOk, PointersOk;
    RealmFacts(s, e.r);
    if e.FreeOnJs? || e.Finalize? { TouchedRequest(s, e); LiveKeepsRealm(s, RequestOf(s, e).value); }
  }

  lemma ScalarsByTeardown(s: World, e: Step)
    requires Inv(s) && Enabled(s, e) && TeardownStep(e)
    ensures RealmOk(NextOwner(s, e), RealmOf(s, e), NextRealm(s, e, RealmAt(s, RealmOf(s, e))))
  {
    hide Inv, Live, HeldOk, TeardownMoves, NativeOk, InstalledOk, PointersOk;
    RealmFacts(s, e.r);
  }

  lemma RealmScalarsKept(s: World, e: Step)
    requires Inv(s) && Enabled(s, e) && !RefusedExport(s, e)
    ensures RealmOk(NextOwner(s, e), RealmOf(s, e), NextRealm(s, e, RealmAt(s, RealmOf(s, e))))
  {
    hide Inv, RealmOk, NextOwner, NextRealm, Enabled;
    if NativeStep(e) { ScalarsByNative(s, e); }
    else if CallStep(e) { ScalarsByCall(s, e); }
    else if DeliveryStep(e) { ScalarsByDelivery(s, e); }
    else { ScalarsByTeardown(s, e); }
  }

  /** The JavaScript thread does not depend on how far an accepted callback has come. */
  lemma PcFrame(owner: Option<nat>, r: nat, realm: Realm, requests: map<nat, Request>, q: nat, req: Request)
    requires PcOk(owner, r, realm, requests) && q in requests && !requests[q].native.Unaccepted?
              && !req.native.Unaccepted?
    requires req.realm == requests[q].realm && req.kind == requests[q].kind && req.generation == requests[q].generation
    requires req.finalizer == requests[q].finalizer
    ensures PcOk(owner, r, realm, requests[q := req])
  {
  }

  /** A realm with a stop in flight does not depend on its terminal event. */
  lemma PcTerminal(owner: Option<nat>, r: nat, realm: Realm, requests: map<nat, Request>)
    requires PcOk(owner, r, realm, requests) && realm.stop.Some? && realm.exiting
    ensures PcOk(owner, r, realm.(terminal := true), requests)
  {
  }

  lemma CompleteKeepsNames(req: Request, active: bool, failed: bool)
    ensures var next := Complete(req, active, failed);
            next.realm == req.realm && next.kind == req.kind && next.generation == req.generation
                && next.finalizer == req.finalizer
            && !next.native.Unaccepted?
  {
  }

  lemma ResultStep(s: World, q: nat, failed: bool)
    requires Enabled(s, NativeResult(q, failed)) && s.requests[q].realm in s.realms
    ensures var e, req := NativeResult(q, failed), s.requests[q];
            && RealmOf(s, e) == req.realm && NextOwner(s, e) == s.owner
            && NextRealm(s, e, s.realms[req.realm]) == Reported(s.realms[req.realm], req, Active(s, q))
            && NextRequests(s, e) == s.requests[q := Complete(req, Active(s, q), failed)]
  {
    hide Active, Complete, Reported;
  }

  lemma ReleaseStep(s: World, q: nat)
    requires Enabled(s, NativeRelease(q)) && s.requests[q].realm in s.realms
    ensures var e, req := NativeRelease(q), s.requests[q];
            && RealmOf(s, e) == req.realm && NextOwner(s, e) == s.owner
            && NextRealm(s, e, s.realms[req.realm]) == s.realms[req.realm]
            && NextRequests(s, e) == s.requests[q := NextRequest(s, e, req)]
            && var next := NextRequest(s, e, req);
            next.realm == req.realm && next.kind == req.kind && next.generation == req.generation
                && next.finalizer == req.finalizer
            && !next.native.Unaccepted?
  {
  }

  lemma PcByResult(s: World, q: nat, failed: bool)
    requires Inv(s) && Enabled(s, NativeResult(q, failed))
    ensures var e := NativeResult(q, failed);
            PcOk(NextOwner(s, e), RealmOf(s, e), NextRealm(s, e, s.realms[RealmOf(s, e)]), NextRequests(s, e))
  {
    var req := s.requests[q];
    assert req.native.Outstanding?;
    hide Inv, PcOk, Complete, RequestOk, Active, PointersOk, TeardownMoves, Live, RealmOk, Enabled;
    hide NextRequests, NextRealm, NextOwner;
    RequestFacts(s, q);
    RealmFacts(s, req.realm);
    ResultStep(s, q, failed);
    CompleteKeepsNames(req, Active(s, q), failed);
    PcFrame(s.owner, req.realm, s.realms[req.realm], s.requests, q, Complete(req, Active(s, q), failed));
    if req.kind.Stop? && s.realms[req.realm].exiting {
      PcTerminal(s.owner, req.realm, s.realms[req.realm], s.requests[q := Complete(req, Active(s, q), failed)]);
    }
  }

  lemma PcByRelease(s: World, q: nat)
    requires Inv(s) && Enabled(s, NativeRelease(q))
    ensures var e := NativeRelease(q);
            PcOk(NextOwner(s, e), RealmOf(s, e), NextRealm(s, e, s.realms[RealmOf(s, e)]), NextRequests(s, e))
  {
    var req := s.requests[q];
    assert req.native.Called?;
    hide Inv, PcOk, RequestOk, PointersOk, TeardownMoves, Live, RealmOk, NativeOk, Enabled;
    hide NextRequests, NextRealm, NextOwner, NextRequest;
    RequestFacts(s, q);
    RealmFacts(s, req.realm);
    ReleaseStep(s, q);
    PcFrame(s.owner, req.realm, s.realms[req.realm], s.requests, q, NextRequest(s, NativeRelease(q), req));
  }

  lemma PcByFree(s: World, q: nat)
    requires Inv(s) && Enabled(s, NativeFree(q))
    ensures var e := NativeFree(q);
            PcOk(NextOwner(s, e), RealmOf(s, e), NextRealm(s, e, s.realms[RealmOf(s, e)]), NextRequests(s, e))
  {
    hide Inv, Live, TeardownMoves;
    RequestFacts(s, q);
    RealmFacts(s, s.requests[q].realm);
  }

  lemma PointersByNative(s: World, e: Step)
    requires Inv(s) && Enabled(s, e) && NativeStep(e)
    ensures PointersOk(RealmOf(s, e), NextRealm(s, e, s.realms[RealmOf(s, e)]), NextRequests(s, e))
  {
    hide Inv, Live, TeardownMoves, PcOk;
    RequestFacts(s, e.q);
    RealmFacts(s, RealmOf(s, e));
    if e.NativeResult? { CallbackFindsRequest(s, e.q); }
  }

  lemma MovesByNative(s: World, e: Step)
    requires Inv(s) && Enabled(s, e) && NativeStep(e)
    ensures TeardownMoves(NextRealm(s, e, s.realms[RealmOf(s, e)]), NextRequests(s, e))
  {
    hide Inv, Live, PcOk;
    RequestFacts(s, e.q);
    RealmFacts(s, RealmOf(s, e));
    LiveKeepsRealm(s, e.q);
    if e.NativeResult? { CallbackFindsRequest(s, e.q); }
  }

  lemma PcByCall(s: World, e: Step)
    requires Inv(s) && Enabled(s, e) && CallStep(e) && !RefusedExport(s, e)
    ensures PcOk(NextOwner(s, e), e.r, NextRealm(s, e, RealmAt(s, e.r)), NextRequests(s, e))
    ensures PointersOk(e.r, NextRealm(s, e, RealmAt(s, e.r)), NextRequests(s, e))
    ensures TeardownMoves(NextRealm(s, e, RealmAt(s, e.r)), NextRequests(s, e))
  {
    hide Inv, Live;
    if !e.Export? { RealmFacts(s, e.r); }
    if e.Install? { RequestFacts(s, s.realms[e.r].js.request); }
  }

  lemma PcByDelivery(s: World, e: Step)
    requires Inv(s) && Enabled(s, e) && DeliveryStep(e)
    ensures PcOk(NextOwner(s, e), e.r, NextRealm(s, e, s.realms[e.r]), NextRequests(s, e))
  {
    hide Inv, Live, TeardownMoves, RealmOk, PointersOk;
    RealmFacts(s, e.r);
  }

  lemma PointedStays(r: nat, realm: Realm, next: Realm, requests: map<nat, Request>, q: nat, req: Request, p: nat,
      kind: Kind)
    requires PointedOk(r, realm, requests, p, kind) && p != q && next.exiting == realm.exiting
    ensures PointedOk(r, next, requests[q := req], p, kind) && p in requests && requests[q := req][p] == requests[p]
  {
  }

  lemma PointedKind(r: nat, realm: Realm, requests: map<nat, Request>, q: nat, kind: Kind)
    requires PointedOk(r, realm, requests, q, kind)
    ensures q in requests && requests[q].kind == kind
  {
  }

  /** A delivered request is no longer pointed at, and nothing else changes. */
  lemma DeliveredPointers(r: nat, realm: Realm, requests: map<nat, Request>, q: nat, req: Request)
    requires PointersOk(r, realm, requests) && q in requests && requests[q].realm == r
    ensures PointersOk(r, Delivered(realm, q, requests[q]), requests[q := req])
  {
    var next := Delivered(realm, q, requests[q]);
    hide PointedOk;
    if realm.start.Some? {
      PointedKind(r, realm, requests, realm.start.value, Start);
      if realm.start.value != q { PointedStays(r, realm, next, requests, q, req, realm.start.value, Start); }
    }
    if realm.stop.Some? {
      PointedKind(r, realm, requests, realm.stop.value, Stop);
      if realm.stop.value != q { PointedStays(r, realm, next, requests, q, req, realm.stop.value, Stop); }
    }
  }

  lemma PointersByResult(s: World, r: nat, q: nat)
    requires Inv(s) && Enabled(s, Deliver(r, q))
    ensures PointersOk(r, NextRealm(s, Deliver(r, q), s.realms[r]), NextRequests(s, Deliver(r, q)))
  {
    RealmFacts(s, r);
    hide Inv, Live, TeardownMoves, PcOk, RealmOk, PointersOk, Delivered;
    DeliveredPointers(r, s.realms[r], s.requests, q, NextRequest(s, Deliver(r, q), s.requests[q]));
  }

  lemma PointersByFinalizer(s: World, e: Step)
    requires Inv(s) && Enabled(s, e) && (e.Finalize? || e.FreeOnJs?)
    ensures PointersOk(e.r, NextRealm(s, e, s.realms[e.r]), NextRequests(s, e))
  {
    hide Inv, Live, TeardownMoves, InstalledOk, HeldOk, TeardownPlan;
    RealmFacts(s, e.r);
    if e.Finalize? { RequestFacts(s, e.q); } else { RequestFacts(s, s.realms[e.r].js.request); }
  }

  lemma PointersByDelivery(s: World, e: Step)
    requires Inv(s) && Enabled(s, e) && DeliveryStep(e)
    ensures PointersOk(e.r, NextRealm(s, e, s.realms[e.r]), NextRequests(s, e))
  {
    RealmFacts(s, e.r);
    hide Inv, Live, TeardownMoves, PcOk;
    if e.Deliver? { PointersByResult(s, e.r, e.q); }
    else if e.Finalize? || e.FreeOnJs? { PointersByFinalizer(s, e); }
    else { hide Enabled; }
  }

  lemma MovesByDelivery(s: World, e: Step)
    requires Inv(s) && Enabled(s, e) && DeliveryStep(e)
    ensures TeardownMoves(NextRealm(s, e, s.realms[e.r]), NextRequests(s, e))
  {
    hide Inv, Live, InstalledOk, HeldOk, TeardownPlan, PointersOk;
    RealmFacts(s, e.r);
    if e.Deliver? || e.Finalize? { RequestFacts(s, e.q); }
    if e.FreeOnJs? { RequestFacts(s, s.realms[e.r].js.request); }
  }

  lemma PcByTeardown(s: World, e: Step)
    requires Inv(s) && Enabled(s, e) && TeardownStep(e)
    ensures PcOk(NextOwner(s, e), e.r, NextRealm(s, e, s.realms[e.r]), NextRequests(s, e))
  {
    hide Inv, Live, TeardownMoves;
    RealmFacts(s, e.r);
    if e.Teardown? {
      if s.realms[e.r].start.Some? { RequestFacts(s, s.realms[e.r].start.value); }
      if s.realms[e.r].stop.Some? { RequestFacts(s, s.realms[e.r].stop.value); }
    }
  }

  lemma PointersByTeardown(s: World, e: Step)
    requires Inv(s) && Enabled(s, e) && TeardownStep(e)
    ensures PointersOk(e.r, NextRealm(s, e, s.realms[e.r]), NextRequests(s, e))
  {
    hide Inv, Live, TeardownMoves, InstalledOk;
    RealmFacts(s, e.r);
  }

  lemma MovesByTeardown(s: World, e: Step)
    requires Inv(s) && Enabled(s, e) && TeardownStep(e)
    ensures TeardownMoves(NextRealm(s, e, s.realms[e.r]), NextRequests(s, e))
  {
    hide Inv, Live, InstalledOk, HeldOk;
    RealmFacts(s, e.r);
    if e.Teardown? && s.realms[e.r].stop.Some? { RequestFacts(s, s.realms[e.r].stop.value); }
  }

  lemma RealmLinksKept(s: World, e: Step)
    requires Inv(s) && Enabled(s, e) && !RefusedExport(s, e)
    ensures PcOk(NextOwner(s, e), RealmOf(s, e), NextRealm(s, e, RealmAt(s, RealmOf(s, e))), NextRequests(s, e))
    ensures PointersOk(RealmOf(s, e), NextRealm(s, e, RealmAt(s, RealmOf(s, e))), NextRequests(s, e))
    ensures TeardownMoves(NextRealm(s, e, RealmAt(s, RealmOf(s, e))), NextRequests(s, e))
  {
    hide PcOk, PointersOk, TeardownMoves, NextRealm, NextRequests, NextOwner;
    assert RealmOf(s, e) in s.realms || e.Export? by { if NativeStep(e) { RequestFacts(s, e.q); } hide Inv; }
    hide Inv;
    if NativeStep(e) {
      if e.NativeResult? { PcByResult(s, e.q, e.failed); }
      else if e.NativeRelease? { PcByRelease(s, e.q); }
      else { PcByFree(s, e.q); }
      PointersByNative(s, e);
      MovesByNative(s, e);
    } else if CallStep(e) {
      PcByCall(s, e);
    } else if DeliveryStep(e) {
      PcByDelivery(s, e);
      PointersByDelivery(s, e);
      MovesByDelivery(s, e);
    } else {
      PcByTeardown(s, e);
      PointersByTeardown(s, e);
      MovesByTeardown(s, e);
    }
  }

  // ---------------------------------------------------------------- pending counts

  lemma FreesAfter(s: World, e: Step)
    requires Enabled(s, e) && RequestOf(s, e).Some?
    ensures NextRequest(s, e, RequestAt(s, RequestOf(s, e).value)).frees ==
      (if e.Create? then 0
       else RequestAt(s, RequestOf(s, e).value).frees + (if e.FreeOnJs? || e.NativeFree? then 1 else 0))
  {
  }

  /** Replacing one record changes only its own membership. */
  lemma LiveUpdate(requests: map<nat, Request>, q: nat, req: Request, r: nat)
    requires q in requests ==> requests[q].realm == req.realm
    ensures Live(requests[q := req], r) ==
      (if r != req.realm then Live(requests, r)
       else if req.frees == 0 then Live(requests, r) + {q}
       else Live(requests, r) - {q})
  {
  }

  lemma NewIsUnused(s: World, e: Step)
    requires Enabled(s, e) && e.Create? && RequestOf(s, e).Some?
    ensures RequestOf(s, e).value !in s.requests && RealmOf(s, e) == e.r
  {
  }

  /** A step creates, frees or keeps the request it touches. */
  lemma LiveAfter(s: World, e: Step, r: nat)
    requires Inv(s) && Enabled(s, e)
    ensures Live(NextRequests(s, e), r) ==
      (if RequestOf(s, e).None? || r != RealmOf(s, e) then Live(s.requests, r)
       else if e.FreeOnJs? || e.NativeFree? then Live(s.requests, r) - {RequestOf(s, e).value}
       else Live(s.requests, r) + {RequestOf(s, e).value})
  {
    hide Inv, Live, NextRequest, RealmOf, RequestOf;
    if RequestOf(s, e).Some? {
      var q := RequestOf(s, e).value;
      if e.Create? { NewIsUnused(s, e); } else { TouchedRequest(s, e); }
      FreesAfter(s, e);
      SameRealm(s, e);
      LiveUpdate(s.requests, q, NextRequest(s, e, RequestAt(s, q)), r);
    }
  }

  function PendingCount(e: Step, pending: nat): nat {
    if e.Create? && e.ok then pending + 1
    else if (e.FreeOnJs? || e.NativeFree?) && pending > 0 then pending - 1
    else pending
  }

  lemma PendingAfter(s: World, e: Step)
    requires Enabled(s, e) && !e.Export?
    ensures NextRealm(s, e, RealmAt(s, RealmOf(s, e))).pending ==
      PendingCount(e, RealmAt(s, RealmOf(s, e)).pending)
    ensures e.Create? ==> (e.ok <==> RequestOf(s, e).Some?)
    ensures e.FreeOnJs? || e.NativeFree? ==> RequestOf(s, e).Some?
  {
    hide Enabled, Active, RealmOf, RealmAt;
    if CallStep(e) {
    } else if DeliveryStep(e) {
    } else if NativeStep(e) {
    } else {
    }
  }

  lemma InLive(requests: map<nat, Request>, q: nat, r: nat)
    ensures q in Live(requests, r) <==> q in requests && requests[q].realm == r && requests[q].frees == 0
  {
  }

  lemma AddOne(live: set<nat>, q: nat)
    requires q !in live
    ensures |live + {q}| == |live| + 1
  {
  }

  lemma RemoveOne(live: set<nat>, q: nat)
    requires q in live
    ensures |live - {q}| == |live| - 1 && |live| > 0
  {
  }

  lemma KeepOne(live: set<nat>, q: nat)
    requires q in live
    ensures |live + {q}| == |live|
  {
    assert live + {q} == live;
  }

  /** A created request is one more live one. */
  lemma PendingCreated(s: World, e: Step)
    requires Inv(s) && Enabled(s, e) && e.Create? && RequestOf(s, e).Some?
    ensures |Live(NextRequests(s, e), e.r)| == |Live(s.requests, e.r)| + 1 && RealmOf(s, e) == e.r
  {
    hide Inv, NextRequests, Live, Enabled, RequestOf;
    NewIsUnused(s, e);
    LiveAfter(s, e, e.r);
    InLive(s.requests, RequestOf(s, e).value, e.r);
    AddOne(Live(s.requests, e.r), RequestOf(s, e).value);
  }

  /** A freed request is one live one less. */
  lemma PendingFreed(s: World, e: Step)
    requires Inv(s) && Enabled(s, e) && (e.FreeOnJs? || e.NativeFree?) && RequestOf(s, e).Some?
    ensures var r := RealmOf(s, e);
              |Live(NextRequests(s, e), r)| == |Live(s.requests, r)| - 1 && |Live(s.requests, r)| > 0
  {
    hide Inv, NextRequests, Live, Enabled, RequestOf, RealmOf;
    TouchedRequest(s, e);
    LiveAfter(s, e, RealmOf(s, e));
    InLive(s.requests, RequestOf(s, e).value, RealmOf(s, e));
    RemoveOne(Live(s.requests, RealmOf(s, e)), RequestOf(s, e).value);
  }

  /** Any other step leaves the live requests alone. */
  lemma PendingUntouched(s: World, e: Step)
    requires Inv(s) && Enabled(s, e) && !e.FreeOnJs? && !e.NativeFree? && !(e.Create? && RequestOf(s, e).Some?)
    ensures |Live(NextRequests(s, e), RealmOf(s, e))| == |Live(s.requests, RealmOf(s, e))|
  {
    hide Inv, NextRequests, Live, Enabled, RequestOf, RealmOf;
    LiveAfter(s, e, RealmOf(s, e));
    if RequestOf(s, e).Some? {
      TouchedRequest(s, e);
      InLive(s.requests, RequestOf(s, e).value, RealmOf(s, e));
      KeepOne(Live(s.requests, RealmOf(s, e)), RequestOf(s, e).value);
    }
  }

  lemma PendingKept(s: World, e: Step)
    requires Inv(s) && Enabled(s, e) && !e.Export?
    ensures NextRealm(s, e, RealmAt(s, RealmOf(s, e))).pending == |Live(NextRequests(s, e), RealmOf(s, e))|
  {
    hide Inv, PcOk, PointersOk, TeardownMoves, RealmOk, NextRequests, NextRealm, Live, Enabled, RealmOf, RequestOf;
    StepHasRealm(s, e);
    PendingAfter(s, e);
    RealmFacts(s, RealmOf(s, e));
    if e.Create? && RequestOf(s, e).Some? {
      PendingCreated(s, e);
    } else if e.FreeOnJs? || e.NativeFree? {
      PendingFreed(s, e);
    } else {
      PendingUntouched(s, e);
    }
  }

  lemma PendingOfNewRealm(s: World, e: Step)
    requires Inv(s) && Enabled(s, e) && e.Export?
    ensures NextRealm(s, e, NoRealm).pending == |Live(NextRequests(s, e), e.r)|
  {
    NoRequestsOfNewRealm(s, e.r);
  }

  lemma StepHasRealm(s: World, e: Step)
    requires Inv(s) && Enabled(s, e) && !e.Export?
    ensures RealmOf(s, e) in s.realms
  {
    if NativeStep(e) { RequestFacts(s, e.q); }
    hide Inv;
  }

  lemma NoRequestsOfNewRealm(s: World, r: nat)
    requires Inv(s) && r !in s.realms
    ensures Live(s.requests, r) == {}
  {
    hide RealmInv, RequestOk, NativeOk;
  }

  // ---------------------------------------------------------------- records a step leaves alone

  lemma OwnerElsewhere(s: World, e: Step, r: nat)
    requires Enabled(s, e) && (r != RealmOf(s, e) || RefusedExport(s, e))
    ensures NextOwner(s, e) == Some(r) <==> s.owner == Some(r)
  {
  }

  /** Requests of another realm are not touched. */
  lemma RequestsElsewhere(s: World, e: Step, q: nat)
    requires Inv(s) && Enabled(s, e) && q in s.requests && RequestOf(s, e) != Some(q)
    ensures q in NextRequests(s, e) && NextRequests(s, e)[q] == s.requests[q]
  {
    hide Inv, RequestOf, NextRequest;
  }

  predicate SameFor(requests: map<nat, Request>, next: map<nat, Request>, r: nat) {
    forall q :: q in requests && requests[q].realm == r ==> q in next && next[q] == requests[q]
  }

  lemma OtherRealmFrame(owner: Option<nat>, next: Option<nat>, r: nat, realm: Realm, requests: map<nat, Request>,
      nextRequests: map<nat, Request>)
    requires RealmInv(owner, r, realm, requests) && SameFor(requests, nextRequests, r)
    requires Live(nextRequests, r) == Live(requests, r) && (next == Some(r) <==> owner == Some(r))
    ensures RealmInv(next, r, realm, nextRequests)
  {
  }

  lemma OtherRealmKept(s: World, e: Step, r: nat)
    requires Inv(s) && Enabled(s, e) && r in s.realms && (r != RealmOf(s, e) || RefusedExport(s, e))
    ensures RealmInv(NextOwner(s, e), r, s.realms[r], NextRequests(s, e))
  {
    hide RealmInv, NextOwner, NextRequests, RequestOk, NativeOk, Live, RealmOf, RequestOf;
    OwnerElsewhere(s, e, r);
    ExportTouchesNothing(s, e);
    assert RealmInv(s.owner, r, s.realms[r], s.requests);
    hide Inv;
    LiveAfter(s, e, r);
    forall q | q in s.requests && s.requests[q].realm == r
      ensures q in NextRequests(s, e) && NextRequests(s, e)[q] == s.requests[q]
    {
      if RequestOf(s, e) == Some(q) {
        if e.Create? { NewIsUnused(s, e); } else { TouchedRequest(s, e); }
      }
      RequestsElsewhere(s, e, q);
    }
    OtherRealmFrame(s.owner, NextOwner(s, e), r, s.realms[r], s.requests, NextRequests(s, e));
  }

  lemma ExportTouchesNothing(s: World, e: Step)
    requires Enabled(s, e)
    ensures e.Export? ==> RequestOf(s, e).None?
  {
  }

  // ---------------------------------------------------------------- callbacks

  predicate CallbackOk(realm: Realm, requests: map<nat, Request>, q: nat)
    requires q in requests
  {
    NativeOk(q, requests[q], realm)
  }

  lemma CallbackByNative(s: World, e: Step, q: nat)
    requires Inv(s) && Enabled(s, e) && NativeStep(e)
    requires q in s.requests && s.requests[q].realm == RealmOf(s, e)
    ensures q in NextRequests(s, e) && CallbackOk(NextRealm(s, e, s.realms[RealmOf(s, e)]), NextRequests(s, e), q)
  {
    hide Inv, Live, PcOk, TeardownMoves, RealmOk;
    RequestFacts(s, e.q);
    RequestFacts(s, q);
    RealmFacts(s, RealmOf(s, e));
  }

  lemma CallbackByCall(s: World, e: Step, q: nat)
    requires Inv(s) && Enabled(s, e) && CallStep(e) && !e.Export?
    requires q in NextRequests(s, e) && (q in s.requests ==> s.requests[q].realm == e.r)
    ensures CallbackOk(NextRealm(s, e, s.realms[e.r]), NextRequests(s, e), q)
  {
    hide Inv, Live, TeardownMoves, RealmOk;
    if q in s.requests { RequestFacts(s, q); }
    RealmFacts(s, e.r);
    if e.Install? { RequestFacts(s, s.realms[e.r].js.request); }
  }

  lemma CallbackByFinish(s: World, e: Step, q: nat)
    requires Inv(s) && Enabled(s, e) && (e.FinishIfReady? || e.FinishCall? || e.FreeRealm?)
    requires q in s.requests && s.requests[q].realm == e.r
    ensures q in NextRequests(s, e) && CallbackOk(NextRealm(s, e, s.realms[e.r]), NextRequests(s, e), q)
  {
    RequestFacts(s, q);
    hide Inv, Live, TeardownMoves, RealmOk, PcOk, PointersOk, RequestOk;
  }

  lemma CallbackByRequest(s: World, e: Step, q: nat)
    requires Inv(s) && Enabled(s, e) && (e.Deliver? || e.Finalize? || e.FreeOnJs?)
    requires q in s.requests && s.requests[q].realm == e.r
    ensures q in NextRequests(s, e) && CallbackOk(NextRealm(s, e, s.realms[e.r]), NextRequests(s, e), q)
  {
    hide Inv, Live, TeardownMoves, RealmOk, HeldOk, InstalledOk, TeardownPlan;
    RequestFacts(s, q);
    RealmFacts(s, e.r);
    RequestFacts(s, RequestOf(s, e).value);
  }

  lemma CallbackByTeardown(s: World, e: Step, q: nat)
    requires Inv(s) && Enabled(s, e) && TeardownStep(e)
    requires q in s.requests && s.requests[q].realm == e.r
    ensures q in NextRequests(s, e) && CallbackOk(NextRealm(s, e, s.realms[e.r]), NextRequests(s, e), q)
  {
    hide Inv, Live, TeardownMoves;
    RequestFacts(s, q);
    RealmFacts(s, e.r);
  }

  lemma CallbackElsewhere(s: World, e: Step, q: nat)
    requires Inv(s) && Enabled(s, e)
    requires q in s.requests && (s.requests[q].realm != RealmOf(s, e) || RefusedExport(s, e))
    ensures q in NextRequests(s, e) && NextRequests(s, e)[q] == s.requests[q]
    ensures CallbackOk(s.realms[s.requests[q].realm], NextRequests(s, e), q)
  {
    hide RequestOk, NativeOk, Live, RealmOf, RequestOf, NextRequests, RealmOk, PcOk, TeardownMoves, Enabled, Inv;
    var r := s.requests[q].realm;
    RequestFacts(s, q);
    RealmFacts(s, r);
    ExportTouchesNothing(s, e);
    ElsewhereIsUntouched(s, e, q);
    if s.realms[r].stop.Some? { ElsewhereIsUntouched(s, e, s.realms[r].stop.value); }
  }

  lemma ElsewhereIsUntouched(s: World, e: Step, q: nat)
    requires Inv(s) && Enabled(s, e)
    requires q in s.requests && (s.requests[q].realm != RealmOf(s, e) || RefusedExport(s, e))
    ensures q in NextRequests(s, e) && NextRequests(s, e)[q] == s.requests[q]
  {
    hide RealmOf, RequestOf, NextRequests, Enabled, Inv;
    ExportTouchesNothing(s, e);
    if RequestOf(s, e) == Some(q) {
      if e.Create? { NewIsUnused(s, e); } else { TouchedRequest(s, e); }
    }
    RequestsElsewhere(s, e, q);
  }

  lemma CallbackHere(s: World, e: Step, q: nat)
    requires Inv(s) && Enabled(s, e) && !e.Export?
    requires q in NextRequests(s, e) && (q in s.requests ==> s.requests[q].realm == RealmOf(s, e))
    ensures CallbackOk(NextRealm(s, e, RealmAt(s, RealmOf(s, e))), NextRequests(s, e), q)
  {
    StepHasRealm(s, e);
    if q !in s.requests { RequestKeys(s, e, q); }
    hide CallbackOk, NextRealm, NextRequests, Inv;
    if NativeStep(e) { CallbackByNative(s, e, q); }
    else if CallStep(e) { CallbackByCall(s, e, q); }
    else if e.Deliver? || e.Finalize? || e.FreeOnJs? { CallbackByRequest(s, e, q); }
    else if DeliveryStep(e) { CallbackByFinish(s, e, q); }
    else { CallbackByTeardown(s, e, q); }
  }

  lemma RequestKeys(s: World, e: Step, q: nat)
    requires Inv(s) && Enabled(s, e) && q in NextRequests(s, e) && q !in s.requests
    ensures e.Create? && RequestOf(s, e) == Some(q)
  {
    hide Inv, RequestOf, NextRequest, Enabled;
    if RequestOf(s, e).Some? && !e.Create? { TouchedRequest(s, e); }
  }

  // ---------------------------------------------------------------- the invariant

  lemma RealmsKept(s: World, e: Step, r: nat)
    requires Inv(s) && Enabled(s, e) && r in NextRealms(s, e)
    ensures RealmInv(NextOwner(s, e), r, NextRealms(s, e)[r], NextRequests(s, e))
  {
    hide Inv, NextOwner, NextRequests, NextRealm, RealmOf, RealmOk, PcOk, PointersOk, TeardownMoves, Enabled, Live;
    if RefusedExport(s, e) || r != RealmOf(s, e) {
      OtherRealmKept(s, e, r);
    } else {
      RealmScalarsKept(s, e);
      RealmLinksKept(s, e);
      if e.Export? { ExportIsNew(s, e); PendingOfNewRealm(s, e); } else { PendingKept(s, e); }
    }
  }

  lemma ExportIsNew(s: World, e: Step)
    requires Enabled(s, e) && e.Export?
    ensures RealmOf(s, e) == e.r && RealmAt(s, e.r) == NoRealm
  {
  }

  lemma CallbacksKept(s: World, e: Step, q: nat)
    requires Inv(s) && Enabled(s, e) && q in NextRequests(s, e) && NextRequests(s, e)[q].realm in NextRealms(s, e)
    ensures CallbackOk(NextRealms(s, e)[NextRequests(s, e)[q].realm], NextRequests(s, e), q)
  {
    hide Inv, NextOwner, NextRequests, NextRealm, RealmOf, CallbackOk, Enabled;
    if q in s.requests && (RefusedExport(s, e) || s.requests[q].realm != RealmOf(s, e)) {
      CallbackElsewhere(s, e, q);
    } else {
      RealmOfRequest(s, e, q);
      CallbackHere(s, e, q);
    }
  }

  lemma RealmOfRequest(s: World, e: Step, q: nat)
    requires Inv(s) && Enabled(s, e) && q in NextRequests(s, e)
    requires q in s.requests ==> !RefusedExport(s, e) && s.requests[q].realm == RealmOf(s, e)
    ensures NextRequests(s, e)[q].realm == RealmOf(s, e) && !e.Export?
  {
    if q in s.requests {
      RequestFacts(s, q);
      if RequestOf(s, e) == Some(q) { SameRealm(s, e); } else { RequestsElsewhere(s, e, q); }
    } else {
      RequestKeys(s, e, q);
      SameRealm(s, e);
    }
    hide Inv, RequestOf, NextRequest;
  }

  lemma OwnerKept(s: World, e: Step)
    requires Inv(s) && Enabled(s, e)
    ensures NextOwner(s, e).Some? ==> NextOwner(s, e).value in NextRealms(s, e)
  {
    hide NextRealm;
  }

  lemma InvKept(s: World, e: Step)
    requires Inv(s) && Enabled(s, e)
    ensures Inv(Apply(s, e))
  {
    hide RealmInv, RequestOk, NativeOk, NextOwner, NextRequests, NextRealms, Enabled;
    var t := Apply(s, e);
    RequestsKept(s, e);
    OwnerKept(s, e);
    forall r | r in t.realms ensures RealmInv(t.owner, r, t.realms[r], t.requests) {
      RealmsKept(s, e, r);
    }
    forall q | q in t.requests && t.requests[q].realm in t.realms
      ensures NativeOk(q, t.requests[q], t.realms[t.requests[q].realm])
    {
      CallbacksKept(s, e, q);
    }
  }
}
