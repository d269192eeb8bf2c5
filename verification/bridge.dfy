/** The bridge between JavaScript realms and the native service (binding.c): reference-counted
    requests, the race between aborting and completing, and deferred realm teardown. Each lock
    region, and each access to a request outside the lock, is one step; the JavaScript thread
    of a realm has a program counter, and the native thread may act between any two steps. */
module Bridge {
  import opened Optional

  datatype Kind = Start | Stop

  /** The reference a request holds for its native callback. */
  datatype NativeRef =
    | Unaccepted     // the native call has not returned yet
    | Outstanding    // accepted: the callback will come
    | Called         // the callback ran, its reference is not dropped yet
    | Last           // it dropped the last reference and has yet to free the request
    | Dropped
    | Leaked         // the callback found another request installed and kept its reference

  datatype FinalizerRef = Pending | Freeing | Finalized

  /** Who released the thread-safe function. */
  datatype Tsfn = Open | ByNative | ByAbort

  datatype Request = Request(
    realm: nat,
    kind: Kind,
    generation: nat,
    references: nat,
    native: NativeRef,
    finalizer: FinalizerRef,
    completed: bool,
    aborted: bool,
    failed: bool,
    tsfn: Tsfn,
    releases: nat,       // calls that released the thread-safe function
    delivery: bool,      // a result is queued for the JavaScript thread
    settled: nat,        // settlements of the promise
    frees: nat)

  /** Program counter of a realm's JavaScript thread. */
  datatype Js =
    | Idle
    | Checked(kind: Kind, generation: nat)
    | Created(kind: Kind, request: nat)
    | Installed(kind: Kind, request: nat)
    | Refused(kind: Kind, request: nat)
    | Uninstalled(request: nat)
    | Freeing(request: nat)
    | AbortingStart(start: Option<nat>, stop: Option<nat>, generation: nat)
    | AbortingStop(stop: Option<nat>, generation: nat)
    | StoppingNative(generation: nat, hasStop: bool)
    | StopRefused
    | CheckingFinish

  datatype Realm = Realm(
    generation: nat,
    start: Option<nat>,
    stop: Option<nat>,
    pending: nat,
    exiting: bool,
    terminal: bool,
    teardown: bool,      // the deferred teardown handle is still held
    finishes: nat,       // completed teardowns
    finishCalls: nat,    // queued calls of the finish function
    stopOutstanding: bool, // teardown's own native stop was accepted and has not completed
    js: Js,
    freed: bool,
    missed: bool)        // teardown began with a stop that had completed but was not delivered

  datatype World = World(owner: Option<nat>, realms: map<nat, Realm>, requests: map<nat, Request>)

  datatype Step =
    | Export(r: nat)
    | Check(r: nat, kind: Kind, generation: nat)
    | Create(r: nat, q: nat, ok: bool)
    | Install(r: nat)
    | CallNative(r: nat, accepted: bool)
    | Uninstall(r: nat)
    | DropUnaccepted(r: nat)
    | Deliver(r: nat, q: nat)
    | Finalize(r: nat, q: nat)
    | FreeOnJs(r: nat)
    | FinishIfReady(r: nat)
    | FinishCall(r: nat)
    | Teardown(r: nat)
    | AbortStart(r: nat)
    | AbortStop(r: nat)
    | StopForTeardown(r: nat, accepted: bool)
    | GiveUpStop(r: nat)
    | NativeResult(q: nat, failed: bool)
    | NativeRelease(q: nat)
    | NativeFree(q: nat)
    | TeardownStopped(r: nat)
    | FreeRealm(r: nat)

  const NoRequest := Request(0, Start, 0, 0, Dropped, Finalized, false, false, false, Open, 0, false, 0, 0)

  /** A realm whose JavaScript thread can take a new call. */
  predicate CanRun(s: World, r: nat) {
    r in s.realms && s.realms[r].js.Idle?
  }

  predicate Enabled(s: World, e: Step) {
    match e
    case Export(r) => r !in s.realms
    case Check(r, kind, g) =>
      // the guards of start_raw and stop_raw; a call they turn away changes nothing
      && CanRun(s, r) && g > 0 && s.owner == Some(r) && !s.realms[r].exiting
      && (if kind.Start? then s.realms[r].generation == 0 else s.realms[r].generation == g && s.realms[r].stop.None?)
    case Create(r, q, _) => r in s.realms && s.realms[r].js.Checked? && q !in s.requests
    case Install(r) => r in s.realms && s.realms[r].js.Created?
    case CallNative(r, _) => r in s.realms && s.realms[r].js.Installed?
    case Uninstall(r) => r in s.realms && s.realms[r].js.Refused?
    case DropUnaccepted(r) => r in s.realms && s.realms[r].js.Uninstalled?
    case Deliver(r, q) => CanRun(s, r) && q in s.requests && s.requests[q].realm == r && s.requests[q].delivery
    case Finalize(r, q) =>
      // a finalizer runs once its function was released and its queue is drained
      CanRun(s, r) && q in s.requests && s.requests[q].realm == r && s.requests[q].finalizer.Pending?
      && !s.requests[q].tsfn.Open? && !s.requests[q].delivery
    case FreeOnJs(r) => r in s.realms && s.realms[r].js.Freeing?
    case FinishIfReady(r) => r in s.realms && s.realms[r].js.CheckingFinish?
    case FinishCall(r) => CanRun(s, r) && s.realms[r].finishCalls > 0
    case Teardown(r) => CanRun(s, r) && !s.realms[r].exiting
    case AbortStart(r) => r in s.realms && s.realms[r].js.AbortingStart?
    case AbortStop(r) => r in s.realms && s.realms[r].js.AbortingStop?
    case StopForTeardown(r, _) => r in s.realms && s.realms[r].js.StoppingNative?
    case GiveUpStop(r) => r in s.realms && s.realms[r].js.StopRefused?
    case NativeResult(q, _) => q in s.requests && s.requests[q].native.Outstanding?
    case NativeRelease(q) => q in s.requests && s.requests[q].native.Called?
    case NativeFree(q) => q in s.requests && s.requests[q].native.Last?
    case TeardownStopped(r) => r in s.realms && s.realms[r].stopOutstanding
    case FreeRealm(r) => CanRun(s, r) && !s.realms[r].freed && s.realms[r].finishes > 0 && s.realms[r].finishCalls == 0
  }

  // ---------------------------------------------------------------- which records a step changes

  /** The request a step reads or writes, if any. */
  function RequestOf(s: World, e: Step): Option<nat>
    requires Enabled(s, e)
  {
    match e
    case Create(r, q, ok) => if ok then Some(q) else None
    case CallNative(r, _) => Some(s.realms[r].js.request)
    case DropUnaccepted(r) => Some(s.realms[r].js.request)
    case Deliver(r, q) => Some(q)
    case Finalize(r, q) => Some(q)
    case FreeOnJs(r) => Some(s.realms[r].js.request)
    case AbortStart(r) => s.realms[r].js.start
    case AbortStop(r) => s.realms[r].js.stop
    case NativeResult(q, _) => Some(q)
    case NativeRelease(q) => Some(q)
    case NativeFree(q) => Some(q)
    case _ => None
  }

  /** The realm a step reads or writes. */
  function RealmOf(s: World, e: Step): nat
    requires Enabled(s, e)
  {
    match e
    case NativeResult(q, _) => s.requests[q].realm
    case NativeRelease(q) => s.requests[q].realm
    case NativeFree(q) => s.requests[q].realm
    case _ => e.r
  }

  function NewRequest(r: nat, kind: Kind, g: nat): Request {
    Request(r, kind, g, 2, Unaccepted, Pending, false, false, false, Open, 0, false, 0, 0)
  }

  /** The bridge finds its request installed in the owning realm, with the reported generation. */
  predicate Active(s: World, q: nat)
    requires q in s.requests
  {
    s.owner.Some? && s.owner.value in s.realms
    && (s.realms[s.owner.value].start == Some(q) || s.realms[s.owner.value].stop == Some(q))
  }

  /** The request after its native callback: a duplicate or foreign result returns early, and the
      reference is never dropped. */
  function Complete(req: Request, active: bool, failed: bool): Request {
    if !active || req.completed then req.(native := Leaked)
    else if req.aborted then req.(native := Called, completed := true, failed := failed)
    else req.(native := Called, completed := true, failed := failed, delivery := true, tsfn := ByNative,
        releases := req.releases + 1)
  }

  /** A stop that reports during teardown is the realm's terminal event. */
  function Reported(realm: Realm, req: Request, active: bool): Realm {
    if active && !req.completed && req.kind.Stop? && realm.exiting then realm.(terminal := true) else realm
  }

  /** abort_request: the first abort of a request that has not completed releases its function. */
  function Abort(req: Request): Request {
    if req.aborted || req.completed then req.(aborted := true)
    else req.(aborted := true, tsfn := ByAbort, releases := req.releases + 1)
  }

  /** reject_unaccepted_request: the refused native call will not call back. */
  function RejectUnaccepted(req: Request): Request {
    if req.aborted then req
    else req.(aborted := true, tsfn := ByAbort, releases := req.releases + 1, native := Dropped,
              references := if req.references > 0 then req.references - 1 else 0)
  }

  function NextRequest(s: World, e: Step, req: Request): Request
    requires Enabled(s, e)
  {
    match e
    case Create(r, q, _) => NewRequest(r, s.realms[r].js.kind, s.realms[r].js.generation)
    case CallNative(_, accepted) => if accepted then req.(native := Outstanding) else req
    case DropUnaccepted(_) => RejectUnaccepted(req)
    case Deliver(_, _) => req.(delivery := false, settled := if req.aborted then req.settled else req.settled + 1)
    case Finalize(_, _) =>
      req.(references := if req.references > 0 then req.references - 1 else 0,
           finalizer := if req.references == 1 then FinalizerRef.Freeing else Finalized)
    case FreeOnJs(_) => req.(finalizer := Finalized, frees := req.frees + 1)
    case AbortStart(_) => Abort(req)
    case AbortStop(_) => Abort(req)
    case NativeResult(q, failed) => Complete(s.requests[q], Active(s, q), failed)
    case NativeRelease(_) =>
      req.(references := if req.references > 0 then req.references - 1 else 0,
           native := if req.references == 1 then Last else Dropped)
    case NativeFree(_) => req.(native := Dropped, frees := req.frees + 1)
    case _ => req
  }

  /** The locked part of request_release, for the last reference. */
  function Release(realm: Realm, q: nat, native: bool): Realm {
    realm.(pending := if realm.pending > 0 then realm.pending - 1 else 0,
           start := if realm.start == Some(q) then None else realm.start,
           stop := if realm.stop == Some(q) then None else realm.stop,
           generation := if realm.stop == Some(q) then 0 else realm.generation,
           finishCalls := if native && realm.exiting then realm.finishCalls + 1 else realm.finishCalls)
  }

  predicate ReadyToFinish(realm: Realm) {
    realm.exiting && realm.terminal && realm.pending == 0
  }

  function FinishNow(realm: Realm): Realm {
    if ReadyToFinish(realm) && realm.teardown then realm.(teardown := false, finishes := realm.finishes + 1) else realm
  }

  /** on_js_result's locked part. */
  function Delivered(realm: Realm, q: nat, req: Request): Realm {
    if req.kind.Start? && realm.start == Some(q) then
      realm.(start := None, generation := if req.failed && realm.stop.None? then 0 else realm.generation)
    else if req.kind.Stop? && realm.stop == Some(q) then
      realm.(stop := None, generation := 0)
    else realm
  }

  function BeginTeardown(s: World, realm: Realm): Realm {
    realm.(exiting := true,
           terminal := realm.terminal || realm.generation == 0,
           missed := realm.stop.Some? && RequestAt(s, realm.stop.value).completed,
           js := AbortingStart(realm.start, realm.stop, realm.generation))
  }

  function NextRealm(s: World, e: Step, realm: Realm): Realm
    requires Enabled(s, e)
  {
    match e
    case Export(_) =>
      Realm(0, None, None, 0, false, false, true, 0, 0, false, Idle, false, false)
    case Check(_, kind, g) => realm.(js := Checked(kind, g))
    case Create(_, q, ok) =>
      if ok then realm.(pending := realm.pending + 1, js := Created(s.realms[e.r].js.kind, q)) else realm.(js := Idle)
    case Install(_) =>
      var q := s.realms[e.r].js.request;
      if s.realms[e.r].js.kind.Start? then
        realm.(generation := RequestAt(s, q).generation, start := Some(q), js := Installed(Start, q))
      else realm.(stop := Some(q), js := Installed(Stop, q))
    case CallNative(_, accepted) =>
      realm.(js := if accepted then Idle else Refused(s.realms[e.r].js.kind, s.realms[e.r].js.request))
    case Uninstall(_) =>
      var q := s.realms[e.r].js.request;
      if s.realms[e.r].js.kind.Start? then realm.(generation := 0, start := None, js := Uninstalled(q))
      else realm.(stop := None, js := Uninstalled(q))
    case DropUnaccepted(_) => realm.(js := Idle)
    case Deliver(_, q) => Delivered(realm, q, s.requests[q])
    case Finalize(_, q) => if s.requests[q].references == 1 then realm.(js := Js.Freeing(q)) else realm
    case FreeOnJs(_) => Release(realm, s.realms[e.r].js.request, false).(js := CheckingFinish)
    case FinishIfReady(_) => FinishNow(realm).(js := Idle)
    case FinishCall(_) =>
      realm.(finishCalls := if realm.finishCalls > 0 then realm.finishCalls - 1 else 0, js := CheckingFinish)
    case Teardown(_) => BeginTeardown(s, realm)
    case AbortStart(_) => realm.(js := Js.AbortingStop(s.realms[e.r].js.stop, s.realms[e.r].js.generation))
    case AbortStop(_) => realm.(js := StoppingNative(s.realms[e.r].js.generation, s.realms[e.r].js.stop.Some?))
    case StopForTeardown(_, accepted) =>
      var pc := s.realms[e.r].js;
      if pc.generation == 0 || pc.hasStop then realm.(js := CheckingFinish)
      else if accepted then realm.(stopOutstanding := true, js := CheckingFinish)
      else realm.(js := StopRefused)
    case GiveUpStop(_) => realm.(generation := 0, terminal := true, js := CheckingFinish)
    case NativeResult(q, _) => Reported(realm, s.requests[q], Active(s, q))
    case NativeRelease(_) => realm
    case NativeFree(q) => Release(realm, q, true)
    case TeardownStopped(_) =>
      realm.(generation := 0, terminal := true, stopOutstanding := false, finishCalls := realm.finishCalls + 1)
    case FreeRealm(_) => realm.(freed := true)
  }

  function NextOwner(s: World, e: Step): Option<nat>
    requires Enabled(s, e)
  {
    match e
    case Export(r) => if s.owner.None? then Some(r) else s.owner
    case FinishIfReady(r) => if ReadyToFinish(s.realms[r]) && s.owner == Some(r) then None else s.owner
    case _ => s.owner
  }

  /** A second realm is refused: it is freed again before anything else sees it. */
  predicate RefusedExport(s: World, e: Step) {
    e.Export? && s.owner.Some?
  }

  const NoRealm := Realm(0, None, None, 0, false, false, false, 0, 0, false, Idle, true, false)

  function RealmAt(s: World, r: nat): Realm {
    if r in s.realms then s.realms[r] else NoRealm
  }

  function RequestAt(s: World, q: nat): Request {
    if q in s.requests then s.requests[q] else NoRequest
  }

  function NextRealms(s: World, e: Step): map<nat, Realm>
    requires Enabled(s, e)
  {
    if RefusedExport(s, e) then s.realms
    else s.realms[RealmOf(s, e) := NextRealm(s, e, RealmAt(s, RealmOf(s, e)))]
  }

  function NextRequests(s: World, e: Step): map<nat, Request>
    requires Enabled(s, e)
  {
    var q := RequestOf(s, e);
    if q.None? then s.requests else s.requests[q.value := NextRequest(s, e, RequestAt(s, q.value))]
  }

  function Apply(s: World, e: Step): World
    requires Enabled(s, e)
  {
    World(NextOwner(s, e), NextRealms(s, e), NextRequests(s, e))
  }

  const Fresh := World(None, map[], map[])

  predicate Feasible(s: World, run: seq<Step>)
    decreases |run|
  {
    run == [] || (Enabled(s, run[0]) && Feasible(Apply(s, run[0]), run[1..]))
  }

  function Exec(s: World, run: seq<Step>): World
    requires Feasible(s, run)
    decreases |run|
  {
    if run == [] then s else Exec(Apply(s, run[0]), run[1..])
  }
}
