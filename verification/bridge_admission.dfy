/** What JavaScript can rely on when it calls: which calls of a realm are admitted, told from the calls
    and results that its own thread has seen. */
module BridgeAdmission {
  import opened Optional
  import opened Bridge
  import opened BridgeSafety
  import opened BridgeTheorems
  import opened BridgeTeardown

  /** What the JavaScript thread of a realm knows of the service: nothing is started, or a generation
      was started by request `start`, with the stop it has asked for, if any. */
  datatype View = Free | Up(start: nat, generation: nat, stop: Option<nat>)

  /** The view after a step. A start that the native side accepts brings a generation up; a stop that
      it accepts is under way until its result is delivered, which frees the realm; and a failed
      start frees it when it is delivered, unless a stop is under way. */
  function Seen(s: World, e: Step, r: nat, v: View): View
    requires Enabled(s, e)
  {
    match e
    case CallNative(p, accepted) =>
      var q := s.realms[p].js.request;
      if p != r || !accepted then v
      else if s.realms[p].js.kind.Start? then Up(q, RequestAt(s, q).generation, None)
      else if v.Up? then v.(stop := Some(q))
      else v
    case Deliver(p, q) =>
      if p != r || v.Free? then v
      else if v.stop == Some(q) then Free
      else if v.start == q && s.requests[q].failed && v.stop.None? then Free
      else v
    case _ => v
  }

  function Watched(s: World, run: seq<Step>, r: nat, v: View): View
    requires Feasible(s, run)
    decreases |run|
  {
    if run == [] then v else Watched(Apply(s, run[0]), run[1..], r, Seen(s, run[0], r, v))
  }

  // ---------------------------------------------------------------- the realm agrees with the view

  /** The start that brought the generation up is installed until its result is delivered. */
  predicate StartAgrees(r: nat, realm: Realm, requests: map<nat, Request>, q: nat) {
    && q in requests && requests[q].realm == r && requests[q].kind.Start? && !requests[q].native.Unaccepted?
    && (realm.start == Some(q) || (realm.start.None? && requests[q].completed && !requests[q].delivery))
  }

  /** Between two calls the realm's fields say what JavaScript has seen. */
  predicate Agrees(r: nat, realm: Realm, requests: map<nat, Request>, v: View) {
    match v
    case Free => realm.generation == 0 && realm.stop.None?
    case Up(q, g, stop) => realm.generation == g && g > 0 && realm.stop == stop && StartAgrees(r, realm, requests, q)
  }

  /** And in the middle of a call they are one request ahead. */
  predicate AgreesNow(r: nat, realm: Realm, requests: map<nat, Request>, v: View) {
    match realm.js
    case Installed(kind, q) => AgreesInstalled(r, realm, requests, v, kind, q)
    case Refused(kind, q) => AgreesInstalled(r, realm, requests, v, kind, q)
    case _ => Agrees(r, realm, requests, v)
  }

  predicate AgreesInstalled(r: nat, realm: Realm, requests: map<nat, Request>, v: View, kind: Kind, q: nat) {
    if kind.Start? then v.Free?
    else
      && v.Up? && v.stop.None? && realm.generation == v.generation > 0 && realm.stop == Some(q)
      && StartAgrees(r, realm, requests, v.start)
  }

  /** Until its teardown begins. */
  predicate Follows(s: World, r: nat, v: View) {
    if r in s.realms then !s.realms[r].exiting ==> AgreesNow(r, s.realms[r], s.requests, v) else v.Free?
  }

  // ---------------------------------------------------------------- every step

  /** A request that changes only in how far its callback has come stays what the view says of it. */
  lemma SameView(r: nat, realm: Realm, requests: map<nat, Request>, v: View, q: nat, req: Request)
    requires AgreesNow(r, realm, requests, v) && q in requests
    requires req.realm == requests[q].realm && req.kind == requests[q].kind && !requests[q].native.Unaccepted?
              && !req.native.Unaccepted?
    requires requests[q].completed && !requests[q].delivery ==> req.completed && !req.delivery
    ensures AgreesNow(r, realm, requests[q := req], v)
  {
  }

  lemma ResultParts(s: World, q: nat, failed: bool, r: nat)
    requires Enabled(s, NativeResult(q, failed)) && r in s.realms && r == s.requests[q].realm && !s.realms[r].exiting
    ensures var e, req := NativeResult(q, failed), Complete(s.requests[q], Active(s, q), failed);
            && RealmOf(s, e) == r && NextRealm(s, e, s.realms[r]) == s.realms[r]
            && NextRequests(s, e) == s.requests[q := req]
            && req.realm == r && req.kind == s.requests[q].kind && !s.requests[q].native.Unaccepted?
                 && !req.native.Unaccepted?
  {
    hide Active;
  }

  lemma ReleaseParts(s: World, q: nat, r: nat)
    requires Enabled(s, NativeRelease(q)) && r in s.realms && r == s.requests[q].realm
    ensures var e, req := NativeRelease(q), NextRequest(s, NativeRelease(q), s.requests[q]);
            && RealmOf(s, e) == r && NextRealm(s, e, s.realms[r]) == s.realms[r]
            && NextRequests(s, e) == s.requests[q := req]
            && req.realm == r && req.kind == s.requests[q].kind && !s.requests[q].native.Unaccepted?
                 && !req.native.Unaccepted?
            && req.completed == s.requests[q].completed && req.delivery == s.requests[q].delivery
  {
  }

  lemma FreeParts(s: World, q: nat, r: nat)
    requires Enabled(s, NativeFree(q)) && r in s.realms && r == s.requests[q].realm && RequestOk(s.requests[q])
    requires PointersOk(r, s.realms[r], s.requests) && !s.realms[r].exiting
    ensures var e, req, realm := NativeFree(q), NextRequest(s, NativeFree(q), s.requests[q]), s.realms[r];
            && RealmOf(s, e) == r && NextRequests(s, e) == s.requests[q := req]
            && NextRealm(s, e, realm) == realm.(pending := NextRealm(s, e, realm).pending)
            && req.realm == r && req.kind == s.requests[q].kind && !s.requests[q].native.Unaccepted?
                 && !req.native.Unaccepted?
            && req.completed == s.requests[q].completed && req.delivery == s.requests[q].delivery
  {
  }

  lemma FollowsNative(s: World, e: Step, r: nat, v: View)
    requires Inv(s) && Enabled(s, e) && NativeStep(e) && r == RealmOf(s, e) && r in s.realms
    requires !s.realms[r].exiting && AgreesNow(r, s.realms[r], s.requests, v)
    ensures AgreesNow(r, NextRealm(s, e, s.realms[r]), NextRequests(s, e), v)
  {
    RequestFacts(s, e.q);
    RealmFacts(s, r);
    var req := NextRequest(s, e, s.requests[e.q]);
    assert r == s.requests[e.q].realm && (e.NativeResult? ==> s.requests[e.q].native.Outstanding?);
    hide Inv, AgreesNow, NextRealm, NextRequests, PcOk, TeardownMoves, Live, RealmOk, Enabled;
    match e {
      case NativeResult(q, failed) => ResultParts(s, q, failed, r);
      case NativeRelease(q) => ReleaseParts(s, q, r);
      case NativeFree(q) => FreeParts(s, q, r);
    }
    hide PointersOk;
    SameView(r, s.realms[r], s.requests, v, e.q, req);
    OtherCounts(r, s.realms[r], NextRealm(s, e, s.realms[r]).pending, s.requests[e.q := req], v);
  }

  lemma OtherCounts(r: nat, realm: Realm, pending: nat, requests: map<nat, Request>, v: View)
    ensures AgreesNow(r, realm.(pending := pending), requests, v) == AgreesNow(r, realm, requests, v)
  {
  }

  lemma FollowsNewCall(s: World, e: Step, r: nat, v: View)
    requires Inv(s) && Enabled(s, e) && (e.Check? || e.Create? || e.Install?) && e.r == r
    requires !s.realms[r].exiting && AgreesNow(r, s.realms[r], s.requests, v)
    ensures AgreesNow(r, NextRealm(s, e, s.realms[r]), NextRequests(s, e), v) && Seen(s, e, r, v) == v
  {
    RealmFacts(s, r);
    hide Inv, TeardownMoves, Live;
  }

  lemma FollowsAnswer(s: World, e: Step, r: nat, v: View)
    requires Inv(s) && Enabled(s, e) && (e.CallNative? || e.Uninstall? || e.DropUnaccepted?) && e.r == r
    requires !s.realms[r].exiting && AgreesNow(r, s.realms[r], s.requests, v)
    ensures AgreesNow(r, NextRealm(s, e, s.realms[r]), NextRequests(s, e), Seen(s, e, r, v))
  {
    RealmFacts(s, r);
    hide Inv, TeardownMoves, Live;
  }

  lemma FollowsDelivery(s: World, r: nat, q: nat, v: View)
    requires Inv(s) && Enabled(s, Deliver(r, q))
    requires !s.realms[r].exiting && AgreesNow(r, s.realms[r], s.requests, v)
    ensures var e := Deliver(r, q); AgreesNow(r, NextRealm(s, e, s.realms[r]), NextRequests(s, e), Seen(s, e, r, v))
  {
    RealmFacts(s, r);
    RequestFacts(s, q);
    hide Inv, TeardownMoves, Live;
  }

  lemma FollowsFinalizer(s: World, e: Step, r: nat, v: View)
    requires Inv(s) && Enabled(s, e) && e.Finalize? && e.r == r
    requires !s.realms[r].exiting && AgreesNow(r, s.realms[r], s.requests, v)
    ensures AgreesNow(r, NextRealm(s, e, s.realms[r]), NextRequests(s, e), v)
  {
    RealmFacts(s, r);
    RequestFacts(s, e.q);
    hide Inv, TeardownMoves, Live;
  }

  lemma FollowsFree(s: World, e: Step, r: nat, v: View)
    requires Inv(s) && Enabled(s, e) && e.FreeOnJs? && e.r == r
    requires !s.realms[r].exiting && AgreesNow(r, s.realms[r], s.requests, v)
    ensures AgreesNow(r, NextRealm(s, e, s.realms[r]), NextRequests(s, e), v)
  {
    RealmFacts(s, r);
    hide Inv, TeardownMoves, Live;
  }

  lemma FollowsFinish(s: World, e: Step, r: nat, v: View)
    requires Inv(s) && Enabled(s, e) && (e.FinishIfReady? || e.FinishCall? || e.FreeRealm?) && e.r == r
    requires !s.realms[r].exiting && AgreesNow(r, s.realms[r], s.requests, v)
    ensures AgreesNow(r, NextRealm(s, e, s.realms[r]), NextRequests(s, e), v)
  {
    RealmFacts(s, r);
    hide Inv, TeardownMoves, Live;
  }

  lemma FollowsHere(s: World, e: Step, r: nat, v: View)
    requires Inv(s) && Enabled(s, e) && !e.Export? && RealmOf(s, e) == r && r in s.realms && Follows(s, r, v)
    ensures Follows(Apply(s, e), r, Seen(s, e, r, v))
  {
    if s.realms[r].exiting {
      if e.Teardown? { RealmFacts(s, r); }
      ExitingOn(s, e, r);
    } else if TeardownStep(e) {
      BeginsExiting(s, e, r);
    } else {
      hide Inv, AgreesNow, Enabled, NextRealm, NextRequests;
      HereOf(s, e, r);
      if NativeStep(e) { FollowsNative(s, e, r, v); }
      else if e.Check? || e.Create? || e.Install? { FollowsNewCall(s, e, r, v); }
      else if CallStep(e) { FollowsAnswer(s, e, r, v); }
      else if e.Deliver? { FollowsDelivery(s, r, e.q, v); }
      else if e.Finalize? { FollowsFinalizer(s, e, r, v); }
      else if e.FreeOnJs? { FollowsFree(s, e, r, v); }
      else { FollowsFinish(s, e, r, v); }
    }
    hide Inv, Seen, AgreesNow;
  }

  lemma HereOf(s: World, e: Step, r: nat)
    requires Inv(s) && Enabled(s, e) && !e.Export? && RealmOf(s, e) == r && r in s.realms
    ensures !NativeStep(e) ==> e.r == r
    ensures r in Apply(s, e).realms && Apply(s, e).realms[r] == NextRealm(s, e, s.realms[r])
    ensures Apply(s, e).requests == NextRequests(s, e)
  {
    hide Inv, NextRealm, NextRequests;
  }

  lemma ExitingOn(s: World, e: Step, r: nat)
    requires Inv(s) && Enabled(s, e) && !e.Export? && RealmOf(s, e) == r && r in s.realms && s.realms[r].exiting
    ensures r in Apply(s, e).realms && Apply(s, e).realms[r].exiting
  {
    ExitingStays(s, e, r);
    hide Inv, Enabled, Apply;
  }

  /** Of the steps of teardown only its first can come before it has begun. */
  lemma BeginsExiting(s: World, e: Step, r: nat)
    requires Inv(s) && Enabled(s, e) && TeardownStep(e) && RealmOf(s, e) == r && r in s.realms && !s.realms[r].exiting
    ensures r in Apply(s, e).realms && Apply(s, e).realms[r].exiting
  {
    RealmFacts(s, r);
    hide Inv, TeardownMoves, Live, PointersOk, NextRequests;
  }

  lemma FollowsElsewhere(s: World, e: Step, r: nat, v: View)
    requires Inv(s) && Enabled(s, e) && (e.Export? || RealmOf(s, e) != r) && r in s.realms && Follows(s, r, v)
    ensures Follows(Apply(s, e), r, Seen(s, e, r, v))
  {
    hide Inv, Seen, Apply, Enabled, AgreesNow;
    SeenElsewhere(s, e, r, v);
    FinishesElsewhere(s, e, r);
    if !s.realms[r].exiting { ElsewhereAgrees(s, e, r, v); }
  }

  lemma ElsewhereAgrees(s: World, e: Step, r: nat, v: View)
    requires Inv(s) && Enabled(s, e) && (e.Export? || RealmOf(s, e) != r) && r in s.realms
    requires AgreesNow(r, s.realms[r], s.requests, v)
    ensures AgreesNow(r, s.realms[r], Apply(s, e).requests, v)
  {
    assert Apply(s, e).requests == NextRequests(s, e);
    hide Inv, Apply, NextRequests, RealmOf, Enabled, AgreesNow;
    if v.Up? && v.start in s.requests && s.requests[v.start].realm == r {
      if e.Export? { ExportChangesNothing(s, e); } else { ElsewhereIsUntouched(s, e, v.start); }
    }
    OnlyStartMatters(r, s.realms[r], s.requests, NextRequests(s, e), v);
  }

  lemma ExportChangesNothing(s: World, e: Step)
    requires Enabled(s, e) && e.Export?
    ensures NextRequests(s, e) == s.requests
  {
  }

  lemma OnlyStartMatters(r: nat, realm: Realm, requests: map<nat, Request>, requests': map<nat, Request>, v: View)
    requires AgreesNow(r, realm, requests, v)
    requires v.Up? && v.start in requests && requests[v.start].realm == r ==>
               v.start in requests' && requests'[v.start] == requests[v.start]
    ensures AgreesNow(r, realm, requests', v)
  {
  }

  lemma SeenElsewhere(s: World, e: Step, r: nat, v: View)
    requires Inv(s) && Enabled(s, e) && (e.Export? || RealmOf(s, e) != r)
    ensures Seen(s, e, r, v) == v
  {
    hide Inv;
  }

  lemma FollowsBirth(s: World, e: Step, r: nat, v: View)
    requires Inv(s) && Enabled(s, e) && r !in s.realms && v.Free?
    ensures Follows(Apply(s, e), r, Seen(s, e, r, v))
  {
    if !e.Export? { StepHasRealm(s, e); }
    hide Inv, NextRequests;
  }

  lemma FollowsStep(s: World, e: Step, r: nat, v: View)
    requires Inv(s) && Enabled(s, e) && Follows(s, r, v)
    ensures Follows(Apply(s, e), r, Seen(s, e, r, v))
  {
    if r !in s.realms { FollowsBirth(s, e, r, v); }
    else if e.Export? || RealmOf(s, e) != r { FollowsElsewhere(s, e, r, v); }
    else { FollowsHere(s, e, r, v); }
    hide Inv, Enabled, Apply, Follows, Seen;
  }

  lemma {:induction false} FollowsRun(s: World, run: seq<Step>, r: nat, v: View)
    requires Inv(s) && Feasible(s, run) && Follows(s, r, v)
    ensures Inv(Exec(s, run)) && Follows(Exec(s, run), r, Watched(s, run, r, v))
    decreases |run|
  {
    if run != [] {
      hide Inv, Enabled, Apply, Follows, Seen;
      InvKept(s, run[0]);
      FollowsStep(s, run[0], r, v);
      FollowsRun(Apply(s, run[0]), run[1..], r, Seen(s, run[0], r, v));
    }
  }

  // ---------------------------------------------------------------- what is admitted

  /** An idle realm before its teardown admits a start exactly when JavaScript sees nothing started,
      and the stop of exactly the generation that it sees up and has not asked to stop. In
      particular it starts again after a failed start, a refused one, and a stop. */
  lemma AdmitsExactly(run: seq<Step>, r: nat, g: nat)
    requires Feasible(Fresh, run) && g > 0
    ensures var s, v := Exec(Fresh, run), Watched(Fresh, run, r, Free);
            r in s.realms && !s.realms[r].exiting && s.realms[r].js.Idle? ==>
              && (Enabled(s, Check(r, Start, g)) <==> v.Free?)
              && (Enabled(s, Check(r, Stop, g)) <==> v.Up? && v.generation == g && v.stop.None?)
  {
    FollowsRun(Fresh, run, r, Free);
    var s := Exec(Fresh, run);
    if r in s.realms { RealmFacts(s, r); }
    hide Inv, Watched, PcOk, PointersOk, TeardownMoves, Live;
  }

  /** What one delivery does: the request is no longer installed, a failed start without a stop and
      every stop leave nothing started, and the promise settles once unless it was aborted. */
  lemma DeliveryAnswers(s: World, r: nat, q: nat)
    requires Reachable(s) && Enabled(s, Deliver(r, q))
    ensures var s', realm, req := Apply(s, Deliver(r, q)), s.realms[r], s.requests[q];
            && r in s'.realms && q in s'.requests && !s'.requests[q].delivery
            && s'.requests[q].settled == (if req.aborted then 0 else 1)
            && (realm.start == Some(q) ==>
                 && s'.realms[r].start.None? && s'.realms[r].stop == realm.stop
                 && s'.realms[r].generation == (if req.failed && realm.stop.None? then 0 else realm.generation))
            && (realm.stop == Some(q) ==> s'.realms[r].stop.None? && s'.realms[r].generation == 0)
            && (realm.start != Some(q) && realm.stop != Some(q) ==> s'.realms[r] == realm)
  {
    ReachableInv(s);
    RequestFacts(s, q);
    RealmFacts(s, r);
    hide Inv, PcOk, TeardownMoves, Live, Reachable;
  }
}
