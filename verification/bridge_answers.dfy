/** What a native result, a teardown and its steps do, in every reachable state and over every run
    that follows. */
module BridgeAnswers {
  import opened Optional
  import opened Bridge
  import opened BridgeSafety
  import opened BridgeTheorems
  import opened BridgeTeardown

  // ---------------------------------------------------------------- native results

  /** A native result is recorded as it came. Its delivery is queued and the thread-safe function
      released, unless the request was aborted, when neither happens again; and if it is the stop of
      a realm in teardown the realm is done. A result of a request that is lost changes nothing but
      that its callback is over. */
  lemma ResultAnswers(s: World, q: nat, failed: bool)
    requires Reachable(s) && Enabled(s, NativeResult(q, failed))
    ensures s.requests[q].realm in s.realms
    ensures var s', was, r := Apply(s, NativeResult(q, failed)), s.requests[q], s.requests[q].realm;
            && q in s'.requests && r in s'.realms && s'.owner == s.owner
            && (Lost(s, q) ==> s'.requests[q] == was.(native := Leaked) && s'.realms[r] == s.realms[r])
            && (!Lost(s, q) ==>
                 && s'.requests[q].completed && s'.requests[q].failed == failed && s'.requests[q].native.Called?
                 && s'.requests[q].delivery == !was.aborted && s'.requests[q].releases == 1
                 && s'.requests[q].tsfn == (if was.aborted then ByAbort else ByNative)
                 && s'.requests[q].references == was.references && s'.requests[q].settled == was.settled
                 && s'.realms[r] ==
                      s.realms[r].(terminal := s.realms[r].terminal || (was.kind.Stop? && s.realms[r].exiting)))
  {
    NoDuplicateResult(s, q, failed);
    ReachableInv(s);
    RequestFacts(s, q);
    hide Inv, Reachable, Lost, Active, NativeOk;
  }

  lemma ResultKept(s: World, e: Step, q: nat)
    requires Inv(s) && Enabled(s, e) && q in s.requests && s.requests[q].completed
    ensures q in Apply(s, e).requests
    ensures Apply(s, e).requests[q].completed && Apply(s, e).requests[q].failed == s.requests[q].failed
  {
    RequestFacts(s, q);
    if RequestOf(s, e) != Some(q) { RequestsElsewhere(s, e, q); }
    else if e.Create? { NewIsUnused(s, e); }
    hide Inv, NextRealms, Active;
  }

  /** Whether a request failed is what its native callback said, in every run after it. */
  lemma {:induction false} ResultStays(s: World, run: seq<Step>, q: nat)
    requires Inv(s) && Feasible(s, run) && q in s.requests && s.requests[q].completed
    ensures q in Exec(s, run).requests
    ensures Exec(s, run).requests[q].completed && Exec(s, run).requests[q].failed == s.requests[q].failed
    decreases |run|
  {
    hide Inv, Apply, Enabled;
    if run != [] {
      InvKept(s, run[0]);
      ResultKept(s, run[0], q);
      ResultStays(Apply(s, run[0]), run[1..], q);
    }
  }

  /** So the result that JavaScript is given is the one that the native callback brought. */
  lemma DeliversWhatCame(s: World, q: nat, failed: bool, run: seq<Step>)
    requires Reachable(s) && Enabled(s, NativeResult(q, failed)) && !Lost(s, q)
    requires Feasible(Apply(s, NativeResult(q, failed)), run)
    ensures var t := Exec(Apply(s, NativeResult(q, failed)), run);
            q in t.requests && t.requests[q].completed && t.requests[q].failed == failed
  {
    ResultAnswers(s, q, failed);
    ReachableInv(s);
    InvKept(s, NativeResult(q, failed));
    hide Reachable, Enabled, Apply, Inv, Lost;
    ResultStays(Apply(s, NativeResult(q, failed)), run, q);
  }

  // ---------------------------------------------------------------- teardown

  predicate Aborted(requests: map<nat, Request>, held: Option<nat>) {
    held.Some? ==> held.value in requests && requests[held.value].aborted
  }

  /** How far the teardown of a realm is that began with these two requests and this generation. */
  predicate TearsDown(realm: Realm, requests: map<nat, Request>, start: Option<nat>, stop: Option<nat>, g: nat) {
    && realm.exiting
    && match realm.js
       case AbortingStart(a, b, h) => a == start && b == stop && h == g
       case AbortingStop(b, h) => b == stop && h == g && Aborted(requests, start)
       case StoppingNative(h, hasStop) =>
         h == g && hasStop == stop.Some? && Aborted(requests, start) && Aborted(requests, stop)
       case _ => Aborted(requests, start) && Aborted(requests, stop)
  }

  lemma AbortedStays(s: World, e: Step, held: Option<nat>)
    requires Inv(s) && Enabled(s, e) && Aborted(s.requests, held)
    ensures Aborted(Apply(s, e).requests, held)
  {
    if held.Some? { RequestGrows(s, e, held.value); }
    hide Inv, Apply, Enabled;
  }

  lemma AbortsNow(s: World, e: Step)
    requires Inv(s) && Enabled(s, e) && (e.AbortStart? || e.AbortStop?)
    ensures Aborted(Apply(s, e).requests, RequestOf(s, e))
  {
    RealmFacts(s, e.r);
    hide Inv, NextRealms, TeardownMoves, PointersOk, RealmOk;
  }

  /** What a step may make of the program counter of a realm that is exiting. */
  predicate Moves(e: Step, r: nat, js: Js, js': Js) {
    match js
    case AbortingStart(_, stop, g) => if e == AbortStart(r) then js' == AbortingStop(stop, g) else js' == js
    case AbortingStop(stop, g) => if e == AbortStop(r) then js' == StoppingNative(g, stop.Some?) else js' == js
    case _ => js' == js || (!js'.AbortingStart? && !js'.AbortingStop? && !js'.StoppingNative?)
  }

  lemma MovesNatively(s: World, e: Step, realm: Realm)
    requires Enabled(s, e) && (NativeStep(e) || e.TeardownStopped?)
    ensures NextRealm(s, e, realm).js == realm.js
  {
    hide Active, Release, Reported;
    if e.NativeFree? { HelpersMoveNothing(realm, e.q, NoRequest, false); }
    if e.NativeResult? { HelpersMoveNothing(realm, e.q, s.requests[e.q], Active(s, e.q)); }
  }

  lemma HelpersMoveNothing(realm: Realm, q: nat, req: Request, active: bool)
    ensures Release(realm, q, true).js == realm.js && Reported(realm, req, active).js == realm.js
  {
  }

  lemma MovesInTeardown(s: World, e: Step, r: nat)
    requires Enabled(s, e) && (e.AbortStart? || e.AbortStop? || e.StopForTeardown? || e.GiveUpStop?) && e.r == r
    ensures r in s.realms && Moves(e, r, s.realms[r].js, NextRealm(s, e, s.realms[r]).js)
  {
  }

  lemma MovesOtherwise(s: World, e: Step, r: nat)
    requires Inv(s) && Enabled(s, e) && !NativeStep(e) && !e.Export? && e.r == r && s.realms[r].exiting
    requires !(e.AbortStart? || e.AbortStop? || e.StopForTeardown? || e.GiveUpStop? || e.TeardownStopped?)
    ensures Moves(e, r, s.realms[r].js, NextRealm(s, e, s.realms[r]).js)
  {
    RealmFacts(s, r);
    hide Inv, TeardownMoves, PointersOk, RealmOk, Release, Delivered, FinishNow;
  }

  lemma PcAfter(s: World, e: Step, r: nat)
    requires Inv(s) && Enabled(s, e) && r in s.realms && s.realms[r].exiting
    ensures r in Apply(s, e).realms && Apply(s, e).realms[r].exiting
    ensures Moves(e, r, s.realms[r].js, Apply(s, e).realms[r].js)
  {
    hide Inv, NextRealm, NextRequests, NextOwner, Moves, Enabled;
    if e.Export? || RealmOf(s, e) != r {
      FinishesElsewhere(s, e, r);
      NobodyMoves(s, e, r);
    } else {
      ExitingStays(s, e, r);
      if NativeStep(e) || e.TeardownStopped? { MovesNatively(s, e, s.realms[r]); NativeMoves(e, r, s.realms[r].js); }
      else if e.AbortStart? || e.AbortStop? || e.StopForTeardown? || e.GiveUpStop? { MovesInTeardown(s, e, r); }
      else { MovesOtherwise(s, e, r); }
    }
  }

  lemma NativeMoves(e: Step, r: nat, js: Js)
    requires NativeStep(e) || e.TeardownStopped?
    ensures Moves(e, r, js, js)
  {
  }

  lemma NobodyMoves(s: World, e: Step, r: nat)
    requires Enabled(s, e) && (e.Export? || RealmOf(s, e) != r)
    ensures forall js: Js :: Moves(e, r, js, js)
  {
  }

  lemma AbortsWhich(s: World, e: Step)
    requires Enabled(s, e) && (e.AbortStart? || e.AbortStop?)
    ensures e.r in s.realms
    ensures e.AbortStart? ==> s.realms[e.r].js.AbortingStart? && RequestOf(s, e) == s.realms[e.r].js.start
    ensures e.AbortStop? ==> s.realms[e.r].js.AbortingStop? && RequestOf(s, e) == s.realms[e.r].js.stop
  {
  }

  /** The same, told of the realm and the requests before and after. */
  lemma TearsFrom(e: Step, r: nat, realm: Realm, realm': Realm, requests: map<nat, Request>,
      requests': map<nat, Request>, start: Option<nat>, stop: Option<nat>, g: nat)
    requires TearsDown(realm, requests, start, stop, g) && realm'.exiting && Moves(e, r, realm.js, realm'.js)
    requires Aborted(requests, start) ==> Aborted(requests', start)
    requires Aborted(requests, stop) ==> Aborted(requests', stop)
    requires e == AbortStart(r) && realm.js.AbortingStart? ==> Aborted(requests', realm.js.start)
    requires e == AbortStop(r) && realm.js.AbortingStop? ==> Aborted(requests', realm.js.stop)
    ensures TearsDown(realm', requests', start, stop, g)
  {
    hide Aborted;
  }

  lemma TearsOn(s: World, e: Step, r: nat, start: Option<nat>, stop: Option<nat>, g: nat)
    requires Inv(s) && Enabled(s, e) && r in s.realms && TearsDown(s.realms[r], s.requests, start, stop, g)
    ensures r in Apply(s, e).realms && TearsDown(Apply(s, e).realms[r], Apply(s, e).requests, start, stop, g)
  {
    assert s.realms[r].exiting;
    hide Inv, Apply, Aborted, Enabled, RequestOf, TearsDown, Moves;
    PcAfter(s, e, r);
    if Aborted(s.requests, start) { AbortedStays(s, e, start); }
    if Aborted(s.requests, stop) { AbortedStays(s, e, stop); }
    if e == AbortStart(r) || e == AbortStop(r) { AbortsNow(s, e); AbortsWhich(s, e); }
    TearsFrom(e, r, s.realms[r], Apply(s, e).realms[r], s.requests, Apply(s, e).requests, start, stop, g);
  }

  lemma {:induction false} TearingRun(s: World, run: seq<Step>, r: nat, start: Option<nat>, stop: Option<nat>, g: nat)
    requires Inv(s) && Feasible(s, run) && r in s.realms && TearsDown(s.realms[r], s.requests, start, stop, g)
    ensures var t := Exec(s, run); r in t.realms && TearsDown(t.realms[r], t.requests, start, stop, g)
    decreases |run|
  {
    hide Inv, Apply, Enabled, TearsDown;
    if run != [] {
      InvKept(s, run[0]);
      TearsOn(s, run[0], r, start, stop, g);
      TearingRun(Apply(s, run[0]), run[1..], r, start, stop, g);
    }
  }

  /** Teardown aborts both requests that it finds installed, in every run and whatever the native side
      does meanwhile, so neither promise ever settles after it; and when it decides about its own
      native stop, it does so by the generation and the stop that it found. */
  lemma TeardownAborts(s: World, r: nat, run: seq<Step>)
    requires Reachable(s) && Enabled(s, Teardown(r)) && Feasible(Apply(s, Teardown(r)), run)
    ensures var t, was := Exec(Apply(s, Teardown(r)), run), s.realms[r];
            && r in t.realms && t.realms[r].exiting
            && (!t.realms[r].js.AbortingStart? && !t.realms[r].js.AbortingStop? ==>
                 Aborted(t.requests, was.start) && Aborted(t.requests, was.stop))
            && (t.realms[r].js.StoppingNative? ==>
                 t.realms[r].js == StoppingNative(was.generation, was.stop.Some?))
  {
    ReachableInv(s);
    InvKept(s, Teardown(r));
    TeardownBegins(s, r);
    hide Reachable, Enabled, Apply, Inv, Aborted;
    TearingRun(Apply(s, Teardown(r)), run, r, s.realms[r].start, s.realms[r].stop, s.realms[r].generation);
  }

  /** A realm that has nothing to wait for is done when its teardown begins. */
  lemma TeardownBegins(s: World, r: nat)
    requires Inv(s) && Enabled(s, Teardown(r))
    ensures var s', was := Apply(s, Teardown(r)), s.realms[r];
            && r in s'.realms && s'.requests == s.requests && s'.owner == s.owner
            && TearsDown(s'.realms[r], s'.requests, was.start, was.stop, was.generation)
            && s'.realms[r].js.AbortingStart? && (s'.realms[r].terminal <==> was.generation == 0)
            && s'.realms[r].start == was.start && s'.realms[r].stop == was.stop
            && s'.realms[r].generation == was.generation && s'.realms[r].pending == was.pending
  {
    RealmFacts(s, r);
    hide Inv, PcOk, PointersOk, TeardownMoves;
  }

  /** Teardown stops the service itself exactly when a generation is up and no stop of it is under way.
      Then the realm is done when that stop completes, or at once if the native side refuses it. */
  lemma StopForTeardownAnswers(s: World, r: nat, accepted: bool)
    requires Reachable(s) && Enabled(s, StopForTeardown(r, accepted))
    ensures var s', was := Apply(s, StopForTeardown(r, accepted)), s.realms[r];
            var needed := was.js.generation != 0 && !was.js.hasStop;
            && r in s'.realms && s'.requests == s.requests && s'.owner == s.owner
            && (s'.realms[r].stopOutstanding <==> needed && accepted)
            && s'.realms[r].js == (if needed && !accepted then StopRefused else CheckingFinish)
            && s'.realms[r].terminal == was.terminal && s'.realms[r].generation == was.generation
  {
    ReachableInv(s);
    RealmFacts(s, r);
    hide Inv, Reachable, PointersOk, TeardownMoves;
  }

  /** Either end of that stop leaves a realm that is done and looks at once, or from a call queued to
      its own thread, whether it can finish. */
  lemma TeardownStopEnds(s: World, r: nat)
    ensures Enabled(s, GiveUpStop(r)) ==>
              var s' := Apply(s, GiveUpStop(r));
              && r in s'.realms && s'.requests == s.requests
              && s'.realms[r] == s.realms[r].(generation := 0, terminal := true, js := CheckingFinish)
    ensures Enabled(s, TeardownStopped(r)) ==>
              var s' := Apply(s, TeardownStopped(r));
              && r in s'.realms && s'.requests == s.requests && s'.realms[r].finishCalls == s.realms[r].finishCalls + 1
              && s'.realms[r].generation == 0 && s'.realms[r].terminal && !s'.realms[r].stopOutstanding
  {
  }

  /** A realm finishes exactly when it is exiting, done, and without pending requests: it gives its
      teardown handle back, and its place as the owner to the next realm. */
  lemma FinishAnswers(s: World, r: nat)
    requires Reachable(s) && Enabled(s, FinishIfReady(r))
    ensures var s', was := Apply(s, FinishIfReady(r)), s.realms[r];
            var ready := was.exiting && was.terminal && was.pending == 0 && was.teardown;
            && r in s'.realms && s'.requests == s.requests && s'.realms[r].js.Idle?
            && s'.realms[r].teardown == (was.teardown && !ready)
            && s'.realms[r].finishes == was.finishes + (if ready then 1 else 0)
            && s'.owner == (if ready then None else s.owner)
  {
    ReachableInv(s);
    RealmFacts(s, r);
    hide Inv, Reachable, PointersOk, TeardownMoves, PcOk;
  }

  /** Whoever drops the last reference frees the request, once: the realm forgets it, with the generation
      if it was the stop, counts one less, and is looked at again, on its own thread. */
  lemma FreeAnswers(s: World, e: Step)
    requires Reachable(s) && Enabled(s, e) && (e.FreeOnJs? || e.NativeFree?)
    ensures RequestOf(s, e).Some? && RequestOf(s, e).value in s.requests && RealmOf(s, e) in s.realms
    ensures var s', q, r := Apply(s, e), RequestOf(s, e).value, RealmOf(s, e);
            && q in s'.requests && r in s'.realms && s'.owner == s.owner && s.requests[q].realm == r
            && s.requests[q].frees == 0 && s'.requests[q].frees == 1 && s'.requests[q].settled == s.requests[q].settled
            && var was, now := s.realms[r], s'.realms[r];
               && was.pending > 0 && now.pending == was.pending - 1
               && now.start == (if was.start == Some(q) then None else was.start)
               && now.stop == (if was.stop == Some(q) then None else was.stop)
               && now.generation == (if was.stop == Some(q) then 0 else was.generation)
               && now.terminal == was.terminal && now.exiting == was.exiting
               && (e.FreeOnJs? ==> now.js.CheckingFinish? && now.finishCalls == was.finishCalls)
               && (e.NativeFree? ==>
                    now.js == was.js && now.finishCalls == was.finishCalls + (if was.exiting then 1 else 0))
  {
    ReachableInv(s);
    FreedRequest(s, e);
    FreedRealm(s, e);
    hide Inv, Reachable, Enabled, Apply, Live;
  }

  lemma FreedRequest(s: World, e: Step)
    requires Inv(s) && Enabled(s, e) && (e.FreeOnJs? || e.NativeFree?)
    ensures RequestOf(s, e).Some? && RequestOf(s, e).value in s.requests && RealmOf(s, e) in s.realms
    ensures var q, t := RequestOf(s, e).value, Apply(s, e).requests;
            && s.requests[q].realm == RealmOf(s, e) && q in t && t[q].settled == s.requests[q].settled
            && s.requests[q].frees == 0 && t[q].frees == 1
  {
    if e.FreeOnJs? { RealmFacts(s, e.r); RequestFacts(s, s.realms[e.r].js.request); } else { RequestFacts(s, e.q); }
    hide Inv, PointersOk, TeardownMoves, RealmOk, Live, NextRealms, NativeOk;
  }

  lemma FreedRealm(s: World, e: Step)
    requires Inv(s) && Enabled(s, e) && (e.FreeOnJs? || e.NativeFree?)
    requires RequestOf(s, e).Some? && RealmOf(s, e) in s.realms && RequestOf(s, e).value in s.requests
    requires s.requests[RequestOf(s, e).value].realm == RealmOf(s, e) && s.requests[RequestOf(s, e).value].frees == 0
    ensures RealmOf(s, e) in Apply(s, e).realms && Apply(s, e).owner == s.owner
    ensures var q, was, now := RequestOf(s, e).value, s.realms[RealmOf(s, e)], Apply(s, e).realms[RealmOf(s, e)];
            && was.pending > 0 && now.pending == was.pending - 1
            && now.start == (if was.start == Some(q) then None else was.start)
            && now.stop == (if was.stop == Some(q) then None else was.stop)
            && now.generation == (if was.stop == Some(q) then 0 else was.generation)
            && now.terminal == was.terminal && now.exiting == was.exiting
            && (e.FreeOnJs? ==> now.js.CheckingFinish? && now.finishCalls == was.finishCalls)
            && (e.NativeFree? ==>
                 now.js == was.js && now.finishCalls == was.finishCalls + (if was.exiting then 1 else 0))
  {
    var q, r := RequestOf(s, e).value, RealmOf(s, e);
    RealmFacts(s, r);
    assert q in Live(s.requests, r);
    InLive(s.requests, q, r);
    hide Inv, PointersOk, TeardownMoves, RealmOk, PcOk, NextRequests, Live;
  }
}
