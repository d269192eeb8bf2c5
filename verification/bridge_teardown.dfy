/** Progress of the bridge: every step of a realm but a new call brings it closer to the point
    where nothing is left to do and every request is freed, and how its teardown ends is decided
    at the teardown's first step. */
module BridgeTeardown {
  import opened Optional
  import opened Sums
  import opened Bridge
  import opened BridgeSafety
  import opened BridgeTheorems

  function NativeRank(native: NativeRef): nat {
    match native
    case Unaccepted => 9
    case Outstanding => 8
    case Called => 6
    case Last => 5
    case Dropped => 0
    case Leaked => 0
  }

  function FinalizerRank(finalizer: FinalizerRef): nat {
    match finalizer
    case Pending => 4
    case Freeing => 2
    case Finalized => 0
  }

  /** What a request still costs: its callback, its delivery and its finalizer. */
  function RequestRank(q: Request): nat {
    NativeRank(q.native) + FinalizerRank(q.finalizer) + if q.delivery then 1 else 0
  }

  function JsRank(js: Js): nat {
    match js
    case Checked(_, _) => 18
    case Created(_, _) => 4
    case Installed(_, _) => 3
    case Refused(_, _) => 2
    case Uninstalled(_) => 1
    case AbortingStart(_, _, _) => 8
    case AbortingStop(_, _) => 7
    case StoppingNative(_, _) => 6
    case StopRefused => 5
    case Freeing(_) => 1
    case CheckingFinish => 1
    case Idle => 0
  }

  /** What the realm itself still costs: its program counter, queued finish calls, its teardown,
      teardown's own stop and its memory. */
  function RealmRank(realm: Realm): nat {
    JsRank(realm.js) + 3 * realm.finishCalls + (if realm.exiting then 0 else 9)
    + (if realm.stopOutstanding then 4 else 0) + (if realm.freed then 0 else 1)
  }

  function RequestRanks(requests: map<nat, Request>, r: nat): map<nat, nat> {
    map q | q in requests && requests[q].realm == r :: RequestRank(requests[q])
  }

  /** Bounds the steps that a realm, and the native thread on its requests, can take without a
      new call. */
  ghost function Rank(s: World, r: nat): nat
    requires r in s.realms
  {
    Sum(RequestRanks(s.requests, r)) + RealmRank(s.realms[r])
  }

  /** A step of the realm or of the native thread on one of its requests. */
  predicate StepOf(s: World, e: Step, r: nat)
    requires Enabled(s, e)
  {
    !e.Export? && RealmOf(s, e) == r
  }

  // ---------------------------------------------------------------- one step

  /** The cost of the step's request before and after it. */
  function CostBefore(s: World, e: Step): nat
    requires Enabled(s, e)
  {
    if RequestOf(s, e).Some? then RequestRank(RequestAt(s, RequestOf(s, e).value)) else 0
  }

  function CostAfter(s: World, e: Step): nat
    requires Enabled(s, e)
  {
    if RequestOf(s, e).Some? then RequestRank(NextRequest(s, e, RequestAt(s, RequestOf(s, e).value))) else 0
  }

  ghost predicate Cheaper(s: World, e: Step)
    requires Enabled(s, e)
  {
    var realm := RealmAt(s, RealmOf(s, e));
    CostAfter(s, e) + RealmRank(NextRealm(s, e, realm)) < CostBefore(s, e) + RealmRank(realm)
  }

  lemma DeliverCheaper(s: World, r: nat, q: nat)
    requires Enabled(s, Deliver(r, q))
    ensures Cheaper(s, Deliver(r, q))
  {
    hide Active;
  }

  lemma FinalizeCheaper(s: World, r: nat, q: nat)
    requires Enabled(s, Finalize(r, q))
    ensures Cheaper(s, Finalize(r, q))
  {
    hide Active;
  }

  lemma FreeOnJsCheaper(s: World, r: nat)
    requires Enabled(s, FreeOnJs(r)) && s.realms[r].js.request in s.requests
              && s.requests[s.realms[r].js.request].finalizer.Freeing?
    ensures Cheaper(s, FreeOnJs(r))
  {
    hide Active;
  }

  lemma FinishCheaper(s: World, e: Step)
    requires Enabled(s, e) && (e.FinishIfReady? || e.FinishCall? || e.FreeRealm?)
    ensures Cheaper(s, e)
  {
    hide Active;
  }

  lemma AbortCheaper(s: World, e: Step)
    requires Enabled(s, e) && (e.AbortStart? || e.AbortStop?)
    ensures Cheaper(s, e)
  {
    hide Active;
  }

  lemma TeardownBeginsCheaper(s: World, r: nat)
    requires Enabled(s, Teardown(r))
    ensures Cheaper(s, Teardown(r))
  {
    hide Active;
  }

  lemma CreateCheaper(s: World, r: nat, q: nat, ok: bool)
    requires Enabled(s, Create(r, q, ok))
    ensures Cheaper(s, Create(r, q, ok))
  {
    hide Active;
  }

  lemma InstallCheaper(s: World, e: Step)
    requires Enabled(s, e) && (e.Install? || e.Uninstall?)
    ensures Cheaper(s, e)
  {
    hide Active;
  }

  lemma AcceptCheaper(s: World, e: Step)
    requires Enabled(s, e) && (e.CallNative? || e.DropUnaccepted?)
    requires s.realms[e.r].js.request in s.requests && s.requests[s.realms[e.r].js.request].native.Unaccepted?
    ensures Cheaper(s, e)
  {
    hide Active;
  }

  lemma StopForTeardownCheaper(s: World, r: nat, accepted: bool)
    requires Enabled(s, StopForTeardown(r, accepted)) && !s.realms[r].stopOutstanding
    ensures Cheaper(s, StopForTeardown(r, accepted))
  {
    hide Active;
  }

  lemma StopEndsCheaper(s: World, e: Step)
    requires Enabled(s, e) && (e.GiveUpStop? || e.TeardownStopped?)
    ensures Cheaper(s, e)
  {
    hide Active;
  }

  lemma NativeResultCheaper(s: World, q: nat, failed: bool)
    requires Enabled(s, NativeResult(q, failed))
    ensures Cheaper(s, NativeResult(q, failed))
  {
    hide Active;
  }

  lemma NativeReleaseCheaper(s: World, q: nat)
    requires Enabled(s, NativeRelease(q))
    ensures Cheaper(s, NativeRelease(q))
  {
    hide Active;
  }

  lemma NativeFreeCheaper(s: World, q: nat)
    requires Enabled(s, NativeFree(q))
    ensures Cheaper(s, NativeFree(q))
  {
    hide Active;
  }

  lemma NativeCheaper(s: World, e: Step)
    requires Enabled(s, e) && NativeStep(e)
    ensures Cheaper(s, e)
  {
    hide Enabled, Cheaper;
    match e
    case NativeResult(q, failed) => NativeResultCheaper(s, q, failed);
    case NativeRelease(q) => NativeReleaseCheaper(s, q);
    case NativeFree(q) => NativeFreeCheaper(s, q);
  }

  lemma NotStoppedYet(s: World, r: nat)
    requires Inv(s) && r in s.realms && s.realms[r].js.StoppingNative?
    ensures !s.realms[r].stopOutstanding
  {
    RealmFacts(s, r);
    hide Inv, TeardownMoves, PointersOk, Live;
  }

  lemma UnacceptedKnown(s: World, r: nat)
    requires Inv(s) && r in s.realms && (s.realms[r].js.Installed? || s.realms[r].js.Uninstalled?)
    ensures s.realms[r].js.request in s.requests && s.requests[s.realms[r].js.request].native.Unaccepted?
  {
    RealmFacts(s, r);
    hide Inv, TeardownMoves, PointersOk, Live;
  }

  lemma CallCheaper(s: World, e: Step)
    requires Inv(s) && Enabled(s, e) && CallStep(e) && !e.Export? && !e.Check?
    ensures Cheaper(s, e)
  {
    if e.CallNative? || e.DropUnaccepted? { UnacceptedKnown(s, e.r); }
    hide Inv, Cheaper, Enabled;
    match e
    case Create(r, q, ok) => CreateCheaper(s, r, q, ok);
    case CallNative(_, _) => AcceptCheaper(s, e);
    case DropUnaccepted(_) => AcceptCheaper(s, e);
    case _ => InstallCheaper(s, e);
  }

  lemma DeliveryCheaper(s: World, e: Step)
    requires Inv(s) && Enabled(s, e) && DeliveryStep(e)
    ensures Cheaper(s, e)
  {
    if e.FreeOnJs? { FreeingIsKnown(s, e.r); }
    hide Inv, Cheaper, Enabled;
    match e
    case Deliver(r, q) => DeliverCheaper(s, r, q);
    case Finalize(r, q) => FinalizeCheaper(s, r, q);
    case FreeOnJs(r) => FreeOnJsCheaper(s, r);
    case _ => FinishCheaper(s, e);
  }

  lemma TeardownCheaper(s: World, e: Step)
    requires Inv(s) && Enabled(s, e) && TeardownStep(e)
    ensures Cheaper(s, e)
  {
    if e.StopForTeardown? { NotStoppedYet(s, e.r); }
    hide Inv, Cheaper, Enabled;
    match e
    case Teardown(r) => TeardownBeginsCheaper(s, r);
    case AbortStart(_) => AbortCheaper(s, e);
    case AbortStop(_) => AbortCheaper(s, e);
    case StopForTeardown(r, accepted) => StopForTeardownCheaper(s, r, accepted);
    case _ => StopEndsCheaper(s, e);
  }

  lemma ExitingSteps(s: World, e: Step, r: nat)
    requires Inv(s) && Enabled(s, e) && StepOf(s, e, r) && r in s.realms && s.realms[r].exiting
    ensures !CallStep(e) && !e.Teardown?
  {
    RealmFacts(s, r);
    hide Inv, TeardownMoves, PointersOk, Live;
  }

  lemma StepCheaper(s: World, e: Step, r: nat)
    requires Inv(s) && Enabled(s, e) && StepOf(s, e, r) && !e.Check?
    ensures Cheaper(s, e)
  {
    hide Inv, Enabled, Cheaper;
    if NativeStep(e) { NativeCheaper(s, e); }
    else if DeliveryStep(e) { DeliveryCheaper(s, e); }
    else if TeardownStep(e) { TeardownCheaper(s, e); }
    else { CallCheaper(s, e); }
  }

  lemma RanksUpdate(requests: map<nat, Request>, q: nat, req: Request, r: nat)
    requires req.realm == r && (q in requests ==> requests[q].realm == r)
    ensures RequestRanks(requests[q := req], r) == RequestRanks(requests, r)[q := RequestRank(req)]
    ensures q in requests ==> q in RequestRanks(requests, r) && RequestRanks(requests, r)[q] == RequestRank(requests[q])
  {
    hide RequestRank;
  }

  lemma RanksElsewhere(requests: map<nat, Request>, q: nat, req: Request, r: nat)
    requires req.realm != r && (q in requests ==> requests[q].realm != r)
    ensures RequestRanks(requests[q := req], r) == RequestRanks(requests, r)
  {
    hide RequestRank;
  }

  lemma NewCostsNothing(s: World, e: Step)
    requires Enabled(s, e) && e.Create? && RequestOf(s, e).Some?
    ensures RequestOf(s, e) == Some(e.q) && e.q !in s.requests && CostBefore(s, e) == 0
    ensures forall r :: e.q !in RequestRanks(s.requests, r)
  {
  }

  lemma RanksAfter(s: World, e: Step, r: nat)
    requires Inv(s) && Enabled(s, e) && StepOf(s, e, r)
    ensures Sum(RequestRanks(NextRequests(s, e), r)) + CostBefore(s, e)
              == Sum(RequestRanks(s.requests, r)) + CostAfter(s, e)
  {
    hide Inv, Enabled, RequestOf, RealmOf, NextRequest, RequestRank, RequestRanks;
    if RequestOf(s, e).Some? {
      var q := RequestOf(s, e).value;
      if e.Create? { NewCostsNothing(s, e); } else { TouchedRequest(s, e); }
      SameRealm(s, e);
      RanksUpdate(s.requests, q, NextRequest(s, e, RequestAt(s, q)), r);
      SumUpdate(RequestRanks(s.requests, r), q, CostAfter(s, e));
    }
  }

  /** Whatever a realm or the native thread does on its requests, teardown included, the rank
      goes down; only a new call raises it. */
  lemma RankDrops(s: World, e: Step, r: nat)
    requires Inv(s) && Enabled(s, e) && StepOf(s, e, r) && !e.Check? && r in s.realms
    ensures r in Apply(s, e).realms && Rank(Apply(s, e), r) < Rank(s, r)
  {
    hide Inv, Enabled, RequestOf, RealmOf, NextRequests, NextRealm, RealmRank, RequestRank, RequestRanks;
    StepCheaper(s, e, r);
    RanksAfter(s, e, r);
  }

  /** The steps of other realms leave the rank alone. */
  lemma RankStays(s: World, e: Step, r: nat)
    requires Inv(s) && Enabled(s, e) && !StepOf(s, e, r) && r in s.realms
    ensures r in Apply(s, e).realms && Apply(s, e).realms[r] == s.realms[r] && Rank(Apply(s, e), r) == Rank(s, r)
  {
    hide Inv, Enabled, RequestOf, RealmOf, NextRequest, NextRealms, NextRealm, RequestRank, RequestRanks, RealmRank;
    FinishesElsewhere(s, e, r);
    ExportTouchesNothing(s, e);
    if RequestOf(s, e).Some? {
      if e.Create? { NewIsUnused(s, e); } else { TouchedRequest(s, e); }
      SameRealm(s, e);
      RanksElsewhere(s.requests, RequestOf(s, e).value, NextRequest(s, e, RequestAt(s, RequestOf(s, e).value)), r);
    }
  }

  lemma ExitingStays(s: World, e: Step, r: nat)
    requires Inv(s) && Enabled(s, e) && r in s.realms && s.realms[r].exiting
    ensures r in Apply(s, e).realms && Apply(s, e).realms[r].exiting
              && Apply(s, e).realms[r].missed == s.realms[r].missed
  {
    if StepOf(s, e, r) {
      ExitingSteps(s, e, r);
      ExitingHere(s, e, r);
    } else {
      RankStays(s, e, r);
    }
    hide Inv, Enabled, Apply;
  }

  lemma ExitingHere(s: World, e: Step, r: nat)
    requires Enabled(s, e) && StepOf(s, e, r) && r in s.realms && !CallStep(e) && !e.Teardown?
    ensures r in Apply(s, e).realms && Apply(s, e).realms[r].exiting == s.realms[r].exiting
              && Apply(s, e).realms[r].missed == s.realms[r].missed
  {
    hide NextRequests, Active, Enabled;
    if NativeStep(e) {
    } else if DeliveryStep(e) {
    } else {
    }
  }

  // ---------------------------------------------------------------- every run

  /** How many steps of a run are steps of the realm. */
  function StepsOf(s: World, run: seq<Step>, r: nat): nat
    requires Feasible(s, run)
    decreases |run|
  {
    if run == [] then 0 else (if StepOf(s, run[0], r) then 1 else 0) + StepsOf(Apply(s, run[0]), run[1..], r)
  }

  lemma {:induction false} TeardownEnds(s: World, run: seq<Step>, r: nat)
    requires Inv(s) && Feasible(s, run) && r in s.realms && s.realms[r].exiting
    ensures var t := Exec(s, run);
            Inv(t) && r in t.realms && t.realms[r].exiting && t.realms[r].missed == s.realms[r].missed
            && StepsOf(s, run, r) + Rank(t, r) <= Rank(s, r)
            && forall q :: LostOf(t, r, q) <==> LostOf(s, r, q)
    decreases |run|
  {
    if run != [] {
      hide Inv, Enabled, Apply, Rank, StepOf, LostOf;
      forall q ensures LostOf(Apply(s, run[0]), r, q) <==> LostOf(s, r, q) { ExitingLoses(s, run[0], r, q); }
      InvKept(s, run[0]);
      ExitingStays(s, run[0], r);
      if StepOf(s, run[0], r) { ExitingSteps(s, run[0], r); RankDrops(s, run[0], r); } else { RankStays(s, run[0], r); }
      TeardownEnds(Apply(s, run[0]), run[1..], r);
    }
  }

  /** The realm takes no new call in the run. */
  predicate NoNewCalls(run: seq<Step>, r: nat) {
    forall i :: 0 <= i < |run| && run[i].Check? ==> run[i].r != r
  }

  lemma {:induction false} RunsEnd(s: World, run: seq<Step>, r: nat)
    requires Inv(s) && Feasible(s, run) && NoNewCalls(run, r) && r in s.realms
    ensures var t := Exec(s, run); Inv(t) && r in t.realms && StepsOf(s, run, r) + Rank(t, r) <= Rank(s, r)
    decreases |run|
  {
    if run != [] {
      assert run[0].Check? ==> !StepOf(s, run[0], r);
      hide Inv, Enabled, Apply, Rank, StepOf;
      InvKept(s, run[0]);
      if StepOf(s, run[0], r) { RankDrops(s, run[0], r); } else { RankStays(s, run[0], r); }
      RunsEnd(Apply(s, run[0]), run[1..], r);
    }
  }

  /** Every request that is not lost is freed exactly once, under any schedule. Without a new call a
      realm and the native thread on its requests take at most Rank(s, r) steps, whatever the other
      realms do and whether or not it is torn down meanwhile; and when none is left, every request of
      the realm has been freed and its function released exactly once, and its promise has settled
      exactly once unless it was aborted, except those that a later start was installed over. */
  lemma EveryRequestFreed(s: World, run: seq<Step>, r: nat)
    requires Reachable(s) && Feasible(s, run) && NoNewCalls(run, r) && r in s.realms
    ensures StepsOf(s, run, r) <= Rank(s, r)
    ensures var t := Exec(s, run);
            r in t.realms && (!CanMove(t, r) ==>
              && (t.realms[r].pending == 0 <==> forall q :: q in t.requests && t.requests[q].realm == r ==> !Lost(t, q))
              && forall q :: q in t.requests && t.requests[q].realm == r ==>
                   && (t.requests[q].frees == 1 <==> !Lost(t, q))
                   && (!Lost(t, q) ==>
                        t.requests[q].releases == 1 && (t.requests[q].settled == 1 || t.requests[q].aborted)))
  {
    ReachableInv(s);
    RunsEnd(s, run, r);
    hide Inv, Enabled, Apply, Reachable, Rank, CanMove, Lost;
    ReachableRun(s, run);
    if !CanMove(Exec(s, run), r) { RestFreesRequests(Exec(s, run), r); }
  }

  /** With patient callers that is every request. */
  lemma PatientFreesAll(run: seq<Step>, r: nat)
    requires Feasible(Fresh, run) && Patient(Fresh, run)
    ensures var t := Exec(Fresh, run);
            r in t.realms && !CanMove(t, r) ==>
              && t.realms[r].pending == 0
              && forall q :: q in t.requests && t.requests[q].realm == r ==> t.requests[q].frees == 1
  {
    var t := Exec(Fresh, run);
    assert Reachable(t);
    hide Inv, Enabled, Apply, Reachable, CanMove, Lost, Patient;
    forall q ensures !Lost(t, q) { PatientLosesNothing(run, q); }
    if r in t.realms && !CanMove(t, r) { RestFreesRequests(t, r); }
  }

  predicate LostOf(s: World, r: nat, q: nat) {
    Lost(s, q) && s.requests[q].realm == r
  }

  /** Teardown loses no request, and finds none again. */
  lemma ExitingLoses(s: World, e: Step, r: nat, q: nat)
    requires Inv(s) && Enabled(s, e) && r in s.realms && s.realms[r].exiting
    ensures LostOf(Apply(s, e), r, q) <==> LostOf(s, r, q)
  {
    RealmFacts(s, r);
    assert !s.realms[r].js.Created?;
    hide Inv, Apply, Enabled, Lost, RealmOk, PcOk, PointersOk, TeardownMoves, Live;
    if q in s.requests {
      CallbackAfter(s, e, q);
      if Lost(s, q) { LostStays(s, e, q); } else { LostFrom(s, e, q); }
    } else {
      NewIsNotLost(s, e, q);
      assert !Lost(s, q) by { NotThere(s, q); }
    }
  }

  lemma NotThere(s: World, q: nat)
    requires q !in s.requests
    ensures !Lost(s, q)
  {
  }

  lemma TeardownBegins(s: World, r: nat)
    requires Enabled(s, Teardown(r))
    ensures r in Apply(s, Teardown(r)).realms && Apply(s, Teardown(r)).realms[r].exiting
    ensures forall q :: LostOf(Apply(s, Teardown(r)), r, q) <==> LostOf(s, r, q)
  {
  }

  lemma LostAreThere(s: World, r: nat)
    ensures (forall q :: q in s.requests && s.requests[q].realm == r ==> !Lost(s, q)) <==>
              (forall q :: !LostOf(s, r, q))
  {
    if forall q :: q in s.requests && s.requests[q].realm == r ==> !Lost(s, q) {
      forall q ensures !LostOf(s, r, q) {}
    } else {
      var q :| q in s.requests && s.requests[q].realm == r && Lost(s, q);
      assert LostOf(s, r, q);
    }
  }

  /** From its first step on, a realm's teardown takes a bounded number of steps in any run,
      whatever the other realms do; and when none is left it has finished exactly when it did not
      begin between the native completion of the realm's stop and the delivery of that result, nor
      after a request of the realm was lost. */
  lemma TeardownOutcome(s: World, r: nat, run: seq<Step>)
    requires Reachable(s) && Enabled(s, Teardown(r)) && Feasible(Apply(s, Teardown(r)), run)
    ensures r in Apply(s, Teardown(r)).realms
              && StepsOf(Apply(s, Teardown(r)), run, r) <= Rank(Apply(s, Teardown(r)), r)
    ensures var t := Exec(Apply(s, Teardown(r)), run);
            r in t.realms && (!CanMove(t, r) ==>
              (t.realms[r].finishes == 1 <==>
                && !(s.realms[r].stop.Some? && s.realms[r].stop.value in s.requests
                     && s.requests[s.realms[r].stop.value].delivery)
                && forall q :: !LostOf(s, r, q)))
  {
    var s1 := Apply(s, Teardown(r));
    ReachableInv(s);
    InvKept(s, Teardown(r));
    TeardownBegins(s, r);
    MissedExactly(s, r);
    TeardownEnds(s1, run, r);
    hide Inv, Enabled, Apply, Reachable, Rank, CanMove, Lost;
    ReachableStep(s, Teardown(r));
    ReachableRun(s1, run);
    var t := Exec(s1, run);
    assert forall q :: LostOf(t, r, q) <==> LostOf(s, r, q);
    if !CanMove(t, r) {
      TeardownFinishesUnlessMissed(t, r);
      LostAreThere(t, r);
    }
  }

  /** A realm that missed its terminal event never finishes and keeps the library, in every run. */
  lemma MissedNeverFinishes(s: World, run: seq<Step>, r: nat)
    requires Reachable(s) && Feasible(s, run) && r in s.realms && s.realms[r].missed
    ensures r in Exec(s, run).realms && Exec(s, run).realms[r].finishes == 0 && Exec(s, run).owner == Some(r)
  {
    ReachableInv(s);
    RealmFacts(s, r);
    TeardownEnds(s, run, r);
    RealmFacts(Exec(s, run), r);
    hide Inv, PcOk, PointersOk, Live, Enabled, Apply, Reachable;
  }

  lemma {:induction false} ReachableRun(s: World, run: seq<Step>)
    requires Reachable(s) && Feasible(s, run)
    ensures Reachable(Exec(s, run))
    decreases |run|
  {
    if run != [] {
      hide Enabled, Apply, Reachable;
      ReachableStep(s, run[0]);
      ReachableRun(Apply(s, run[0]), run[1..]);
    }
  }
}
