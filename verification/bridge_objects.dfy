/** The lock regions of binding.c as methods that update realm and request objects in place, each
    equal to the transition the bridge model takes. A request keeps its own books: its count is
    its outstanding work and its thread-safe function is released once; a realm keeps its own:
    its teardown completes once, and then it neither owns the library nor has pending requests. */
module BridgeObjects {
  import opened Optional
  import opened Bridge
  import opened BridgeSafety

  class RealmObject {
    const id: nat
    var generation: nat
    var start: RequestObject?
    var stop: RequestObject?
    var pending: nat
    var exiting: bool
    var terminal: bool
    var teardown: bool
    // what the region asked of the JavaScript engine
    var finishes: nat
    var finishCalls: nat

    constructor (id: nat)
      ensures View() == Realm(0, None, None, 0, false, false, true, 0, 0, false, Idle, false, false)
      ensures this.id == id && Valid()
    {
      this.id := id;
      generation, start, stop, pending := 0, null, null, 0;
      exiting, terminal, teardown := false, false, true;
      finishes, finishCalls := 0, 0;
    }

    function Id(q: RequestObject?): Option<nat> {
      if q == null then None else Some(q.id)
    }

    function View(): Realm
      reads this
    {
      Realm(generation, Id(start), Id(stop), pending, exiting, terminal, teardown, finishes, finishCalls, false, Idle,
          false, false)
    }

    /** The realm's scalars, as an owner exactly while its teardown handle is held. */
    ghost predicate Valid()
      reads this
    {
      RealmOk(if teardown then Some(id) else None, id, View())
    }

    /** Distinct requests carry distinct names. */
    ghost predicate Names(q: RequestObject)
      reads this
    {
      && (start != null && start.id == q.id ==> start == q)
      && (stop != null && stop.id == q.id ==> stop == q)
    }

    /** The last reference of a request is gone: the realm forgets it and counts one less, and one
        that is exiting is asked to finish if the native side dropped it. */
    method ReleaseLast(q: RequestObject, native: bool)
      requires Valid() && Names(q) && pending > 0
      modifies this
      ensures Valid() && View() == Release(old(View()), q.id, native)
      ensures start != q && stop != q && pending == old(pending) - 1
      ensures native && exiting ==> finishCalls > 0
    {
      pending := pending - 1;
      if start == q { start := null; }
      if stop == q {
        stop := null;
        generation := 0;
      }
      if native && exiting { finishCalls := finishCalls + 1; }
    }

    /** The delivery of a result settles the promise of a request that was not aborted, once, and
        the realm no longer points at it: a failed start without a stop, and any stop, frees the realm
        for the next start. */
    method OnJsResult(q: RequestObject)
      requires Valid() && Names(q) && q.Valid() && q.realm == this && q.delivery
      modifies this, q
      ensures Valid() && q.Valid()
      ensures View() == Delivered(old(View()), q.id, old(q.View()))
      ensures !q.delivery && q.settled == (if q.aborted then 0 else 1)
      ensures q.kind.Start? && old(start) == q ==>
                start == null && generation == if q.failed && stop == null then 0 else old(generation)
      ensures q.kind.Stop? && old(stop) == q ==> stop == null && generation == 0
    {
      hide RequestOk;
      if q.kind.Start? && start == q {
        start := null;
        if q.failed && stop == null { generation := 0; }
      } else if q.kind.Stop? && stop == q {
        stop := null;
        generation := 0;
      }
      q.Settle();
    }

    /** Teardown takes out what it will abort and stop, and an idle realm is over at once. */
    method EnterTeardown() returns (oldStart: RequestObject?, oldStop: RequestObject?, oldGeneration: nat)
      requires Valid()
      modifies this
      ensures Valid() && oldStart == old(start) && oldStop == old(stop)
      ensures forall s: World :: BeginTeardown(s, old(View())) ==
                View().(js := AbortingStart(Id(oldStart), Id(oldStop), oldGeneration),
                    missed := BeginTeardown(s, old(View())).missed)
    {
      exiting := true;
      oldGeneration := generation;
      oldStart, oldStop := start, stop;
      if generation == 0 { terminal := true; }
    }
  }

  class RequestObject {
    const id: nat
    const realm: RealmObject
    const kind: Kind
    const generation: nat
    var references: nat
    var completed: bool
    var aborted: bool
    var failed: bool
    // what the engine and the allocator were asked to do
    var native: NativeRef
    var finalizer: FinalizerRef
    var tsfn: Tsfn
    var releases: nat
    var delivery: bool
    var settled: nat
    var frees: nat

    constructor (id: nat, realm: RealmObject, kind: Kind, generation: nat)
      requires generation > 0
      ensures this.id == id && this.realm == realm && View() == NewRequest(realm.id, kind, generation) && Valid()
    {
      this.id, this.realm, this.kind, this.generation := id, realm, kind, generation;
      references, completed, aborted, failed := 2, false, false, false;
      native, finalizer, tsfn := Unaccepted, Pending, Open;
      releases, delivery, settled, frees := 0, false, 0, 0;
    }

    function View(): Request
      reads this
    {
      Request(realm.id, kind, generation, references, native, finalizer, completed, aborted, failed, tsfn, releases,
          delivery, settled, frees)
    }

    /** The request's books: references are outstanding work, one release, one free. */
    ghost predicate Valid()
      reads this
    {
      RequestOk(View())
    }

    /** The JavaScript side of a delivery. */
    method Settle()
      requires Valid() && delivery
      modifies this`delivery, this`settled
      ensures Valid() && View() == old(View()).(delivery := false, settled := settled)
      ensures settled == if aborted then 0 else 1
    {
      delivery := false;
      if !aborted { settled := settled + 1; }
    }

    /** The native callback of a request; `active` says whether the library still knows it. If it does
        not, the callback returns with its reference. */
    method Report(active: bool, failed: bool)
      requires Valid() && native.Outstanding?
      modifies this
      ensures View() == Complete(old(View()), active, failed)
      ensures active || kind.Start? ==> Valid()
      ensures active ==> completed && releases == 1 && (delivery <==> !aborted)
      ensures !active ==> !completed && references == old(references) && frees == 0
    {
      if !active || completed {
        native := Leaked;
        return;
      }
      completed, this.failed, native := true, failed, Called;
      if !aborted { delivery, tsfn, releases := true, ByNative, releases + 1; }
    }

    /** Whichever of abort and completion comes first releases the function, and only it does. */
    method AbortOnce()
      requires Valid() && !native.Unaccepted?
      modifies this`aborted, this`tsfn, this`releases
      ensures Valid() && View() == Abort(old(View()))
      ensures aborted && releases == 1 && (tsfn.ByAbort? <==> !completed || old(tsfn).ByAbort?)
    {
      var abort := !aborted && !completed;
      aborted := true;
      if abort { tsfn, releases := ByAbort, releases + 1; }
    }

    /** A refused native call gives up the reference kept for its callback. */
    method Reject()
      requires Valid() && native.Unaccepted?
      modifies this
      ensures Valid() && View() == RejectUnaccepted(old(View()))
      ensures references == 1 && releases == 1 && finalizer.Pending? && settled == 0
    {
      if aborted { return; }
      aborted := true;
      tsfn, releases := ByAbort, releases + 1;
      references := references - 1;
      native := Dropped;
    }
  }

  class Library {
    var owner: RealmObject?

    constructor ()
      ensures owner == null
    {
      owner := null;
    }

    /** Teardown completes at most once, and the same region gives the library back. */
    method FinishIfReady(realm: RealmObject)
      requires realm.Valid() && (owner == realm <==> realm.teardown)
      modifies this, realm
      ensures realm.Valid() && (owner == realm <==> realm.teardown)
      ensures realm.View() == FinishNow(old(realm.View())) && realm.finishes <= 1
      ensures realm.finishes == 1 <==> old(realm.finishes) == 1 || ReadyToFinish(old(realm.View()))
      ensures owner != old(owner) ==> owner == null && old(owner) == realm
    {
      if realm.exiting && realm.terminal && realm.pending == 0 {
        if owner == realm { owner := null; }
        var held := realm.teardown;
        realm.teardown := false;
        if held { realm.finishes := realm.finishes + 1; }
      }
    }

    /** A result that finds its request installed and not completed is noted, and queued for
        JavaScript unless the request was aborted. */
    method OnNativeResult(request: RequestObject, failed: bool)
      requires request.Valid() && request.native.Outstanding?
      modifies request, owner
      ensures owner == old(owner)
      ensures var active := old(owner) != null && (old(owner.start) == request || old(owner.stop) == request);
              && request.View() == Complete(old(request.View()), active, failed)
              && (owner != null ==> owner.View() == Reported(old(owner.View()), old(request.View()), active))
              && (active || request.kind.Start? ==> request.Valid())
              && (active ==> request.completed && request.releases == 1 && (request.delivery <==> !request.aborted))
              && (!active ==> !request.completed && request.references == old(request.references))
    {
      hide RequestOk, Complete;
      var active := owner != null && (owner.start == request || owner.stop == request);
      if active && !request.completed && request.kind.Stop? && owner.exiting { owner.terminal := true; }
      request.Report(active, failed);
    }
  }
}
