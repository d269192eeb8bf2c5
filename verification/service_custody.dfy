/** Conservation of completions: each accepted one is held in the state, in the hand of one
    thread, or queued, in exactly one spot; a refused one is nowhere. */
module ServiceCustody {
  import opened Optional
  import opened ServiceCore
  import opened ServiceProtocol
  import opened ServiceParts
  import opened ServicePlace

  /** The completions a list of operations will still queue, in order. */
  function InHand(ops: seq<Op>): seq<Completion> {
    if ops == [] then []
    else if ops[0].Queue? then [ops[0].item.completion] + InHand(ops[1..])
    else InHand(ops[1..])
  }

  function Hand(s: Sys, t: Thread): seq<Completion> {
    InHand(Todo(s, t))
  }

  /** A spot where a completion can be. */
  datatype Spot = SpotState(i: nat) | SpotHand(thread: Thread, i: nat) | SpotQueue(i: nat)

  predicate Filled(s: Sys, p: Spot) {
    match p
    case SpotState(i) => i < |Held(s.inner.state)|
    case SpotHand(t, i) => i < |Hand(s, t)|
    case SpotQueue(i) => i < |s.queue|
  }

  function At(s: Sys, p: Spot): Completion
    requires Filled(s, p)
  {
    match p
    case SpotState(i) => Held(s.inner.state)[i]
    case SpotHand(t, i) => Hand(s, t)[i]
    case SpotQueue(i) => s.queue[i].completion
  }

  predicate KeysOk(s: Sys) {
    forall t :: t in s.todo ==>
      match t
      case Caller(call) => call in s.accepted
      case Supervisor(g) => g in s.gens
      case Recoverer(n) => n < s.recoveries
  }

  ghost predicate Spotted(s: Sys, call: nat) {
    exists p :: Filled(s, p) && At(s, p).call == call
  }

  ghost predicate CustodyInv(s: Sys) {
    && KeysOk(s)
    && (forall p :: Filled(s, p) ==> At(s, p).call in s.accepted && s.accepted[At(s, p).call] == At(s, p))
    && (forall p, q :: Filled(s, p) && Filled(s, q) && At(s, p).call == At(s, q).call ==> p == q)
    && (forall call :: call in s.accepted ==> Spotted(s, call))
    && (forall call :: call in s.accepted ==> call !in s.refused)
  }

  // ---------------------------------------------------------------- lists of operations

  lemma {:induction false} InHandConcat(a: seq<Op>, b: seq<Op>)
    ensures InHand(a + b) == InHand(a) + InHand(b)
  {
    if a == [] {
      assert a + b == b;
    } else {
      assert (a + b)[1..] == a[1..] + b;
      InHandConcat(a[1..], b);
    }
  }

  lemma {:induction false} InHandQueue(cs: seq<Completion>, event: Event)
    ensures InHand(QueueOps(cs, event)) == cs
  {
    if cs != [] {
      assert QueueOps(cs, event)[1..] == QueueOps(cs[1..], event);
      InHandQueue(cs[1..], event);
    }
  }

  lemma InHandDrain(ops: seq<Op>, d: Drain)
    requires NoQueueing(ops)
    ensures InHand(ops + DrainOps(d)) == d.starts + d.stops
  {
    InHandNone(ops);
    InHandConcat(ops, DrainOps(d));
    InHandConcat(QueueOps(d.starts, d.startEvent), QueueOps(d.stops, d.stopEvent));
    InHandQueue(d.starts, d.startEvent);
    InHandQueue(d.stops, d.stopEvent);
  }

  lemma {:induction false} InHandNone(ops: seq<Op>)
    requires NoQueueing(ops)
    ensures InHand(ops) == []
  {
    if ops != [] {
      InHandNone(ops[1..]);
    }
  }

  // ---------------------------------------------------------------- the four moves

  /** Nothing moved. */
  ghost predicate Still(s: Sys, s': Sys) {
    && Held(s'.inner.state) == Held(s.inner.state)
    && (forall t :: Hand(s', t) == Hand(s, t))
    && s'.queue == s.queue && s'.accepted == s.accepted
  }

  ghost predicate OtherHands(s: Sys, s': Sys, t: Thread) {
    forall u :: u != t ==> Hand(s', u) == Hand(s, u)
  }

  /** A call's completion enters the state. */
  ghost predicate Stored(s: Sys, s': Sys, c: Completion) {
    && FreshCall(s, c.call)
    && Held(s'.inner.state) == Held(s.inner.state) + [c]
    && (forall t :: Hand(s', t) == Hand(s, t))
    && s'.queue == s.queue && s'.accepted == s.accepted[c.call := c]
  }

  /** A call keeps its completion in hand. */
  ghost predicate Taken(s: Sys, s': Sys, c: Completion, t: Thread) {
    && FreshCall(s, c.call)
    && Held(s'.inner.state) == Held(s.inner.state)
    && Hand(s, t) == [] && Hand(s', t) == [c] && OtherHands(s, s', t)
    && s'.queue == s.queue && s'.accepted == s.accepted[c.call := c]
  }

  /** A thread takes everything out of the state. */
  ghost predicate Drained(s: Sys, s': Sys, t: Thread) {
    && Held(s'.inner.state) == []
    && Hand(s, t) == [] && Hand(s', t) == Held(s.inner.state) && OtherHands(s, s', t)
    && s'.queue == s.queue && s'.accepted == s.accepted
  }

  /** A thread queues the first completion in its hand. */
  ghost predicate Queued(s: Sys, s': Sys, t: Thread) {
    && Held(s'.inner.state) == Held(s.inner.state)
    && Hand(s, t) != [] && Hand(s', t) == Hand(s, t)[1..] && OtherHands(s, s', t)
    && |s'.queue| == |s.queue| + 1 && (forall i :: 0 <= i < |s.queue| ==> s'.queue[i] == s.queue[i])
    && s'.queue[|s.queue|].completion == Hand(s, t)[0]
    && s'.accepted == s.accepted
  }

  ghost predicate Conserved(s: Sys) {
    && (forall p :: Filled(s, p) ==> At(s, p).call in s.accepted && s.accepted[At(s, p).call] == At(s, p))
    && (forall p, q :: Filled(s, p) && Filled(s, q) && At(s, p).call == At(s, q).call ==> p == q)
    && (forall call :: call in s.accepted ==> Spotted(s, call))
  }

  lemma StillConserves(s: Sys, s': Sys)
    requires Conserved(s) && Still(s, s')
    ensures Conserved(s')
  {
    forall p | Filled(s', p)
      ensures Filled(s, p) && At(s, p) == At(s', p)
    {
    }
    forall call | call in s'.accepted
      ensures Spotted(s', call)
    {
      var p :| Filled(s, p) && At(s, p).call == call;
      assert Filled(s', p) && At(s', p) == At(s, p);
    }
  }

  /** A fresh completion in one new spot, everything else where it was. */
  lemma AddedConserves(s: Sys, s': Sys, c: Completion, at: Spot)
    requires Conserved(s) && FreshCall(s, c.call) && s'.accepted == s.accepted[c.call := c]
    requires !Filled(s, at) && Filled(s', at) && At(s', at) == c
    requires forall p :: p != at ==> Filled(s', p) == Filled(s, p)
    requires forall p :: p != at && Filled(s, p) ==> At(s', p) == At(s, p)
    ensures Conserved(s')
  {
    hide Filled, At;
    forall call | call in s'.accepted
      ensures Spotted(s', call)
    {
      if call == c.call {
        assert Filled(s', at);
      } else {
        var p :| Filled(s, p) && At(s, p).call == call;
        assert Filled(s', p) && At(s', p) == At(s, p);
      }
    }
  }

  lemma StoredConserves(s: Sys, s': Sys, c: Completion)
    requires Conserved(s) && Stored(s, s', c)
    ensures Conserved(s')
  {
    AddedConserves(s, s', c, SpotState(|Held(s.inner.state)|));
  }

  lemma TakenConserves(s: Sys, s': Sys, c: Completion, t: Thread)
    requires Conserved(s) && Taken(s, s', c, t)
    ensures Conserved(s')
  {
    AddedConserves(s, s', c, SpotHand(t, 0));
  }

  /** Where a completion was before its thread drained the state, or queued it. */
  function BeforeDrain(p: Spot, t: Thread): Spot {
    if p.SpotHand? && p.thread == t then SpotState(p.i) else p
  }

  lemma DrainedConserves(s: Sys, s': Sys, t: Thread)
    requires Conserved(s) && Drained(s, s', t)
    ensures Conserved(s')
  {
    forall p | Filled(s', p)
      ensures Filled(s, BeforeDrain(p, t)) && At(s, BeforeDrain(p, t)) == At(s', p)
    {
    }
    forall p, q | Filled(s', p) && Filled(s', q) && At(s', p).call == At(s', q).call
      ensures p == q
    {
      assert BeforeDrain(p, t) == BeforeDrain(q, t);
    }
    forall call | call in s'.accepted
      ensures Spotted(s', call)
    {
      var p :| Filled(s, p) && At(s, p).call == call;
      var q := if p.SpotState? then SpotHand(t, p.i) else p;
      assert Filled(s', q) && At(s', q) == At(s, p);
    }
  }

  function BeforeQueue(p: Spot, t: Thread, queued: nat): Spot {
    if p.SpotHand? && p.thread == t then SpotHand(t, p.i + 1)
    else if p == SpotQueue(queued) then SpotHand(t, 0)
    else p
  }

  lemma QueuedFrom(s: Sys, s': Sys, t: Thread, p: Spot)
    requires Queued(s, s', t) && Filled(s', p)
    ensures Filled(s, BeforeQueue(p, t, |s.queue|)) && At(s, BeforeQueue(p, t, |s.queue|)) == At(s', p)
  {
  }

  function AfterQueue(p: Spot, t: Thread, queued: nat): Spot {
    if p.SpotHand? && p.thread == t then (if p.i == 0 then SpotQueue(queued) else SpotHand(t, p.i - 1)) else p
  }

  lemma QueuedTo(s: Sys, s': Sys, t: Thread, p: Spot)
    requires Queued(s, s', t) && Filled(s, p)
    ensures Filled(s', AfterQueue(p, t, |s.queue|)) && At(s', AfterQueue(p, t, |s.queue|)) == At(s, p)
  {
  }

  lemma QueuedConserves(s: Sys, s': Sys, t: Thread)
    requires Conserved(s) && Queued(s, s', t)
    ensures Conserved(s')
  {
    var n := |s.queue|;
    hide Filled, At, Queued;
    assert s'.accepted == s.accepted by { QueuedAccepts(s, s', t); }
    forall p | Filled(s', p)
      ensures Filled(s, BeforeQueue(p, t, n)) && At(s, BeforeQueue(p, t, n)) == At(s', p)
    {
      QueuedFrom(s, s', t, p);
    }
    forall p, q | Filled(s', p) && Filled(s', q) && At(s', p).call == At(s', q).call
      ensures p == q
    {
      assert BeforeQueue(p, t, n) == BeforeQueue(q, t, n);
    }
    forall call | call in s'.accepted
      ensures Spotted(s', call)
    {
      var p :| Filled(s, p) && At(s, p).call == call;
      QueuedTo(s, s', t, p);
    }
  }

  lemma QueuedAccepts(s: Sys, s': Sys, t: Thread)
    requires Queued(s, s', t)
    ensures s'.accepted == s.accepted
  {
  }

  // ---------------------------------------------------------------- which move each step is

  lemma TodoAfter(s: Sys, e: Step, t: Thread)
    requires Enabled(s, e)
    ensures Todo(Apply(s, e), t) ==
            if t == Recoverer(s.recoveries) && OutOf(s, e).recovery.Some? then OutOf(s, e).recovery.value
            else if t == Actor(e) && OutOf(s, e).own.Some? then OutOf(s, e).own.value
            else Todo(s, t)
  {
    hide OutOf, NextGens, Enabled;
  }

  /** A section that drains takes everything out of the state, and one that does not leaves it all. */
  predicate DrainsAll(st: State, st': State, d: Drain) {
    (Held(st') == [] && d.starts + d.stops == Held(st)) || (Held(st') == Held(st) && d.starts == d.stops == [])
  }

  lemma SectionsDrainAll(s: Sys, gen: Gen, g: nat, code: Code)
    ensures DrainsAll(s.inner.state, RecoverSection(s.inner).0, RecoverSection(s.inner).2)
    ensures RecoverSection(s.inner).0.Failed?
    ensures NoQueueing(RecoverSection(s.inner).1)
    ensures var (st, d) := CreationFailureSection(s.inner.state, g, code, true, None); DrainsAll(s.inner.state, st, d)
    ensures gen.sup.AtFinish? || gen.sup.AtCreationFailure? ==>
              var (st, d) := EndSection(s, gen); DrainsAll(s.inner.state, st, d)
  {
  }

  lemma RecoveredMoves(s: Sys, e: Step)
    requires KeysOk(s) && Enabled(s, e) && OutOf(s, e).recovery.Some?
    requires OutOf(s, e) == RecoveredOut(s, OutOf(s, e).own)
    requires OutOf(s, e).own.Some? ==>
              NoQueueing(OutOf(s, e).own.value) && Todo(s, Actor(e)) == [] && Actor(e).Supervisor?
    requires !e.Perform? && AcceptedBy(s, e).None?
    ensures Drained(s, Apply(s, e), Recoverer(s.recoveries))
  {
    var s' := Apply(s, e);
    var (st, ops, d) := RecoverSection(s.inner);
    SectionsDrainAll(s, NewGen(Options(0, 0), 0), 0, Shutdown);
    InHandDrain(ops, d);
    assert Held(s'.inner.state) == [] by { assert s'.inner.state == st; }
    hide RecoverSection, OutOf, Enabled, NextGens, DrainOps, Held, Apply;
    forall t
      ensures Hand(s', t) == if t == Recoverer(s.recoveries) then InHand(ops + DrainOps(d)) else Hand(s, t)
    {
      TodoAfter(s, e, t);
      if OutOf(s, e).own.Some? && t == Actor(e) { InHandNone(OutOf(s, e).own.value); }
    }
    assert Recoverer(s.recoveries) !in s.todo;
  }

  lemma SelfDrainMoves(s: Sys, e: Step, st: State, d: Drain)
    requires Enabled(s, e) && OutOf(s, e) == DrainedOut(s, st, d) && DrainsAll(s.inner.state, st, d)
    requires Todo(s, Actor(e)) == [] && !e.Perform? && AcceptedBy(s, e).None?
    ensures Drained(s, Apply(s, e), Actor(e)) || Still(s, Apply(s, e))
  {
    var s' := Apply(s, e);
    assert [] + DrainOps(d) == DrainOps(d);
    InHandDrain([], d);
    hide OutOf, Enabled, NextGens, DrainOps, Held;
    forall t
      ensures Hand(s', t) == if t == Actor(e) then d.starts + d.stops else Hand(s, t)
    {
      TodoAfter(s, e, t);
    }
  }

  /** The list changes, but not the completions in it. */
  lemma StillMoves(s: Sys, e: Step)
    requires Enabled(s, e) && OutOf(s, e).recovery.None? && AcceptedBy(s, e).None?
    requires Held(OutOf(s, e).inner.state) == Held(s.inner.state)
    requires OutOf(s, e).own.Some? ==> InHand(OutOf(s, e).own.value) == Hand(s, Actor(e))
    requires NextQueue(s, e) == s.queue
    ensures Still(s, Apply(s, e))
  {
    var s' := Apply(s, e);
    hide OutOf, Enabled, NextGens, Held, InHand;
    forall t
      ensures Hand(s', t) == Hand(s, t)
    {
      TodoAfter(s, e, t);
    }
  }

  lemma PerformMoves(s: Sys, t: Thread)
    requires Enabled(s, Perform(t))
    ensures Queued(s, Apply(s, Perform(t)), t) || Still(s, Apply(s, Perform(t)))
  {
    var e := Perform(t);
    var s' := Apply(s, e);
    hide NextGens, Enabled, Held;
    forall u
      ensures Hand(s', u) == if u == t then InHand(Todo(s, t)[1..]) else Hand(s, u)
    {
      TodoAfter(s, e, u);
    }
  }

  lemma CallMoves(s: Sys, e: Step)
    requires KeysOk(s) && Enabled(s, e) && AcceptedBy(s, e).Some?
    ensures var c := AcceptedBy(s, e).value;
            Stored(s, Apply(s, e), c) || Taken(s, Apply(s, e), c, Caller(c.call))
  {
    var s' := Apply(s, e);
    var c := AcceptedBy(s, e).value;
    var t := Caller(c.call);
    var own := OutOf(s, e).own;
    CallHands(s, e);
    assert t !in s.todo;
    hide OutOf, NextGens, Enabled;
    forall u
      ensures Hand(s', u) == if u == t && own.Some? then InHand(own.value) else Hand(s, u)
    {
      TodoAfter(s, e, u);
    }
  }

  /** An accepted call's completion goes either into the state or into its caller's hand. */
  lemma CallHands(s: Sys, e: Step)
    requires Enabled(s, e) && AcceptedBy(s, e).Some?
    ensures var out, c := OutOf(s, e), AcceptedBy(s, e).value;
            && out.recovery.None? && Actor(e) == Caller(c.call) && FreshCall(s, c.call)
            && var hand := if out.own.Some? then InHand(out.own.value) else [];
            (Held(out.inner.state) == Held(s.inner.state) + [c] && hand == [])
            || (Held(out.inner.state) == Held(s.inner.state) && hand == [c])
  {
    if e.CallStop? { StopHands(s, e.call, e.generation); } else { StartHands(s, e.call, e.options); }
    hide StartOut, StopOut, Held;
  }

  lemma StartHands(s: Sys, call: nat, o: Options)
    requires AcceptedBy(s, CallStart(call, o)).Some?
    ensures var out, c := StartOut(s, call, o), AcceptedBy(s, CallStart(call, o)).value;
            && out.recovery.None?
            && var hand := if out.own.Some? then InHand(out.own.value) else [];
            (Held(out.inner.state) == Held(s.inner.state) + [c] && hand == [])
            || (Held(out.inner.state) == Held(s.inner.state) && hand == [c])
  {
  }

  lemma StopHands(s: Sys, call: nat, g: nat)
    requires AcceptedBy(s, CallStop(call, g)).Some?
    ensures var out, c := StopOut(s, call, g), AcceptedBy(s, CallStop(call, g)).value;
            && out.recovery.None?
            && var hand := if out.own.Some? then InHand(out.own.value) else [];
            (Held(out.inner.state) == Held(s.inner.state) + [c] && hand == [])
            || (Held(out.inner.state) == Held(s.inner.state) && hand == [c])
  {
    InHandNone(StopOps(g));
    InHandNone(StopOps(g) + [Wake(g)]);
    assert StopOps(g) + [] == StopOps(g);
  }

  /** Sections of the supervisor and of a failing caller either drain or leave everything held. */
  lemma SectionMoves(s: Sys, e: Step)
    requires KeysOk(s) && Enabled(s, e) && (IsSection(e) || e.FailSpawn? || e.CancelCurrent?)
    ensures Still(s, Apply(s, e)) || (exists t :: Drained(s, Apply(s, e), t))
  {
    hide Apply, Still, Drained, DrainOps, RecoverSection, EndSection, CreationFailureSection, DecideOut;
    if s.poisoned {
      PoisonedMoves(s, e);
    } else if e.Finish? || e.FailCreation? {
      SectionsDrainAll(s, s.gens[e.g], 0, Shutdown);
      SelfDrainMoves(s, e, EndSection(s, s.gens[e.g]).0, EndSection(s, s.gens[e.g]).1);
    } else if e.FailSpawn? {
      var pc := CallerAt(s, e.call);
      SectionsDrainAll(s, NewGen(Options(0, 0), 0), pc.generation, pc.code);
      var (st, d) := CreationFailureSection(s.inner.state, pc.generation, pc.code, true, None);
      SelfDrainMoves(s, e, st, d);
    } else if e.CancelCurrent? {
      InHandNone(StopOps(CallerAt(s, e.call).generation) + [Wake(CallerAt(s, e.call).generation)]);
      StillMoves(s, e);
    } else if e.Transition? {
      StillMoves(s, e);
    } else {
      DecideMoves(s, e.g);
    }
  }

  lemma PoisonedMoves(s: Sys, e: Step)
    requires KeysOk(s) && Enabled(s, e) && (IsSection(e) || e.FailSpawn? || e.CancelCurrent?) && s.poisoned
    ensures Drained(s, Apply(s, e), Recoverer(s.recoveries))
  {
    hide RecoverSection, DrainOps;
    if e.Decide? { InHandNone(StopOps(s.gens[e.g].options.generation)); }
    RecoveredMoves(s, e);
  }

  lemma DecideMoves(s: Sys, g: nat)
    requires KeysOk(s) && Enabled(s, Decide(g)) && !s.poisoned
    ensures Still(s, Apply(s, Decide(g))) || Drained(s, Apply(s, Decide(g)), Supervisor(g))
  {
    var o, report := s.gens[g].options, s.gens[g].sup.outcome;
    if Usable(report) && MarkRunningSection(s.inner.state, o, report.port).1.Some? {
      var (st, starts) := MarkRunningSection(s.inner.state, o, report.port);
      SelfDrainMoves(s, Decide(g), st, Drain(starts.value, RunningEvent(o.generation, report.port), [],
          StoppedEvent(o.generation)));
    } else {
      InHandNone(StopOps(o.generation));
      StillMoves(s, Decide(g));
    }
  }

  lemma UnlockedMoves(s: Sys, e: Step)
    requires Enabled(s, e) && !IsSection(e) && !e.FailSpawn? && !e.CancelCurrent? && !e.CallStart? && !e.CallStop?
              && !e.Perform?
    ensures Still(s, Apply(s, e))
  {
    if e.SupervisorPanics? {
      InHandNone(StopOps(e.g));
      InHandNone(Todo(s, Supervisor(e.g)));
    } else if e.SpawnReaper? {
      InHandNone([Cancel(e.g)]);
    }
    StillMoves(s, e);
  }

  lemma KeysKept(s: Sys, e: Step)
    requires PlaceInv(s) && KeysOk(s) && Enabled(s, e)
    ensures KeysOk(Apply(s, e))
  {
    var s' := Apply(s, e);
    hide Apply, Enabled;
    forall t | t in s'.todo
      ensures match t
              case Caller(call) => call in s'.accepted
              case Supervisor(g) => g in s'.gens
              case Recoverer(n) => n < s'.recoveries
    {
      if t in s.todo { KnownStays(s, e, t); } else { NewThread(s, e, t); }
    }
  }

  predicate Known(s: Sys, t: Thread) {
    match t
    case Caller(call) => call in s.accepted
    case Supervisor(g) => g in s.gens
    case Recoverer(n) => n < s.recoveries
  }

  lemma KnownStays(s: Sys, e: Step, t: Thread)
    requires PlaceInv(s) && Enabled(s, e) && Known(s, t)
    ensures Known(Apply(s, e), t)
  {
    GensGrow(s, e);
    hide OutOf, NextGens, Enabled, PlaceInv;
  }

  /** A thread that is first given a list takes part in the step. */
  lemma NewThread(s: Sys, e: Step, t: Thread)
    requires PlaceInv(s) && KeysOk(s) && Enabled(s, e) && t !in s.todo && t in Apply(s, e).todo
    ensures Known(Apply(s, e), t)
  {
    NewKey(s, e, t);
    if t == Actor(e) { NewActor(s, e); }
    hide Apply, Enabled, PlaceInv, KeysOk, Actor, OutOf;
  }

  lemma NewKey(s: Sys, e: Step, t: Thread)
    requires Enabled(s, e) && t !in s.todo && t in Apply(s, e).todo
    ensures (t == Actor(e) && OutOf(s, e).own.Some?)
              || (t == Recoverer(s.recoveries) && s.recoveries < Apply(s, e).recoveries)
  {
    hide OutOf, NextGens, Enabled, Actor;
  }

  lemma NewActor(s: Sys, e: Step)
    requires PlaceInv(s) && KeysOk(s) && Enabled(s, e) && OutOf(s, e).own.Some?
    ensures Known(Apply(s, e), Actor(e))
  {
    GensGrow(s, e);
    ActorKnown(s, e);
    hide OutOf, NextGens, Enabled, PlaceInv, KeysOk, NextAccepted, Actor;
  }

  lemma ActorKnown(s: Sys, e: Step)
    requires PlaceInv(s) && KeysOk(s) && Enabled(s, e) && OutOf(s, e).own.Some?
    ensures match Actor(e)
            case Caller(call) => call in NextAccepted(s, e)
            case Supervisor(g) => g in s.gens
            case Recoverer(n) => n < s.recoveries
  {
    hide PlacesOk, PartsOk, OwnerOk, CallerOk;
  }

  lemma ConservedKept(s: Sys, e: Step)
    requires PlaceInv(s) && KeysOk(s) && Conserved(s) && Enabled(s, e)
    ensures Conserved(Apply(s, e))
  {
    var s' := Apply(s, e);
    hide Apply, OutOf, Conserved, PlaceInv;
    if AcceptedBy(s, e).Some? {
      CallMoves(s, e);
      var c := AcceptedBy(s, e).value;
      if Stored(s, s', c) { StoredConserves(s, s', c); } else { TakenConserves(s, s', c, Caller(c.call)); }
    } else if e.Perform? {
      PerformMoves(s, e.thread);
      if Queued(s, s', e.thread) { QueuedConserves(s, s', e.thread); } else { StillConserves(s, s'); }
    } else if e.CallStart? || e.CallStop? {
      RefusedMoves(s, e);
      if Still(s, s') { StillConserves(s, s'); }
      else { var t :| Drained(s, s', t); DrainedConserves(s, s', t); }
    } else if IsSection(e) || e.FailSpawn? || e.CancelCurrent? {
      SectionMoves(s, e);
      if Still(s, s') { StillConserves(s, s'); }
      else { var t :| Drained(s, s', t); DrainedConserves(s, s', t); }
    } else {
      UnlockedMoves(s, e);
      StillConserves(s, s');
    }
  }

  lemma RefusedMoves(s: Sys, e: Step)
    requires KeysOk(s) && Enabled(s, e) && (e.CallStart? || e.CallStop?) && AcceptedBy(s, e).None?
    ensures Still(s, Apply(s, e)) || Drained(s, Apply(s, e), Recoverer(s.recoveries))
  {
    if s.poisoned { RecoveredMoves(s, e); } else { StillMoves(s, e); }
  }

  /** No call is ever both accepted and refused. */
  lemma RefusedKept(s: Sys, e: Step)
    requires Enabled(s, e) && (forall call :: call in s.accepted ==> call !in s.refused)
    ensures forall call :: call in NextAccepted(s, e) ==> call !in NextRefused(s, e)
  {
    hide StartSection, StopSection;
  }

  /** Conservation holds along every run. */
  lemma CustodyKept(s: Sys, e: Step)
    requires PlaceInv(s) && CustodyInv(s) && Enabled(s, e)
    ensures CustodyInv(Apply(s, e))
  {
    hide PlaceInv, KeysOk, OutOf, NextGens, NextTodo, Filled, At, NextAccepted, NextRefused, Enabled;
    KeysKept(s, e);
    ConservedKept(s, e);
    RefusedKept(s, e);
  }
}
