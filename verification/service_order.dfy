/** Delivery order: the starts gathered by a generation are queued before any stop that was held
    for it, unless another thread drains the stops while the generation's own supervisor still
    has a gathered start in its list. */
module ServiceOrder {
  import opened Optional
  import opened ServiceCore
  import opened ServiceProtocol
  import opened ServiceParts
  import opened ServicePlace
  import opened ServiceCustody
  import opened ServiceOutcome

  /** A start gathered by generation `g` and taken out of the state. */
  predicate HeldStart(item: Item, g: nat) {
    item.stored && item.completion.kind.StartCall? && item.completion.generation == g
  }

  predicate HeldStop(item: Item, g: nat) {
    item.stored && item.completion.kind.StopCall? && item.completion.generation == g
  }

  /** The operation at `i` will queue a gathered start, or a held stop, of `g`. */
  predicate StartIn(ops: seq<Op>, i: nat, g: nat) {
    i < |ops| && ops[i].Queue? && HeldStart(ops[i].item, g)
  }

  predicate StopIn(ops: seq<Op>, i: nat, g: nat) {
    i < |ops| && ops[i].Queue? && HeldStop(ops[i].item, g)
  }

  predicate StartAt(s: Sys, t: Thread, i: nat, g: nat) {
    StartIn(Todo(s, t), i, g)
  }

  predicate StopAt(s: Sys, t: Thread, i: nat, g: nat) {
    StopIn(Todo(s, t), i, g)
  }

  predicate QueuedStart(s: Sys, j: nat, g: nat) {
    j < |s.queue| && HeldStart(s.queue[j], g)
  }

  predicate QueuedStop(s: Sys, j: nat, g: nat) {
    j < |s.queue| && HeldStop(s.queue[j], g)
  }

  /** Stops of `g` leave the state only when `g` has been retired. */
  predicate Retired(s: Sys, g: nat) {
    g <= s.inner.lastGeneration && !Owns(s.inner.state, g)
  }

  /** Who can hold what: stops only of retired generations, and the starts of the current one
      only with its supervisor, which has no list before it runs. */
  ghost predicate OrderInv(s: Sys) {
    && (forall t: Thread, i: nat, g: nat :: StopAt(s, t, i, g) ==> Retired(s, g))
    && (forall j: nat, g: nat :: QueuedStop(s, j, g) ==> Retired(s, g))
    && (forall t: Thread, i: nat, g: nat :: StartAt(s, t, i, g) && Owns(s.inner.state, g) ==> t == Supervisor(g))
    && (forall g: nat :: g in s.gens && (s.gens[g].sup.NotRun? || s.gens[g].sup.Dropped?) ==>
         Todo(s, Supervisor(g)) == [])
  }

  /** Every start of `g` is queued, or will be queued, before every stop of `g`. */
  ghost predicate Sequenced(s: Sys, g: nat) {
    && (forall t: Thread, i: nat, u: Thread, k: nat :: StartAt(s, t, i, g) && StopAt(s, u, k, g) ==> t == u && i < k)
    && (forall t: Thread, i: nat, j: nat :: StartAt(s, t, i, g) ==> !QueuedStop(s, j, g))
    && (forall j: nat, k: nat :: QueuedStop(s, j, g) && QueuedStart(s, k, g) ==> k < j)
  }

  /** The supervisor of `g` still has a gathered start of `g` to queue. */
  ghost predicate StartsInHand(s: Sys, g: nat) {
    exists i: nat :: StartAt(s, Supervisor(g), i, g)
  }

  /** The step drains the stops of `g` while the supervisor of `g` still has a start of it. */
  ghost predicate Overtakes(s: Sys, e: Step, g: nat)
    requires Enabled(s, e)
  {
    OutOf(s, e).drain.stops != [] && Owns(s.inner.state, g) && StartsInHand(s, g)
  }

  // ---------------------------------------------------------------- performing one operation

  lemma PerformLists(s: Sys, t: Thread)
    requires Enabled(s, Perform(t))
    ensures var s' := Apply(s, Perform(t));
            && (forall u: Thread :: Todo(s', u) == if u == t then Todo(s, t)[1..] else Todo(s, u))
            && s'.queue == (if Todo(s, t)[0].Queue? then s.queue + [Todo(s, t)[0].item] else s.queue)
            && s'.inner == s.inner && s'.gens.Keys == s.gens.Keys
            && forall g: nat :: g in s.gens ==> s'.gens[g].sup == s.gens[g].sup
  {
    forall u: Thread
      ensures Todo(Apply(s, Perform(t)), u) == if u == t then Todo(s, t)[1..] else Todo(s, u)
    {
      TodoAfter(s, Perform(t), u);
    }
    PerformSups(s, t);
    hide NextGens, Todo;
  }

  lemma PerformSups(s: Sys, t: Thread)
    requires Enabled(s, Perform(t))
    ensures NextGens(s, Perform(t)).Keys == s.gens.Keys
    ensures forall g: nat :: g in s.gens ==> NextGens(s, Perform(t))[g].sup == s.gens[g].sup
  {
  }

  /** Where a start or stop was before the first operation of `t` was performed. */
  lemma PerformedFrom(s: Sys, t: Thread, g: nat)
    requires Enabled(s, Perform(t))
    ensures var s' := Apply(s, Perform(t));
            && (forall u: Thread, i: nat :: StartAt(s', u, i, g) ==> StartAt(s, u, if u == t then i + 1 else i, g))
            && (forall u: Thread, i: nat :: StopAt(s', u, i, g) ==> StopAt(s, u, if u == t then i + 1 else i, g))
            && (forall j: nat :: QueuedStart(s', j, g) ==>
                 if j < |s.queue| then QueuedStart(s, j, g) else j == |s.queue| && StartAt(s, t, 0, g))
            && (forall j: nat :: QueuedStop(s', j, g) ==>
                 if j < |s.queue| then QueuedStop(s, j, g) else j == |s.queue| && StopAt(s, t, 0, g))
  {
    PerformLists(s, t);
    hide Apply, Enabled, Todo;
  }

  lemma PerformOrder(s: Sys, t: Thread)
    requires OrderInv(s) && Enabled(s, Perform(t))
    ensures OrderInv(Apply(s, Perform(t)))
  {
    PerformLists(s, t);
    var s' := Apply(s, Perform(t));
    hide Apply, Enabled, StartAt, StopAt, QueuedStop, Owns;
    forall u: Thread, i: nat, g: nat | StartAt(s', u, i, g)
      ensures StartAt(s, u, if u == t then i + 1 else i, g)
    {
      PerformedFrom(s, t, g);
    }
    forall u: Thread, i: nat, g: nat | StopAt(s', u, i, g)
      ensures Retired(s, g)
    {
      PerformedFrom(s, t, g);
    }
    forall j: nat, g: nat | QueuedStop(s', j, g)
      ensures Retired(s, g)
    {
      PerformedFrom(s, t, g);
    }
  }

  lemma PerformSequenced(s: Sys, t: Thread, g: nat)
    requires Sequenced(s, g) && Enabled(s, Perform(t))
    ensures Sequenced(Apply(s, Perform(t)), g)
  {
    PerformedFrom(s, t, g);
    hide Apply, Enabled, StartAt, StopAt;
  }

  // ---------------------------------------------------------------- handing out drained completions

  predicate NoStored(ops: seq<Op>) {
    forall i :: 0 <= i < |ops| ==> ops[i].Queue? ==> !ops[i].item.stored
  }

  predicate NothingIn(d: Drain) {
    d.starts == [] && d.stops == []
  }

  /** The signals a recoverer sends before it queues what it drained. */
  function Signals(s: Sys, out: Out): seq<Op> {
    if out.recovery.Some? then RecoverSection(s.inner).1 else []
  }

  /** The thread that takes the drained completions, which has nothing else to do. */
  function Taker(s: Sys, e: Step): Thread
    requires Enabled(s, e)
  {
    if OutOf(s, e).recovery.Some? || NothingIn(OutOf(s, e).drain) then Recoverer(s.recoveries) else Actor(e)
  }

  /** The lists a section hands out. */
  predicate ListsShape(s: Sys, out: Out) {
    && NoQueueing(Signals(s, out))
    && (out.recovery.Some? ==> out.recovery.value == Signals(s, out) + DrainOps(out.drain))
    && (if out.recovery.Some? || NothingIn(out.drain) then out.own.Some? ==> NoStored(out.own.value)
        else out.own == Some(DrainOps(out.drain)))
  }

  /** What a section may drain, and what becomes of the state. */
  ghost predicate StateShape(s: Sys, out: Out, actor: Thread) {
    var d, g := out.drain, out.drain.startEvent.generation;
    && (!NothingIn(d) ==> Owns(s.inner.state, g))
    && (d.stops != [] ==> !Owns(out.inner.state, g))
    && (d.starts != [] && Owns(out.inner.state, g) ==> out.recovery.None? && actor == Supervisor(g))
    && (forall h: nat :: Owns(out.inner.state, h) ==> Owns(s.inner.state, h) || h > s.inner.lastGeneration)
  }

  ghost predicate Shape(s: Sys, out: Out, actor: Thread) {
    ListsShape(s, out) && StateShape(s, out, actor)
  }

  lemma RecoveredShape(s: Sys, own: Option<seq<Op>>, actor: Thread)
    requires own.Some? ==> NoQueueing(own.value)
    ensures Shape(s, RecoveredOut(s, own), actor)
  {
    hide DrainOps;
  }

  lemma MarkedShape(s: Sys, o: Options, port: Port)
    ensures MarkRunningSection(s.inner.state, o, port).1.Some? ==>
              var (st, starts) := MarkRunningSection(s.inner.state, o, port);
              Shape(s, DrainedOut(s, st, Drain(starts.value, RunningEvent(o.generation, port), [],
                  StoppedEvent(o.generation))), Supervisor(o.generation))
  {
  }

  lemma FinishShape(s: Sys, g: nat, exit: Exit, quarantine: Option<nat>, actor: Thread)
    requires StateOk(s.inner.state, s.decided)
    ensures var (st, d) := FinishSection(s.inner.state, g, exit, quarantine); Shape(s, DrainedOut(s, st, d), actor)
  {
  }

  lemma CreationShape(s: Sys, g: nat, code: Code, terminal: bool, quarantine: Option<nat>, actor: Thread)
    ensures var (st, d) := CreationFailureSection(s.inner.state, g, code, terminal, quarantine);
              Shape(s, DrainedOut(s, st, d), actor)
  {
  }

  /** A section that drains nothing. */
  lemma UndrainedShape(s: Sys, out: Out, actor: Thread)
    requires out.recovery.None? && NothingIn(out.drain) && (out.own.Some? ==> NoStored(out.own.value))
    requires forall h: nat :: Owns(out.inner.state, h) ==> Owns(s.inner.state, h) || h > s.inner.lastGeneration
    ensures Shape(s, out, actor)
  {
  }

  lemma DecideShape(s: Sys, o: Options, report: Outcome)
    ensures Shape(s, DecideOut(s, o, report), Supervisor(o.generation))
  {
    if s.poisoned {
      RecoveredShape(s, Some(StopOps(o.generation)), Supervisor(o.generation));
    } else if Usable(report) && MarkRunningSection(s.inner.state, o, report.port).1.Some? {
      MarkedShape(s, o, report.port);
    } else {
      hide Shape, MarkRunningSection;
      UndrainedShape(s, DecideOut(s, o, report), Supervisor(o.generation));
    }
  }

  lemma CallShape(s: Sys, e: Step)
    requires e.CallStart? || e.CallStop?
    requires Enabled(s, e) && !s.poisoned
    ensures Shape(s, OutOf(s, e), Actor(e))
  {
    hide Shape;
    UndrainedShape(s, OutOf(s, e), Actor(e));
  }

  lemma LockShape(s: Sys, e: Step)
    requires Enabled(s, e) && (e.CancelCurrent? || e.Transition?) && !s.poisoned
    ensures Shape(s, OutOf(s, e), Actor(e))
  {
    hide Shape;
    UndrainedShape(s, OutOf(s, e), Actor(e));
  }

  /** The steps that take the mutex. */
  predicate Locks(e: Step) {
    e.CallStart? || e.CallStop? || e.CancelCurrent? || e.FailSpawn? || e.Decide? || e.Finish? || e.FailCreation?
        || e.Transition?
  }

  lemma UnlockedShape(s: Sys, e: Step)
    requires Enabled(s, e) && !Locks(e) && !e.Perform?
    ensures Shape(s, OutOf(s, e), Actor(e))
  {
    hide Shape;
    UndrainedShape(s, OutOf(s, e), Actor(e));
  }

  lemma EndShape(s: Sys, e: Step)
    requires Enabled(s, e) && (e.Finish? || e.FailCreation?) && !s.poisoned && StateOk(s.inner.state, s.decided)
    ensures Shape(s, OutOf(s, e), Actor(e))
  {
    var gen := s.gens[e.g];
    var g := gen.options.generation;
    hide Shape, StateOk, FinishSection, CreationFailureSection;
    if e.Finish? {
      FinishShape(s, g, gen.sup.exit, if gen.sup.keepsOwner then Some(g) else None, Actor(e));
    } else {
      CreationShape(s, g, gen.sup.code, gen.sup.terminal, if gen.sup.terminal then Some(g) else None, Actor(e));
    }
  }

  lemma StepShape(s: Sys, e: Step)
    requires PlaceInv(s) && OutcomeInv(s) && Enabled(s, e) && !e.Perform?
    ensures Shape(s, OutOf(s, e), Actor(e))
  {
    hide Shape, PartsOk, CallersOk, OwnerOk, PlaceOk, StateOk, DecidedOk, OpsOk, ItemOk;
    hide RecoveredOut, DecideOut, EndSection, CreationFailureSection, StartSection, StopSection, DrainedOut;
    if e.Decide? {
      DecideShape(s, s.gens[e.g].options, s.gens[e.g].sup.outcome);
    } else if !Locks(e) {
      UnlockedShape(s, e);
    } else if s.poisoned {
      RecoveredShape(s, None, Actor(e));
    } else if e.Finish? || e.FailCreation? {
      EndShape(s, e);
    } else if e.FailSpawn? {
      CreationShape(s, CallerAt(s, e.call).generation, CallerAt(s, e.call).code, true, None, Actor(e));
    } else if e.CallStart? || e.CallStop? {
      CallShape(s, e);
    } else {
      LockShape(s, e);
    }
  }

  /** A thread that is given a list had no completion left in its own. */
  lemma ActorIdle(s: Sys, e: Step)
    requires KeysOk(s) && Enabled(s, e) && !e.Perform? && OutOf(s, e).own.Some?
    ensures NoQueueing(Todo(s, Actor(e)))
  {
  }

  lemma DrainIn(before: seq<Op>, d: Drain, g: nat, i: nat, h: nat)
    requires NoQueueing(before) && AllOf(d.starts, StartCall, g) && AllOf(d.stops, StopCall, g)
    ensures StartIn(before + DrainOps(d), i, h) <==> h == g && |before| <= i < |before| + |d.starts|
    ensures StopIn(before + DrainOps(d), i, h) <==>
              h == g && |before| + |d.starts| <= i < |before| + |d.starts| + |d.stops|
  {
    var n := |before|;
    if n <= i < n + |d.starts| {
      assert (before + DrainOps(d))[i] == Queue(Item(d.starts[i - n], d.startEvent, true));
    } else if n + |d.starts| <= i < n + |d.starts| + |d.stops| {
      assert (before + DrainOps(d))[i] == Queue(Item(d.stops[i - n - |d.starts|], d.stopEvent, true));
    }
  }

  lemma NoneIn(ops: seq<Op>, i: nat, h: nat)
    requires NoStored(ops)
    ensures !StartIn(ops, i, h) && !StopIn(ops, i, h)
  {
  }

  /** The lists after a step: the taker's is what it drained, and the others hold the starts and
      stops that they held before. */
  lemma ListsAfter(s: Sys, e: Step, u: Thread)
    requires KeysOk(s) && Enabled(s, e) && !e.Perform? && ListsShape(s, OutOf(s, e))
    ensures var out, list := OutOf(s, e), Todo(Apply(s, e), u);
            if u == Taker(s, e) then NoStored(Todo(s, u)) && list == Signals(s, out) + DrainOps(out.drain)
            else list == Todo(s, u) || (NoStored(list) && NoStored(Todo(s, u)))
  {
    TodoAfter(s, e, u);
    var out := OutOf(s, e);
    if out.own.Some? { ActorIdle(s, e); ActorNames(s, e); }
    assert Recoverer(s.recoveries) !in s.todo;
    if NothingIn(out.drain) { assert DrainOps(out.drain) == []; }
    if out.recovery.None? { assert Signals(s, out) + DrainOps(out.drain) == DrainOps(out.drain); }
    hide OutOf, Apply, Enabled, Signals, DrainOps;
  }

  lemma ActorNames(s: Sys, e: Step)
    requires Enabled(s, e) && !e.Perform? && OutOf(s, e).own.Some?
    ensures !Actor(e).Recoverer?
  {
  }

  /** The starts and stops after a step: those of before, and the drained ones with their taker. */
  lemma ItemsAfter(s: Sys, e: Step, u: Thread, i: nat, h: nat)
    requires KeysOk(s) && Enabled(s, e) && !e.Perform? && ListsShape(s, OutOf(s, e))
    requires AllOf(OutOf(s, e).drain.starts, StartCall, OutOf(s, e).drain.startEvent.generation)
    requires AllOf(OutOf(s, e).drain.stops, StopCall, OutOf(s, e).drain.startEvent.generation)
    ensures var d, n := OutOf(s, e).drain, |Signals(s, OutOf(s, e))|;
            && (StartAt(Apply(s, e), u, i, h) <==>
                if u == Taker(s, e) then h == d.startEvent.generation && n <= i < n + |d.starts|
                else StartAt(s, u, i, h))
            && (StopAt(Apply(s, e), u, i, h) <==>
                if u == Taker(s, e) then
                  h == d.startEvent.generation && n + |d.starts| <= i < n + |d.starts| + |d.stops|
                else StopAt(s, u, i, h))
            && (u == Taker(s, e) ==> !StartAt(s, u, i, h) && !StopAt(s, u, i, h))
  {
    ListsAfter(s, e, u);
    hide Apply, Enabled, Signals, DrainOps, AllOf, StartIn, StopIn, NoStored, NoQueueing;
    var out, list := OutOf(s, e), Todo(Apply(s, e), u);
    hide OutOf, Todo;
    if u == Taker(s, e) {
      DrainIn(Signals(s, out), out.drain, out.drain.startEvent.generation, i, h);
      NoneIn(Todo(s, u), i, h);
    } else if list != Todo(s, u) {
      NoneIn(list, i, h);
      NoneIn(Todo(s, u), i, h);
    }
  }

  /** A start that has left the state has been decided. */
  lemma StartsDecided(s: Sys)
    requires OutcomeInv(s)
    ensures forall u: Thread, i: nat, g: nat :: StartAt(s, u, i, g) ==> g in s.decided && g <= s.inner.lastGeneration
    ensures forall j: nat, g: nat :: QueuedStart(s, j, g) ==> g in s.decided
  {
    forall u: Thread, i: nat, g: nat | StartAt(s, u, i, g)
      ensures g in s.decided
    {
      assert OpsOk(s.decided, s.todo[u]);
      assert ItemOk(s.decided, s.todo[u][i].item);
    }
    forall j: nat, g: nat | QueuedStart(s, j, g)
      ensures g in s.decided
    {
      assert ItemOk(s.decided, s.queue[j]);
    }
  }

  /** What the outcome invariant says of a drain. */
  lemma DrainKinds(s: Sys, e: Step)
    requires OutcomeInv(s) && OwnerBelow(s.inner.state, s.inner.lastGeneration) && Enabled(s, e)
    ensures var d := OutOf(s, e).drain;
            && AllOf(d.starts, StartCall, d.startEvent.generation) && AllOf(d.stops, StopCall, d.startEvent.generation)
            && (d.starts != [] ==> d.startEvent.generation !in s.decided)
    ensures s.inner.lastGeneration <= OutOf(s, e).inner.lastGeneration
  {
    hide OwnerBelow, OutOf, Enabled, StateOk, DecidedOk, OpsOk, ItemOk, AllOf;
    OutOfOk(s, e);
  }

  lemma OwnerIsBelow(s: Sys)
    requires PlaceInv(s)
    ensures OwnerBelow(s.inner.state, s.inner.lastGeneration)
    ensures forall h: nat :: Owns(s.inner.state, h) ==> h <= s.inner.lastGeneration
  {
    hide PlacesOk, PartsOk, CallersOk;
  }

  lemma SameQueue(s: Sys, e: Step)
    requires Enabled(s, e) && !e.Perform?
    ensures Apply(s, e).queue == s.queue
  {
    hide OutOf, NextGens, Enabled;
  }

  /** What a step that performs nothing does to the starts and stops of every generation: thread
      `t`, which had none, takes the drained ones, behind `n` signals, and the rest stays. */
  ghost predicate DealtLists(s: Sys, s': Sys, t: Thread, d: Drain, n: nat) {
    var g := d.startEvent.generation;
    && (forall u: Thread, i: nat, h: nat ::
          StartAt(s', u, i, h) <==> if u == t then h == g && n <= i < n + |d.starts| else StartAt(s, u, i, h))
    && (forall u: Thread, k: nat, h: nat ::
          StopAt(s', u, k, h) <==>
              if u == t then h == g && n + |d.starts| <= k < n + |d.starts| + |d.stops| else StopAt(s, u, k, h))
    && (forall i: nat, h: nat :: !StartAt(s, t, i, h) && !StopAt(s, t, i, h))
  }

  /** It drains only the generation that owns the state, whose starts are decided once, and it
      retires a generation whose stops it drains. */
  ghost predicate Dealt(s: Sys, s': Sys, t: Thread, d: Drain, n: nat) {
    var g := d.startEvent.generation;
    && DealtLists(s, s', t, d, n)
    && s'.queue == s.queue && s.inner.lastGeneration <= s'.inner.lastGeneration
    && (forall u: Thread, i: nat, h: nat :: StartAt(s, u, i, h) ==> h <= s.inner.lastGeneration)
    && (!NothingIn(d) ==> Owns(s.inner.state, g) && g <= s.inner.lastGeneration)
    && (d.stops != [] ==> !Owns(s'.inner.state, g))
    && (d.starts != [] && Owns(s'.inner.state, g) ==> t == Supervisor(g))
    && (d.starts != [] ==>
         (forall u: Thread, i: nat :: !StartAt(s, u, i, g)) && (forall j: nat :: !QueuedStart(s, j, g)))
    && (forall h: nat :: Owns(s'.inner.state, h) ==> Owns(s.inner.state, h) || h > s.inner.lastGeneration)
  }

  /** What a draining section finds and leaves, in terms of who takes the completions. */
  lemma DealingState(s: Sys, e: Step)
    requires PlaceInv(s) && OutcomeInv(s) && Enabled(s, e) && !e.Perform?
    ensures ListsShape(s, OutOf(s, e))
    ensures var d := OutOf(s, e).drain;
            var g := d.startEvent.generation;
            && AllOf(d.starts, StartCall, g) && AllOf(d.stops, StopCall, g) && (d.starts != [] ==> g !in s.decided)
            && (!NothingIn(d) ==> Owns(s.inner.state, g) && g <= s.inner.lastGeneration)
            && (d.stops != [] ==> !Owns(Apply(s, e).inner.state, g))
            && (d.starts != [] && Owns(Apply(s, e).inner.state, g) ==> Taker(s, e) == Supervisor(g))
    ensures s.inner.lastGeneration <= Apply(s, e).inner.lastGeneration
    ensures forall h: nat :: Owns(Apply(s, e).inner.state, h) ==> Owns(s.inner.state, h) || h > s.inner.lastGeneration
  {
    OwnerIsBelow(s);
    StepShape(s, e);
    DrainKinds(s, e);
    hide PlaceInv, OutcomeInv, Enabled, OutOf, ListsShape, AllOf, Owns, NextGens, OwnerBelow;
  }

  lemma DealingLists(s: Sys, e: Step)
    requires KeysOk(s) && Enabled(s, e) && !e.Perform? && ListsShape(s, OutOf(s, e))
    requires AllOf(OutOf(s, e).drain.starts, StartCall, OutOf(s, e).drain.startEvent.generation)
    requires AllOf(OutOf(s, e).drain.stops, StopCall, OutOf(s, e).drain.startEvent.generation)
    ensures DealtLists(s, Apply(s, e), Taker(s, e), OutOf(s, e).drain, |Signals(s, OutOf(s, e))|)
  {
    var s', t, d, n := Apply(s, e), Taker(s, e), OutOf(s, e).drain, |Signals(s, OutOf(s, e))|;
    hide KeysOk, Enabled, OutOf, ListsShape, AllOf, StartAt, StopAt, Apply, Signals, Taker;
    forall u: Thread, i: nat, h: nat
      ensures StartAt(s', u, i, h) <==>
                if u == t then h == d.startEvent.generation && n <= i < n + |d.starts| else StartAt(s, u, i, h)
      ensures StopAt(s', u, i, h) <==>
                if u == t then h == d.startEvent.generation && n + |d.starts| <= i < n + |d.starts| + |d.stops|
                else StopAt(s, u, i, h)
      ensures u == t ==> !StartAt(s, u, i, h) && !StopAt(s, u, i, h)
    {
      ItemsAfter(s, e, u, i, h);
    }
  }

  lemma Dealing(s: Sys, e: Step)
    requires PlaceInv(s) && KeysOk(s) && OutcomeInv(s) && Enabled(s, e) && !e.Perform?
    ensures Dealt(s, Apply(s, e), Taker(s, e), OutOf(s, e).drain, |Signals(s, OutOf(s, e))|)
  {
    hide PlaceInv, KeysOk, OutcomeInv, Enabled, OutOf, ListsShape, AllOf, StartAt, StopAt, QueuedStart, Owns, Apply,
      Signals, Taker, DealtLists;
    DealingState(s, e);
    DealingLists(s, e);
    SameQueue(s, e);
    StartsDecided(s);
  }

  // ---------------------------------------------------------------- who can hold what

  /** Only a supervisor that has run is given a list. */
  lemma RunnersTakeLists(s: Sys, e: Step)
    requires Enabled(s, e) && !e.Perform? && OutOf(s, e).own.Some? && Actor(e).Supervisor?
    ensures IsGenStep(e) && Actor(e) == Supervisor(e.g)
    ensures !NextGens(s, e)[e.g].sup.NotRun? && !NextGens(s, e)[e.g].sup.Dropped?
  {
    if IsGenStep(e) { NextGenSup(s, e); }
    hide NextGen, DecideOut, EndOut, TransitionOut;
  }

  /** The lists of supervisors that have not run stay empty. */
  lemma UnrunList(s: Sys, e: Step, h: nat)
    requires PlaceInv(s) && KeysOk(s) && OrderInv(s) && Enabled(s, e) && !e.Perform?
    requires h in NextGens(s, e) && (NextGens(s, e)[h].sup.NotRun? || NextGens(s, e)[h].sup.Dropped?)
    ensures Todo(Apply(s, e), Supervisor(h)) == []
  {
    hide PlaceInv, Enabled, NextGens, NextGen, StartsAfresh, OutOf, Apply;
    TodoAfter(s, e, Supervisor(h));
    if OutOf(s, e).own.Some? && Actor(e).Supervisor? { RunnersTakeLists(s, e); }
    if StartsAfresh(s, e) { FreshIsNew(s, e); }
    if h in s.gens {
      GenAt(s, e, h);
      if e.SpawnSupervisor? { SpawnsNotRun(s, e); }
      if IsGenStep(e) { NextGenSup(s, e); }
    }
  }

  lemma DealtOrder(s: Sys, s': Sys, t: Thread, d: Drain, n: nat)
    requires OrderInv(s) && Dealt(s, s', t, d, n)
    ensures forall u: Thread, i: nat, h: nat :: StopAt(s', u, i, h) ==> Retired(s', h)
    ensures forall j: nat, h: nat :: QueuedStop(s', j, h) ==> Retired(s', h)
    ensures forall u: Thread, i: nat, h: nat :: StartAt(s', u, i, h) && Owns(s'.inner.state, h) ==> u == Supervisor(h)
  {
    assert forall j: nat, h: nat :: QueuedStop(s', j, h) ==> QueuedStop(s, j, h);
    hide Todo, StartAt, StopAt, QueuedStop, Owns;
  }

  /** Who can hold what stays so along every run. */
  lemma OrderKept(s: Sys, e: Step)
    requires PlaceInv(s) && KeysOk(s) && OutcomeInv(s) && OrderInv(s) && Enabled(s, e)
    ensures OrderInv(Apply(s, e))
  {
    if e.Perform? {
      hide PlaceInv, OutcomeInv, OrderInv, Apply, KeysOk, Enabled;
      PerformOrder(s, e.thread);
    } else {
      var s' := Apply(s, e);
      hide PlaceInv, OutcomeInv, KeysOk, Enabled, Dealt, Apply, NextGens, Todo, StartAt, StopAt, QueuedStop, Owns,
        Retired, OutOf, Signals, Taker;
      AppliedGens(s, e);
      Dealing(s, e);
      DealtOrder(s, s', Taker(s, e), OutOf(s, e).drain, |Signals(s, OutOf(s, e))|);
      forall h: nat | h in s'.gens && (s'.gens[h].sup.NotRun? || s'.gens[h].sup.Dropped?)
        ensures Todo(s', Supervisor(h)) == []
      {
        UnrunList(s, e, h);
      }
    }
  }

  // ---------------------------------------------------------------- the order of one generation

  lemma OneOwner(st: State, g: nat, h: nat)
    requires Owns(st, g) && Owns(st, h)
    ensures g == h
  {
  }

  /** An overtaken generation is left with a start and a stop in two different lists. */
  lemma DealtBreaks(s: Sys, s': Sys, t: Thread, d: Drain, n: nat, g: nat)
    requires Dealt(s, s', t, d, n) && d.stops != [] && Owns(s.inner.state, g) && StartsInHand(s, g)
    ensures !Sequenced(s', g) && t != Supervisor(g)
  {
    OneOwner(s.inner.state, g, d.startEvent.generation);
    var i: nat :| StartAt(s, Supervisor(g), i, g);
    hide Todo, StartAt, StopAt, Owns;
    assert StartAt(s', Supervisor(g), i, g) && StopAt(s', t, n + |d.starts|, g);
  }

  lemma DealtSequenced(s: Sys, s': Sys, t: Thread, d: Drain, n: nat, g: nat)
    requires OrderInv(s) && Sequenced(s, g) && Dealt(s, s', t, d, n)
    requires !(d.stops != [] && Owns(s.inner.state, g) && StartsInHand(s, g))
    ensures Sequenced(s', g)
  {
    assert forall j: nat :: QueuedStop(s', j, g) <==> QueuedStop(s, j, g);
    assert forall j: nat :: QueuedStart(s', j, g) <==> QueuedStart(s, j, g);
    hide Todo, StartAt, StopAt, QueuedStop, QueuedStart, Owns;
    forall u: Thread, i: nat, v: Thread, k: nat | StartAt(s', u, i, g) && StopAt(s', v, k, g)
      ensures u == v && i < k
    {
      assert v != t ==> StopAt(s, v, k, g);
    }
  }

  /** A step keeps the order of a generation exactly when it does not overtake it, and only a
      recoverer or a caller that could not spawn can. */
  lemma SequencedExactly(s: Sys, e: Step, g: nat)
    requires PlaceInv(s) && KeysOk(s) && OutcomeInv(s) && OrderInv(s) && Enabled(s, e)
    ensures Sequenced(s, g) ==> (Sequenced(Apply(s, e), g) <==> !Overtakes(s, e, g))
    ensures Overtakes(s, e, g) ==> !e.Perform? && !Sequenced(Apply(s, e), g) && Taker(s, e) != Supervisor(g)
  {
    if e.Perform? {
      assert !Overtakes(s, e, g);
      hide PlaceInv, KeysOk, Enabled, OutOf, OutcomeInv, OrderInv, Apply, Sequenced;
      if Sequenced(s, g) { PerformSequenced(s, e.thread, g); }
    } else {
      var s', t, d, n := Apply(s, e), Taker(s, e), OutOf(s, e).drain, |Signals(s, OutOf(s, e))|;
      hide PlaceInv, KeysOk, Enabled, OutcomeInv, OrderInv, Apply, Sequenced, StartsInHand, Dealt, Taker, Signals,
        OutOf;
      Dealing(s, e);
      if Overtakes(s, e, g) { DealtBreaks(s, s', t, d, n, g); }
      else if Sequenced(s, g) { DealtSequenced(s, s', t, d, n, g); }
    }
  }

  /** Where an overtaking step's lock finds the mutex poisoned, or its caller could not spawn. */
  lemma OvertakenBy(s: Sys, e: Step, g: nat)
    requires PlaceInv(s) && Enabled(s, e) && Overtakes(s, e, g) && Taker(s, e) != Supervisor(g)
    ensures s.poisoned || e.FailSpawn?
  {
    if !s.poisoned {
      StopDrains(s, e);
      if !e.FailSpawn? { EndTaker(s, e, g); }
    }
    hide PlaceInv, Enabled, OutOf, Taker;
  }

  lemma EndTaker(s: Sys, e: Step, g: nat)
    requires PlaceInv(s) && Enabled(s, e) && (e.Finish? || e.FailCreation?) && !s.poisoned
    requires OutOf(s, e).drain.stops != [] && Owns(s.inner.state, g)
    ensures Taker(s, e) == Supervisor(g)
  {
    hide PartsOk, CallersOk, OwnerOk, PlaceOk;
  }

  /** A retired generation stays retired, and nothing overtakes it any more. */
  lemma RetiredKept(s: Sys, e: Step, g: nat)
    requires PlaceInv(s) && KeysOk(s) && OutcomeInv(s) && Enabled(s, e) && Retired(s, g)
    ensures Retired(Apply(s, e), g) && !Overtakes(s, e, g)
  {
    if e.Perform? {
      hide PlaceInv, KeysOk, OutcomeInv, NextGens;
    } else {
      hide PlaceInv, KeysOk, Enabled, OutcomeInv, OutOf, NextGens, Owns, StartAt, StopAt;
      Dealing(s, e);
    }
  }

  // ---------------------------------------------------------------- without an excuse

  /** Without an excuse, a pending supervisor and a failing caller find the state theirs. */
  lemma StillOwned(s: Sys, g: nat)
    requires PlaceInv(s) && !s.excused && g in s.gens && Responsible(CallerAt(s, s.gens[g].starter), s.gens[g])
    ensures Owns(s.inner.state, g) && g == s.inner.lastGeneration && s.gens[g].options.generation == g
  {
  }

  lemma StopDrains(s: Sys, e: Step)
    requires Enabled(s, e) && !s.poisoned && OutOf(s, e).drain.stops != []
    ensures e.Finish? || e.FailCreation? || e.FailSpawn?
  {
  }

  /** Without an excuse no step overtakes any generation. */
  lemma UnexcusedDrain(s: Sys, e: Step, g: nat)
    requires PlaceInv(s) && OrderInv(s) && Enabled(s, e) && !s.excused
    ensures !Overtakes(s, e, g)
  {
    if OutOf(s, e).drain.stops != [] && Owns(s.inner.state, g) {
      assert !s.poisoned by { hide PlacesOk, PartsOk, CallersOk, OrderInv; }
      StopDrains(s, e);
      if e.FailSpawn? {
        var h := CallerAt(s, e.call).generation;
        assert CallerOk(s.gens, s.excused, e.call, s.callers[e.call]);
        StillOwned(s, h);
        OneOwner(s.inner.state, g, h);
        assert Todo(s, Supervisor(g)) == [];
      } else {
        StillOwned(s, e.g);
        OneOwner(s.inner.state, g, e.g);
        assert Todo(s, Supervisor(g)) == [];
      }
    }
    hide PlaceInv, OrderInv, OutOf, Enabled, Owns;
  }

  // ---------------------------------------------------------------- a broken order shows

  /** `n` times the same step. */
  function Repeat(e: Step, n: nat): (run: seq<Step>)
    ensures |run| == n
  {
    seq(n, i => e)
  }

  /** Performing the first operations of one list queues them and touches no other list. */
  lemma {:induction false} PerformRun(s: Sys, t: Thread, n: nat)
    requires n <= |Todo(s, t)|
    ensures Feasible(s, Repeat(Perform(t), n))
    ensures var s' := Exec(s, Repeat(Perform(t), n));
            && (forall u: Thread :: Todo(s', u) == if u == t then Todo(s, t)[n..] else Todo(s, u))
            && s.queue <= s'.queue
            && (n > 0 && Todo(s, t)[n - 1].Queue? ==>
                 |s'.queue| > |s.queue| && s'.queue[|s'.queue| - 1] == Todo(s, t)[n - 1].item)
    decreases n
  {
    if n == 0 {
      assert Repeat(Perform(t), 0) == [];
    } else {
      assert Enabled(s, Perform(t));
      PerformLists(s, t);
      var s1 := Apply(s, Perform(t));
      assert Repeat(Perform(t), n)[1..] == Repeat(Perform(t), n - 1);
      hide Apply, Todo, Enabled;
      PerformRun(s1, t, n - 1);
    }
  }

  /** A held stop of `g` was queued before a start that `g` had gathered. */
  ghost predicate OutOfOrder(s: Sys, g: nat) {
    exists j: nat, k: nat :: QueuedStop(s, j, g) && QueuedStart(s, k, g) && j < k
  }

  lemma StartAfterStop(s: Sys, j: nat, t: Thread, i: nat, g: nat) returns (run: seq<Step>)
    requires QueuedStop(s, j, g) && StartAt(s, t, i, g)
    ensures Feasible(s, run) && OutOfOrder(Exec(s, run), g) && forall k :: 0 <= k < |run| ==> run[k].Perform?
  {
    run := Repeat(Perform(t), i + 1);
    PerformRun(s, t, i + 1);
    var s' := Exec(s, run);
    hide Apply, Enabled;
    assert QueuedStop(s', j, g) && QueuedStart(s', |s'.queue| - 1, g);
  }

  lemma StopFirst(s: Sys, t: Thread, i: nat, u: Thread, k: nat, g: nat) returns (run: seq<Step>)
    requires StartAt(s, t, i, g) && StopAt(s, u, k, g) && !(t == u && i < k)
    ensures Feasible(s, run) && OutOfOrder(Exec(s, run), g) && forall k :: 0 <= k < |run| ==> run[k].Perform?
  {
    var before := Repeat(Perform(u), k + 1);
    PerformRun(s, u, k + 1);
    var s' := Exec(s, before);
    hide Apply, Enabled;
    var after := StartAfterStop(s', |s'.queue| - 1, t, if t == u then i - k - 1 else i, g);
    ExecConcat(s, before, after);
    run := before + after;
  }

  /** A broken order shows: its threads need only go on with their lists to queue a stop of `g`
      before a start of `g`. And where the order is kept, no such pair is queued. */
  lemma BrokenOrderShows(s: Sys, g: nat) returns (run: seq<Step>)
    ensures Sequenced(s, g) ==> !OutOfOrder(s, g)
    ensures !Sequenced(s, g) ==>
              Feasible(s, run) && OutOfOrder(Exec(s, run), g) && forall k :: 0 <= k < |run| ==> run[k].Perform?
  {
    run := [];
    hide Apply, Enabled, StartAt, StopAt;
    if t: Thread, i: nat, u: Thread, k: nat :| StartAt(s, t, i, g) && StopAt(s, u, k, g) && !(t == u && i < k) {
      run := StopFirst(s, t, i, u, k, g);
    } else if t: Thread, i: nat, j: nat :| StartAt(s, t, i, g) && QueuedStop(s, j, g) {
      run := StartAfterStop(s, j, t, i, g);
    }
  }
}
