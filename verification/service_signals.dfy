/** Cancellation: every thread cancels before it asks the monitor to stop, so a worker whose
    generation has been retired has either ended or sees its cancel signal. */
module ServiceSignals {
  import opened ServiceCore
  import opened ServiceWorker
  import opened ServiceProtocol
  import opened ServiceParts
  import opened ServicePlace

  predicate NeedsCancel(sup: Sup) {
    sup.WaitingStopping? || sup.WaitingOnly? || sup.AtTransition? || (sup.AtCreationFailure? && sup.terminal)
  }

  predicate GenSignal(ops: seq<Op>, gen: Gen) {
    && (gen.lc.stopRequested ==> gen.cancelled)
    && (NeedsCancel(gen.sup) ==> gen.cancelled || (ops != [] && ops[0] == Cancel(gen.options.generation)))
    && (gen.sup.AtFinish? || gen.sup.Leaving? || gen.sup.Gone? ==> gen.cancelled || !Unjoined(gen))
  }

  predicate CancelledBefore(gens: map<nat, Gen>, ops: seq<Op>, i: nat)
    requires i < |ops| && ops[i].RequestStop?
  {
    var g := ops[i].generation;
    g in gens && (gens[g].cancelled || (i > 0 && ops[i - 1] == Cancel(g)))
  }

  /** In every list, a request to stop comes right after the cancel of the same generation. */
  predicate CancelsFirst(gens: map<nat, Gen>, ops: seq<Op>) {
    forall i :: 0 <= i < |ops| && ops[i].RequestStop? ==> CancelledBefore(gens, ops, i)
  }

  predicate SignalInv(s: Sys) {
    && (forall g :: g in s.gens ==> GenSignal(Todo(s, Supervisor(g)), s.gens[g]))
    && (forall t :: t in s.todo ==> CancelsFirst(s.gens, s.todo[t]))
  }

  // ---------------------------------------------------------------- lists

  predicate GensGrown(gens: map<nat, Gen>, gens': map<nat, Gen>) {
    forall g :: g in gens ==> g in gens' && (gens[g].cancelled ==> gens'[g].cancelled)
  }

  lemma ListGrown(gens: map<nat, Gen>, gens': map<nat, Gen>, ops: seq<Op>)
    requires GensGrown(gens, gens') && CancelsFirst(gens, ops)
    ensures CancelsFirst(gens', ops)
  {
  }

  lemma NextGenCancelled(s: Sys, e: Step)
    requires IsGenStep(e) && Enabled(s, e)
    ensures s.gens[e.g].cancelled == NextGen(s, e).cancelled
  {
    hide EndState;
  }

  lemma CancelsStay(s: Sys, e: Step)
    requires PlaceInv(s) && Enabled(s, e)
    ensures GensGrown(s.gens, NextGens(s, e))
  {
    if StartsAfresh(s, e) { FreshIsNew(s, e); }
    hide NextGen, NextGens, PlaceInv, StartsAfresh, Enabled;
    forall g | g in s.gens
      ensures g in NextGens(s, e) && (s.gens[g].cancelled ==> NextGens(s, e)[g].cancelled)
    {
      GenAt(s, e, g);
      if IsGenStep(e) { NextGenCancelled(s, e); }
    }
  }

  lemma RecoveryList(s: Sys)
    requires PlaceInv(s)
    ensures var (_, ops, d) := RecoverSection(s.inner); CancelsFirst(s.gens, ops + DrainOps(d))
  {
    hide PartsOk, PlacesOk, CallersOk;
  }

  lemma TailList(s: Sys, t: Thread)
    requires PlaceInv(s) && SignalInv(s) && Enabled(s, Perform(t))
    ensures CancelsFirst(NextGens(s, Perform(t)), Todo(s, t)[1..])
  {
    CancelsStay(s, Perform(t));
    hide PlaceInv;
    var ops := Todo(s, t);
    assert CancelsFirst(s.gens, ops);
    forall i | 0 <= i < |ops| - 1 && ops[1..][i].RequestStop?
      ensures CancelledBefore(NextGens(s, Perform(t)), ops[1..], i)
    {
      assert ops[1..][i] == ops[i + 1];
      assert CancelledBefore(s.gens, ops, i + 1);
      if i > 0 { assert ops[1..][i - 1] == ops[i]; }
    }
  }

  /** The lists a step hands out cancel first. */
  lemma NewLists(s: Sys, e: Step)
    requires PlaceInv(s) && SignalInv(s) && Enabled(s, e)
    ensures OutOf(s, e).own.Some? ==> CancelsFirst(NextGens(s, e), OutOf(s, e).own.value)
    ensures OutOf(s, e).recovery.Some? ==> CancelsFirst(NextGens(s, e), OutOf(s, e).recovery.value)
  {
    CancelsStay(s, e);
    if OutOf(s, e).recovery.Some? {
      RecoveryList(s);
      ListGrown(s.gens, NextGens(s, e), OutOf(s, e).recovery.value);
    }
    if e.Perform? {
      TailList(s, e.thread);
    } else if OutOf(s, e).own.Some? {
      OwnList(s, e);
      ListGrown(s.gens, NextGens(s, e), OutOf(s, e).own.value);
    }
  }

  lemma OwnList(s: Sys, e: Step)
    requires PlaceInv(s) && Enabled(s, e) && OutOf(s, e).own.Some? && !e.Perform?
    ensures CancelsFirst(s.gens, OutOf(s, e).own.value)
  {
    hide PartsOk, PlaceOk, CallersOk, RecoverSection, EndSection, CreationFailureSection;
  }

  // ---------------------------------------------------------------- one generation's signals

  lemma UnlockedSignal(s: Sys, e: Step)
    requires IsGenStep(e) && Enabled(s, e) && GenPartsOk(s.gens[e.g])
    requires s.gens[e.g].options.generation == e.g
    requires GenSignal(Todo(s, Supervisor(e.g)), s.gens[e.g])
    ensures GenSignal(if OutOf(s, e).own.Some? then OutOf(s, e).own.value else Todo(s, Supervisor(e.g)), NextGen(s, e))
  {
    hide EndOut, EndState, RecoverSection, TransitionSection, WorkerStep, TrySend, WorkerOk, ChannelOk, DrainOps;
  }

  lemma OpSignal(ops: seq<Op>, ops': seq<Op>, gen: Gen, op: Op)
    requires GenSignal(ops, gen) && !op.Queue? && op.generation == gen.options.generation
    requires ops' == ops || (ops != [] && op == ops[0])
    requires op.RequestStop? ==> gen.cancelled
    ensures GenSignal(ops', OpGen(gen, op))
  {
  }

  lemma SignalByGen(s: Sys, e: Step, g: nat)
    requires PlaceInv(s) && SignalInv(s) && Enabled(s, e) && IsGenStep(e) && g in s.gens
    ensures g in NextGens(s, e) && GenSignal(Todo(Apply(s, e), Supervisor(g)), NextGens(s, e)[g])
  {
    NamedParts(s, g);
    hide PlaceInv, GenSignal, GenPartsOk, NextGen, NextGens, OutOf, Apply, CancelsFirst, Todo, StartsAfresh;
    GenAt(s, e, g);
    SupervisorTodo(s, e, g);
    if e.g == g { UnlockedSignal(s, e); } else { ActsForItself(s, e); }
  }

  lemma ActsForItself(s: Sys, e: Step)
    requires IsGenStep(e) && Enabled(s, e)
    ensures Actor(e) == Supervisor(e.g)
  {
  }

  lemma SignalByCall(s: Sys, e: Step, g: nat)
    requires PlaceInv(s) && SignalInv(s) && Enabled(s, e) && !IsGenStep(e) && !e.Perform? && g in NextGens(s, e)
    ensures GenSignal(Todo(Apply(s, e), Supervisor(g)), NextGens(s, e)[g])
  {
    hide PlaceInv, GenSignal, NextGens, OutOf, Apply, CancelsFirst, Todo, StartsAfresh;
    if StartsAfresh(s, e) { FreshIsNew(s, e); }
    if g !in s.gens { BornOf(s, e, g); }
    SupervisorTodo(s, e, g);
    if g !in s.gens {
      NewSignal(Todo(Apply(s, e), Supervisor(g)), e.options, e.call);
    } else {
      GenAt(s, e, g);
      if e.SpawnSupervisor? {
        SpawnsNotRun(s, e);
        if CallerAt(s, e.call).generation == g { SpawnSignal(Todo(s, Supervisor(g)), s.gens[g], e.outcome); }
      }
    }
  }

  lemma GenKeys(s: Sys, e: Step)
    requires IsGenStep(e) && Enabled(s, e)
    ensures NextGens(s, e).Keys == s.gens.Keys
  {
    hide NextGen;
  }

  lemma NamedParts(s: Sys, g: nat)
    requires PlaceInv(s) && g in s.gens
    ensures GenPartsOk(s.gens[g]) && s.gens[g].options.generation == g
  {
    PartsAt(s, g);
  }

  lemma NewSignal(ops: seq<Op>, o: Options, call: nat)
    ensures GenSignal(ops, NewGen(o, call))
  {
  }

  lemma SpawnSignal(ops: seq<Op>, gen: Gen, outcome: SpawnOutcome)
    requires GenSignal(ops, gen)
    ensures gen.sup.NotRun? ==> GenSignal(ops, gen.(sup := SpawnedSup(outcome)))
  {
  }

  lemma PerformSignal(s: Sys, t: Thread, g: nat)
    requires PlaceInv(s) && SignalInv(s) && Enabled(s, Perform(t)) && g in s.gens
    ensures g in NextGens(s, Perform(t)) && GenSignal(Todo(Apply(s, Perform(t)), Supervisor(g)),
              NextGens(s, Perform(t))[g])
  {
    SupervisorTodo(s, Perform(t), g);
    var op := Todo(s, t)[0];
    assert CancelsFirst(s.gens, Todo(s, t));
    if op.RequestStop? { FirstStop(s.gens, Todo(s, t)); }
    assert s.gens[g].options.generation == g;
    if !op.Queue? && op.generation == g {
      OpSignal(Todo(s, Supervisor(g)),
               if t == Supervisor(g) then Todo(s, t)[1..] else Todo(s, Supervisor(g)),
               s.gens[g],
               op);
    } else if t == Supervisor(g) {
      OtherOpSignal(Todo(s, t), s.gens[g]);
    }
  }

  lemma FirstStop(gens: map<nat, Gen>, ops: seq<Op>)
    requires CancelsFirst(gens, ops) && ops != [] && ops[0].RequestStop?
    ensures ops[0].generation in gens && gens[ops[0].generation].cancelled
  {
    assert CancelledBefore(gens, ops, 0);
  }

  lemma OtherOpSignal(ops: seq<Op>, gen: Gen)
    requires GenSignal(ops, gen) && ops != [] && ops[0] != Cancel(gen.options.generation)
    ensures GenSignal(ops[1..], gen)
  {
  }

  lemma SupervisorTodo(s: Sys, e: Step, g: nat)
    requires Enabled(s, e)
    ensures Todo(Apply(s, e), Supervisor(g)) ==
            if Actor(e) == Supervisor(g) && OutOf(s, e).own.Some? then OutOf(s, e).own.value else Todo(s, Supervisor(g))
  {
    hide OutOf, NextGens, Enabled;
  }

  lemma ListAfter(s: Sys, e: Step, t: Thread)
    requires PlaceInv(s) && SignalInv(s) && Enabled(s, e) && t in NextTodo(s, e)
    ensures CancelsFirst(NextGens(s, e), NextTodo(s, e)[t])
  {
    hide PlaceInv, GenSignal, CancelsFirst, OutOf, NextGens, Enabled, GensGrown;
    NewLists(s, e);
    CancelsStay(s, e);
    if t in s.todo { ListGrown(s.gens, NextGens(s, e), s.todo[t]); }
  }

  /** The cancel-before-stop discipline holds along every run. */
  lemma SignalKept(s: Sys, e: Step)
    requires PlaceInv(s) && SignalInv(s) && Enabled(s, e)
    ensures SignalInv(Apply(s, e))
  {
    AppliedTo(s, e);
    if IsGenStep(e) { GenKeys(s, e); }
    var s' := Apply(s, e);
    hide PlaceInv, GenSignal, CancelsFirst, NextTodo, NextGens, Enabled, Todo, Apply;
    forall t | t in s'.todo
      ensures CancelsFirst(s'.gens, s'.todo[t])
    {
      ListAfter(s, e, t);
    }
    forall g | g in s'.gens
      ensures GenSignal(Todo(s', Supervisor(g)), s'.gens[g])
    {
      if IsGenStep(e) { SignalByGen(s, e, g); }
      else if e.Perform? { PerformSignal(s, e.thread, g); }
      else { SignalByCall(s, e, g); }
    }
  }

  lemma AppliedTo(s: Sys, e: Step)
    requires Enabled(s, e)
    ensures Apply(s, e).gens == NextGens(s, e) && Apply(s, e).todo == NextTodo(s, e)
  {
    hide NextTodo, NextGens, Enabled, OutOf;
  }
}
