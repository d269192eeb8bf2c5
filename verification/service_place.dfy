/** The invariant that ties every generation's threads to the shared state: whose turn it is,
    who still has to retire a generation, and that no worker outlives the Stopped state. */
module ServicePlace {
  import opened Optional
  import opened ServiceCore
  import opened ServiceWorker
  import opened ServiceProtocol
  import opened ServiceParts

  /** The supervisor has yet to retire its generation. */
  predicate Pending(sup: Sup) {
    !sup.Dropped? && !sup.Leaving? && !sup.Gone?
  }

  /** The starting caller has yet to spawn the supervisor of `g` or to fail it. */
  predicate Owed(pc: CallerPc, g: nat) {
    !pc.Returning? && pc.generation == g
  }

  /** Some thread has yet to retire this generation. */
  predicate Responsible(pc: CallerPc, gen: Gen) {
    Pending(gen.sup) || (gen.sup.Dropped? && Owed(pc, gen.options.generation))
  }

  predicate MayStart(sup: Sup) {
    match sup
    case WaitingRunning => false
    case WaitingStopping(_) => false
    case WaitingOnly => false
    case AtFinish(_, _, _) => false
    case _ => true
  }

  predicate MayRun(sup: Sup) {
    match sup
    case WaitingRunning => true
    case WaitingStopping(recovering) => !recovering
    case AtFinish(_, recovering, _) => !recovering
    case AtTransition => true
    case _ => false
  }

  predicate PlaceOk(st: State, last: nat, excused: bool, pc: CallerPc, gen: Gen) {
    var g := gen.options.generation;
    && 0 < g <= last
    && (Responsible(pc, gen) || Unjoined(gen) ==> g == last && !st.Stopped?)
    && (Owns(st, g) ==> Responsible(pc, gen))
    && (gen.sup.NotRun? ==> pc == Spawning(g))
    && (st.Starting? && Owns(st, g) ==> st.options == gen.options && MayStart(gen.sup))
    && (st.Running? && Owns(st, g) ==> st.options == gen.options && MayRun(gen.sup))
    && (!excused && st.Failed? ==> !Responsible(pc, gen))
    && (!Pending(gen.sup) && gen.handle == InOwner && gen.reaper.NoReaper? ==> st.Failed? && st.quarantine == Some(g))
    && (!excused ==> gen.handle != Lost)
    && (gen.sup.WaitingOnly? ==> st.Failed?)
  }

  predicate CallerOk(gens: map<nat, Gen>, excused: bool, call: nat, pc: CallerPc) {
    !pc.Returning? ==>
      && pc.generation in gens
      && gens[pc.generation].starter == call
      && (pc.Spawning? ==> gens[pc.generation].sup.NotRun?)
      && (!pc.Spawning? && !excused ==> gens[pc.generation].sup.Dropped?)
      && (!pc.Spawning? ==> !gens[pc.generation].sup.NotRun?)
  }

  predicate Owned(st: State) {
    !st.Stopped? && !st.Failed?
  }

  predicate OwnerOk(s: Sys) {
    && OwnedBy(s.inner.state, s.inner.lastGeneration)
    && (Owned(s.inner.state) ==> s.inner.lastGeneration in s.gens)
    && (s.inner.state.Running? ==> s.inner.state.port != 0)
    && s.inner.lastGeneration < MAX_GENERATION
    && (s.poisoned ==> s.excused)
  }

  predicate PlacesOk(s: Sys) {
    forall g :: g in s.gens ==>
      && s.gens[g].options.generation == g
      && PlaceOk(s.inner.state, s.inner.lastGeneration, s.excused, CallerAt(s, s.gens[g].starter), s.gens[g])
  }

  predicate CallersOk(s: Sys) {
    && (forall call :: call in s.callers ==> CallerOk(s.gens, s.excused, call, s.callers[call]))
    && (forall call :: call in s.callers ==> call in s.accepted)
    && (forall g :: g in s.gens ==> s.gens[g].starter in s.callers)
  }

  predicate PlaceInv(s: Sys) {
    PartsOk(s) && OwnerOk(s) && PlacesOk(s) && CallersOk(s)
  }

  // ---------------------------------------------------------------- one generation at a time

  /** A generation other than the last is quiet, whatever the state becomes. */
  lemma QuietPlace(st: State, st': State, last: nat, last': nat, excused: bool, excused': bool, pc: CallerPc,
      pc': CallerPc, gen: Gen)
    requires PlaceOk(st, last, excused, pc, gen)
    requires !Responsible(pc, gen) && !Responsible(pc', gen) && !Unjoined(gen)
    requires !Owns(st', gen.options.generation) && last <= last'
    ensures PlaceOk(st', last', excused', pc', gen)
  {
  }

  /** Recovering a poisoned mutex leaves every generation in place. */
  lemma RecoveredPlace(inner: Inner, pc: CallerPc, gen: Gen)
    requires PlaceOk(inner.state, inner.lastGeneration, true, pc, gen)
    ensures PlaceOk(RecoverSection(inner).0, inner.lastGeneration, true, pc, gen)
  {
  }

  lemma GatherPlace(inner: Inner, o: Options, c: Completion, excused: bool, pc: CallerPc, gen: Gen)
    requires PlaceOk(inner.state, inner.lastGeneration, excused, pc, gen)
    requires !StartSection(inner, o, c).1.Fresh?
    ensures PlaceOk(StartSection(inner, o, c).0.state, inner.lastGeneration, excused, pc, gen)
    ensures StartSection(inner, o, c).0.lastGeneration == inner.lastGeneration
  {
  }

  lemma StopPlace(inner: Inner, g: nat, c: Completion, excused: bool, pc: CallerPc, gen: Gen)
    requires PlaceOk(inner.state, inner.lastGeneration, excused, pc, gen)
    ensures PlaceOk(StopSection(inner, g, c).0.state, inner.lastGeneration, excused, pc, gen)
    ensures StopSection(inner, g, c).0.lastGeneration == inner.lastGeneration
  {
  }

  lemma OpPlace(st: State, last: nat, excused: bool, pc: CallerPc, gen: Gen, op: Op)
    requires PlaceOk(st, last, excused, pc, gen)
    ensures PlaceOk(st, last, excused, pc, OpGen(gen, op))
    ensures OpGen(gen, op).options == gen.options && OpGen(gen, op).starter == gen.starter
              && OpGen(gen, op).sup == gen.sup
  {
  }

  /** A caller that has not spawned its supervisor either does so or keeps owing it. */
  lemma SpawnPlace(st: State, last: nat, excused: bool, gen: Gen, outcome: SpawnOutcome, pc': CallerPc)
    requires PlaceOk(st, last, excused, Spawning(gen.options.generation), gen) && gen.sup.NotRun? && GenPartsOk(gen)
    requires if outcome.SpawnOk? then pc' == Returning else pc'.SpawnCancel? && pc'.generation == gen.options.generation
    ensures PlaceOk(st, last, excused || (outcome.SpawnPanicked? && outcome.ran), pc', gen.(sup := SpawnedSup(outcome)))
  {
  }

  /** A caller on its way from cancelling to failing still owes the same generation. */
  lemma MovedPlace(st: State, last: nat, excused: bool, pc: CallerPc, pc': CallerPc, gen: Gen)
    requires PlaceOk(st, last, excused, pc, gen) && pc.SpawnCancel? && pc' == SpawnFail(pc.generation, pc.code)
    ensures PlaceOk(st, last, excused, pc', gen)
  {
  }

  /** What a caller's failure to spawn does to the place of its own generation and of the others. */
  lemma FailSpawnPlace(st: State, last: nat, g: nat, code: Code, excused: bool, pc: CallerPc, pc': CallerPc, gen: Gen)
    requires PlaceOk(st, last, excused, pc, gen) && OwnedBy(st, last) && GenPartsOk(gen)
    requires if gen.options.generation == g then pc.SpawnFail? && pc.generation == g && pc' == Returning
             else pc' == pc || (pc.SpawnFail? && pc.generation == g && pc' == Returning)
    requires !excused && gen.options.generation == g ==> gen.sup.Dropped?
    requires !excused ==> g == last && Owns(st, g)
    ensures PlaceOk(CreationFailureSection(st, g, code, true, None).0, last, excused, pc', gen)
  {
  }

  /** The same when the mutex turns out to be poisoned. */
  lemma FailSpawnRecovered(inner: Inner, g: nat, pc: CallerPc, pc': CallerPc, gen: Gen)
    requires PlaceOk(inner.state, inner.lastGeneration, true, pc, gen)
    requires pc' == pc || (pc.SpawnFail? && pc.generation == g && pc' == Returning)
    ensures PlaceOk(RecoverSection(inner).0, inner.lastGeneration, true, pc', gen)
  {
  }

  predicate IsSection(e: Step) {
    e.Decide? || e.Finish? || e.FailCreation? || e.Transition?
  }

  lemma UnlockedPlace(s: Sys, e: Step, pc: CallerPc)
    requires IsGenStep(e) && !IsSection(e) && Enabled(s, e) && GenPartsOk(s.gens[e.g])
    requires PlaceOk(s.inner.state, s.inner.lastGeneration, s.excused, pc, s.gens[e.g])
    ensures PlaceOk(s.inner.state, s.inner.lastGeneration, s.excused, pc, NextGen(s, e))
  {
    hide WorkerStep, WorkerOk, TrySend, ChannelOk;
  }

  lemma DecidePlace(s: Sys, g: nat, pc: CallerPc)
    requires Enabled(s, Decide(g)) && GenPartsOk(s.gens[g]) && (s.poisoned ==> s.excused)
    requires PlaceOk(s.inner.state, s.inner.lastGeneration, s.excused, pc, s.gens[g])
    ensures PlaceOk(DecideOut(s, s.gens[g].options, s.gens[g].sup.outcome).inner.state, s.inner.lastGeneration,
              s.excused, pc, NextGen(s, Decide(g)))
  {
    hide DrainOps;
  }

  lemma EndPlace(s: Sys, e: Step, pc: CallerPc)
    requires (e.Finish? || e.FailCreation?) && Enabled(s, e) && GenPartsOk(s.gens[e.g]) && (s.poisoned ==> s.excused)
    requires PlaceOk(s.inner.state, s.inner.lastGeneration, s.excused, pc, s.gens[e.g])
    requires OwnedBy(s.inner.state, s.inner.lastGeneration)
    ensures PlaceOk(EndOut(s, s.gens[e.g]).inner.state, s.inner.lastGeneration, s.excused, pc, NextGen(s, e))
  {
    hide DrainOps;
  }

  lemma TransitionPlace(s: Sys, g: nat, pc: CallerPc)
    requires Enabled(s, Transition(g)) && GenPartsOk(s.gens[g]) && (s.poisoned ==> s.excused)
    requires s.gens[g].options.generation == g
    requires PlaceOk(s.inner.state, s.inner.lastGeneration, s.excused, pc, s.gens[g])
    ensures PlaceOk(TransitionOut(s, g).inner.state, s.inner.lastGeneration, s.excused, pc, NextGen(s, Transition(g)))
  {
    hide DrainOps;
  }

  // ---------------------------------------------------------------- the owner of the state

  lemma SectionOwner(s: Sys, e: Step)
    requires IsSection(e) && Enabled(s, e) && OwnedBy(s.inner.state, s.inner.lastGeneration)
    requires s.inner.state.Running? ==> s.inner.state.port != 0
    ensures var inner := OutOf(s, e).inner;
            && OwnedBy(inner.state, inner.lastGeneration) && inner.lastGeneration == s.inner.lastGeneration
            && (inner.state.Running? ==> inner.state.port != 0)
            && (Owned(inner.state) ==> Owned(s.inner.state))
  {
    hide NextGen, DrainOps;
  }

  lemma CallOwner(s: Sys, e: Step)
    requires Enabled(s, e) && !IsSection(e) && OwnerOk(s)
    ensures var inner := OutOf(s, e).inner;
            && OwnedBy(inner.state, inner.lastGeneration)
            && (inner.state.Running? ==> inner.state.port != 0)
            && (!StartsAfresh(s, e) && Owned(inner.state) ==> Owned(s.inner.state))
            && (if StartsAfresh(s, e) then
                 s.inner.lastGeneration < inner.lastGeneration < MAX_GENERATION
                 && inner.lastGeneration == e.options.generation
                else inner.lastGeneration == s.inner.lastGeneration)
  {
    hide DrainOps;
  }

  lemma OwnerKept(s: Sys, e: Step)
    requires PlaceInv(s) && Enabled(s, e)
    ensures OwnerOk(Apply(s, e))
    ensures if StartsAfresh(s, e) then s.inner.lastGeneration < Apply(s, e).inner.lastGeneration == e.options.generation
            else Apply(s, e).inner.lastGeneration == s.inner.lastGeneration
  {
    hide OutOf, OwnedBy, NextGen, PlacesOk, PartsOk, CallersOk, StartSection;
    if IsSection(e) { SectionOwner(s, e); } else { CallOwner(s, e); }
    GensGrow(s, e);
    PoisonExcused(s, e);
  }

  lemma GensGrow(s: Sys, e: Step)
    requires Enabled(s, e)
    ensures s.gens.Keys <= NextGens(s, e).Keys
    ensures StartsAfresh(s, e) ==> e.options.generation in NextGens(s, e)
  {
    hide NextGen, OpGen;
  }

  lemma PoisonExcused(s: Sys, e: Step)
    requires OwnerOk(s) && Enabled(s, e)
    ensures Apply(s, e).poisoned ==> Apply(s, e).excused
  {
    hide OutOf;
  }

  // ---------------------------------------------------------------- every generation, every step

  lemma GenStepPlace(s: Sys, e: Step, h: nat)
    requires PlaceInv(s) && IsGenStep(e) && Enabled(s, e) && h in s.gens
    ensures PlaceOk(OutOf(s, e).inner.state, s.inner.lastGeneration, s.excused, CallerAt(s, s.gens[h].starter),
                    if h == e.g then NextGen(s, e) else s.gens[h])
  {
    hide NextGen, DecideOut, EndOut, TransitionOut, GenPartsOk, PlaceOk;
    var pc := CallerAt(s, s.gens[h].starter);
    if !IsSection(e) {
      if h == e.g { UnlockedPlace(s, e, pc); }
    } else if h == e.g {
      if e.Decide? { DecidePlace(s, h, pc); }
      else if e.Transition? { TransitionPlace(s, h, pc); }
      else { EndPlace(s, e, pc); }
    } else {
      SectionOwner(s, e);
      OthersQuiet(s, e.g, h);
      assert !Owns(OutOf(s, e).inner.state, h);
      QuietPlace(s.inner.state, OutOf(s, e).inner.state, s.inner.lastGeneration, s.inner.lastGeneration, s.excused,
          s.excused, pc, pc, s.gens[h]);
    }
  }

  /** While the supervisor of `g` is pending, every other generation is quiet. */
  lemma OthersQuiet(s: Sys, g: nat, h: nat)
    requires PlaceInv(s) && g in s.gens && Pending(s.gens[g].sup) && h in s.gens && h != g
    ensures g == s.inner.lastGeneration
    ensures !Responsible(CallerAt(s, s.gens[h].starter), s.gens[h]) && !Unjoined(s.gens[h])
  {
  }

  lemma CallStartPlace(s: Sys, call: nat, o: Options, h: nat)
    requires PlaceInv(s) && Enabled(s, CallStart(call, o)) && h in s.gens
    ensures var inner := StartOut(s, call, o).inner;
            PlaceOk(inner.state, inner.lastGeneration, s.excused, CallerAt(s, s.gens[h].starter), s.gens[h])
  {
    hide GenPartsOk;
    var pc := CallerAt(s, s.gens[h].starter);
    if s.poisoned {
      RecoveredPlace(s.inner, pc, s.gens[h]);
    } else if !StartsAfresh(s, CallStart(call, o)) {
      GatherPlace(s.inner, o, StartCompletion(call, o), s.excused, pc, s.gens[h]);
    }
  }

  lemma CallStopPlace(s: Sys, call: nat, g: nat, h: nat)
    requires PlaceInv(s) && h in s.gens
    ensures var inner := StopOut(s, call, g).inner;
            PlaceOk(inner.state, inner.lastGeneration, s.excused, CallerAt(s, s.gens[h].starter), s.gens[h])
  {
    hide GenPartsOk;
    var pc := CallerAt(s, s.gens[h].starter);
    if s.poisoned {
      RecoveredPlace(s.inner, pc, s.gens[h]);
    } else {
      StopPlace(s.inner, g, Completion(call, StopCall, g), s.excused, pc, s.gens[h]);
    }
  }

  lemma CancelCurrentPlace(s: Sys, call: nat, h: nat)
    requires PlaceInv(s) && Enabled(s, CancelCurrent(call)) && h in s.gens
    ensures var s' := Apply(s, CancelCurrent(call));
            PlaceOk(s'.inner.state, s.inner.lastGeneration, s.excused, CallerAt(s', s.gens[h].starter), s.gens[h])
  {
    hide GenPartsOk, PlaceOk, DrainOps;
    var pc := CallerAt(s, s.gens[h].starter);
    var moved := if s.gens[h].starter == call then SpawnFail(pc.generation, pc.code) else pc;
    if s.gens[h].starter == call {
      MovedPlace(s.inner.state, s.inner.lastGeneration, s.excused, pc, moved, s.gens[h]);
    }
    if s.poisoned {
      RecoveredPlace(s.inner, moved, s.gens[h]);
    }
  }

  lemma FailSpawnPlaceAt(s: Sys, call: nat, h: nat)
    requires PlaceInv(s) && Enabled(s, FailSpawn(call)) && h in s.gens
    ensures var s' := Apply(s, FailSpawn(call));
            PlaceOk(s'.inner.state, s.inner.lastGeneration, s.excused, CallerAt(s', s.gens[h].starter), s.gens[h])
  {
    hide PartsOk, DrainOps;
    assert GenPartsOk(s.gens[h]) by { assert PartsOk(s); PartsAt(s, h); }
    hide GenPartsOk;
    var pc := CallerAt(s, s.gens[h].starter);
    var g, code := CallerAt(s, call).generation, CallerAt(s, call).code;
    var pc' := if s.gens[h].starter == call then Returning else pc;
    assert CallerOk(s.gens, s.excused, call, s.callers[call]);
    if s.poisoned {
      FailSpawnRecovered(s.inner, g, pc, pc', s.gens[h]);
    } else {
      FailSpawnPlace(s.inner.state, s.inner.lastGeneration, g, code, s.excused, pc, pc', s.gens[h]);
    }
  }

  lemma AppliedGens(s: Sys, e: Step)
    requires Enabled(s, e)
    ensures Apply(s, e).gens == NextGens(s, e)
  {
    hide NextGens, OutOf, Enabled;
  }

  /** What a step makes of the record of an existing generation. */
  lemma GenAt(s: Sys, e: Step, g: nat)
    requires Enabled(s, e) && g in s.gens && !(StartsAfresh(s, e) && e.options.generation == g)
    ensures g in NextGens(s, e)
    ensures IsGenStep(e) ==> NextGens(s, e)[g] == if e.g == g then NextGen(s, e) else s.gens[g]
    ensures e.Perform? ==> NextGens(s, e)[g] == s.gens[g] || NextGens(s, e)[g] == OpGen(s.gens[g], Todo(s, e.thread)[0])
    ensures e.SpawnSupervisor? ==>
              NextGens(s, e)[g] ==
                if CallerAt(s, e.call).generation == g then s.gens[g].(sup := SpawnedSup(e.outcome)) else s.gens[g]
    ensures !IsGenStep(e) && !e.Perform? && !e.SpawnSupervisor? ==> NextGens(s, e)[g] == s.gens[g]
  {
    hide NextGen, OpGen, StartsAfresh, SpawnedSup;
  }

  /** Only a fresh start makes a new record. */
  lemma BornOf(s: Sys, e: Step, g: nat)
    requires Enabled(s, e) && g in NextGens(s, e) && g !in s.gens
    ensures e.CallStart? && NextGens(s, e)[g] == NewGen(e.options, e.call)
  {
    hide OpGen, NextGen, StartsAfresh;
  }

  lemma SpawnsNotRun(s: Sys, e: Step)
    requires PlaceInv(s) && Enabled(s, e) && e.SpawnSupervisor?
    ensures CallerAt(s, e.call).generation in s.gens && s.gens[CallerAt(s, e.call).generation].sup.NotRun?
  {
    assert CallerOk(s.gens, s.excused, e.call, s.callers[e.call]);
    hide PartsOk, PlacesOk;
  }

  lemma FreshIsNew(s: Sys, e: Step)
    requires PlaceInv(s) && Enabled(s, e) && StartsAfresh(s, e)
    ensures e.options.generation !in s.gens
  {
    FreshPlace(s, e, e.options.generation);
    hide PlaceInv, Enabled, StartsAfresh;
  }

  lemma PartsAt(s: Sys, h: nat)
    requires PartsOk(s) && h in s.gens
    ensures GenPartsOk(s.gens[h])
  {
  }

  /** The generation that a fresh start creates, and the earlier ones, which it finds quiet. */
  lemma FreshPlace(s: Sys, e: Step, h: nat)
    requires PlaceInv(s) && Enabled(s, e) && StartsAfresh(s, e) && (h in s.gens || h == e.options.generation)
    ensures e.options.generation !in s.gens
    ensures var s' := Apply(s, e);
            PlaceOk(s'.inner.state, s'.inner.lastGeneration, s.excused,
                    if h == e.options.generation then Spawning(h) else CallerAt(s, s.gens[h].starter),
                    if h == e.options.generation then NewGen(e.options, e.call) else s.gens[h])
  {
    hide GenPartsOk, DrainOps;
  }

  lemma CallPlace(s: Sys, e: Step, h: nat)
    requires PlaceInv(s) && Enabled(s, e) && (e.CallStart? || e.CallStop? || e.Poison?) && !StartsAfresh(s, e)
              && h in s.gens
    ensures var s' := Apply(s, e);
            && s'.gens[h].options == s.gens[h].options && s'.gens[h].starter == s.gens[h].starter
            && PlaceOk(s'.inner.state, s'.inner.lastGeneration, s'.excused, CallerAt(s', s.gens[h].starter), s'.gens[h])
  {
    hide GenPartsOk, PlaceOk, StartOut, StopOut, OpGen, CancelCurrentOut, FailSpawnOut, StartsAfresh, CallerOk, OwnedBy;
    OwnerKept(s, e);
    match e {
      case CallStart(call, o) => CallStartPlace(s, call, o, h);
      case CallStop(call, g) => CallStopPlace(s, call, g, h);
      case Poison => PoisonPlace(s.inner.state, s.inner.lastGeneration, s.excused, CallerAt(s, s.gens[h].starter),
          s.gens[h]);
    }
  }

  lemma PerformPlace(s: Sys, e: Step, h: nat)
    requires PlaceInv(s) && Enabled(s, e) && (e.Perform? || e.CancelCurrent? || e.FailSpawn?) && !StartsAfresh(s, e)
              && h in s.gens
    ensures var s' := Apply(s, e);
            && s'.gens[h].options == s.gens[h].options && s'.gens[h].starter == s.gens[h].starter
            && PlaceOk(s'.inner.state, s'.inner.lastGeneration, s'.excused, CallerAt(s', s.gens[h].starter), s'.gens[h])
  {
    hide GenPartsOk, PlaceOk, StartOut, StopOut, OpGen, CancelCurrentOut, FailSpawnOut, StartsAfresh, CallerOk, OwnedBy;
    OwnerKept(s, e);
    match e {
      case Perform(t) =>
        OpPlace(s.inner.state, s.inner.lastGeneration, s.excused, CallerAt(s, s.gens[h].starter), s.gens[h],
            Todo(s, t)[0]);
      case CancelCurrent(call) => CancelCurrentPlace(s, call, h);
      case FailSpawn(call) => FailSpawnPlaceAt(s, call, h);
    }
  }

  lemma CallerStepPlace(s: Sys, e: Step, h: nat)
    requires PlaceInv(s) && Enabled(s, e) && !IsGenStep(e) && !StartsAfresh(s, e) && h in s.gens
    ensures var s' := Apply(s, e);
            && s'.gens[h].options == s.gens[h].options && s'.gens[h].starter == s.gens[h].starter
            && PlaceOk(s'.inner.state, s'.inner.lastGeneration, s'.excused, CallerAt(s', s.gens[h].starter), s'.gens[h])
  {
    hide GenPartsOk, PlaceOk, StartOut, StopOut, OpGen, CancelCurrentOut, FailSpawnOut, StartsAfresh, CallerOk, OwnedBy;
    if e.CallStart? || e.CallStop? || e.Poison? {
      CallPlace(s, e, h);
    } else if e.SpawnSupervisor? {
      SpawnPlaceAt(s, e.call, e.outcome, h);
    } else {
      PerformPlace(s, e, h);
    }
  }

  lemma SpawnPlaceAt(s: Sys, call: nat, outcome: SpawnOutcome, h: nat)
    requires PlaceInv(s) && Enabled(s, SpawnSupervisor(call, outcome)) && h in s.gens
    ensures var s' := Apply(s, SpawnSupervisor(call, outcome));
            && s'.gens[h].options == s.gens[h].options && s'.gens[h].starter == s.gens[h].starter
            && PlaceOk(s.inner.state, s.inner.lastGeneration, s'.excused, CallerAt(s', s.gens[h].starter), s'.gens[h])
  {
    PartsAt(s, h);
    hide GenPartsOk;
    var g := CallerAt(s, call).generation;
    assert CallerOk(s.gens, s.excused, call, s.callers[call]);
    if h == g {
      var s' := Apply(s, SpawnSupervisor(call, outcome));
      SpawnPlace(s.inner.state, s.inner.lastGeneration, s.excused, s.gens[h], outcome, CallerAt(s', call));
    }
  }

  lemma PoisonPlace(st: State, last: nat, excused: bool, pc: CallerPc, gen: Gen)
    requires PlaceOk(st, last, excused, pc, gen)
    ensures PlaceOk(st, last, true, pc, gen)
  {
  }

  lemma NextGenName(s: Sys, e: Step)
    requires IsGenStep(e) && Enabled(s, e)
    ensures NextGen(s, e).options == s.gens[e.g].options && NextGen(s, e).starter == s.gens[e.g].starter
  {
    hide EndState;
  }

  predicate PlacedAt(s: Sys, h: nat)
    requires h in s.gens
  {
    && s.gens[h].options.generation == h
    && PlaceOk(s.inner.state, s.inner.lastGeneration, s.excused, CallerAt(s, s.gens[h].starter), s.gens[h])
  }

  lemma PlaceByGen(s: Sys, e: Step, h: nat)
    requires PlaceInv(s) && Enabled(s, e) && IsGenStep(e) && h in Apply(s, e).gens
    ensures PlacedAt(Apply(s, e), h)
  {
    hide GenPartsOk, PlaceOk, NextGen, OutOf, CallerOk, OwnerOk;
    OwnerKept(s, e);
    NextGenName(s, e);
    GenStepPlace(s, e, h);
  }

  lemma PlaceByStart(s: Sys, e: Step, h: nat)
    requires PlaceInv(s) && Enabled(s, e) && StartsAfresh(s, e) && h in Apply(s, e).gens
    ensures PlacedAt(Apply(s, e), h)
  {
    assert e.CallStart?;
    hide GenPartsOk, PlaceOk, OutOf, CallerOk, OwnerOk, StartsAfresh;
    FreshPlace(s, e, h);
    FreshStarter(s, e, h);
  }

  lemma PlaceByCall(s: Sys, e: Step, h: nat)
    requires PlaceInv(s) && Enabled(s, e) && !IsGenStep(e) && !StartsAfresh(s, e) && h in Apply(s, e).gens
    ensures PlacedAt(Apply(s, e), h)
  {
    if h !in s.gens { BornFresh(s, e, h); }
    hide PlaceOk, Apply, Enabled;
    CallerStepPlace(s, e, h);
    assert s.gens[h].options.generation == h;
    hide PlaceInv;
  }

  lemma BornFresh(s: Sys, e: Step, h: nat)
    requires Enabled(s, e) && h in NextGens(s, e) && h !in s.gens
    ensures StartsAfresh(s, e) || IsGenStep(e)
  {
    hide OpGen, NextGen, StartsAfresh;
  }

  lemma PlacesKept(s: Sys, e: Step)
    requires PlaceInv(s) && Enabled(s, e)
    ensures PlacesOk(Apply(s, e))
  {
    hide PlaceInv, PlaceOk, Apply, Enabled, StartsAfresh;
    forall h | h in Apply(s, e).gens
      ensures PlacedAt(Apply(s, e), h)
    {
      if IsGenStep(e) { PlaceByGen(s, e, h); }
      else if StartsAfresh(s, e) { PlaceByStart(s, e, h); }
      else { PlaceByCall(s, e, h); }
    }
  }

  lemma FreshStarter(s: Sys, e: Step, h: nat)
    requires PlaceInv(s) && Enabled(s, e) && StartsAfresh(s, e)
    ensures NewGen(e.options, e.call).options == e.options && NewGen(e.options, e.call).starter == e.call
    ensures h in s.gens ==> s.gens[h].starter != e.call
  {
  }

  // ---------------------------------------------------------------- callers

  /** A supervisor that runs is past its spawning, and one that was dropped stays so. */
  lemma NextGenSup(s: Sys, e: Step)
    requires IsGenStep(e) && Enabled(s, e)
    ensures NextGen(s, e).sup.NotRun? == s.gens[e.g].sup.NotRun?
    ensures NextGen(s, e).sup.Dropped? == s.gens[e.g].sup.Dropped?
  {
    hide EndState, WorkerStep, Kept, TrySend;
  }

  lemma NextGenCaller(s: Sys, e: Step, call: nat)
    requires IsGenStep(e) && Enabled(s, e) && call in s.callers && CallerOk(s.gens, s.excused, call, s.callers[call])
    ensures CallerOk(s.gens[e.g := NextGen(s, e)], s.excused, call, s.callers[call])
  {
    NextGenName(s, e);
    NextGenSup(s, e);
    hide NextGen, Enabled;
  }

  lemma OpCaller(gens: map<nat, Gen>, excused: bool, call: nat, pc: CallerPc, g: nat, op: Op)
    requires CallerOk(gens, excused, call, pc) && g in gens
    ensures CallerOk(gens[g := OpGen(gens[g], op)], excused, call, pc)
  {
  }

  lemma SpawnCaller(s: Sys, call: nat, outcome: SpawnOutcome, c: nat)
    requires Enabled(s, SpawnSupervisor(call, outcome)) && c in s.callers
    requires CallerOk(s.gens, s.excused, c, s.callers[c]) && CallerOk(s.gens, s.excused, call, s.callers[call])
    ensures var s' := Apply(s, SpawnSupervisor(call, outcome)); CallerOk(s'.gens, s'.excused, c, s'.callers[c])
  {
  }

  lemma CallersKept(s: Sys, e: Step)
    requires PlaceInv(s) && Enabled(s, e)
    ensures CallersOk(Apply(s, e))
  {
    var s' := Apply(s, e);
    if IsGenStep(e) {
      hide PlacesOk, PartsOk, OwnerOk, NextGen, OutOf, CallerOk;
      forall call | call in s'.callers
        ensures CallerOk(s'.gens, s'.excused, call, s'.callers[call])
      {
        NextGenCaller(s, e, call);
      }
      NextGenName(s, e);
    } else {
      CallerStepCallers(s, e);
    }
  }

  lemma CallerStepCallers(s: Sys, e: Step)
    requires PlaceInv(s) && Enabled(s, e) && !IsGenStep(e)
    ensures CallersOk(Apply(s, e))
  {
    var s' := Apply(s, e);
    StartersKept(s, e);
    if StartsAfresh(s, e) { FreshPlace(s, e, e.options.generation); }
    hide PlacesOk, PartsOk, OwnerOk, OutOf, StartsAfresh;
    forall call | call in s'.callers
      ensures CallerOk(s'.gens, s'.excused, call, s'.callers[call])
    {
      if call in s.callers { assert CallerOk(s.gens, s.excused, call, s.callers[call]); }
      if e.SpawnSupervisor? {
        SpawnCaller(s, e.call, e.outcome, call);
      } else if e.Perform? {
        var op := Todo(s, e.thread)[0];
        if !op.Queue? && op.generation in s.gens {
          hide CallerOk, OpGen;
          OpCaller(s.gens, s.excused, call, s.callers[call], op.generation, op);
        }
      } else if e.CallStart? {
        FreshCaller(s, e, call);
      }
    }
  }

  lemma FreshCaller(s: Sys, e: Step, call: nat)
    requires CallersOk(s) && Enabled(s, e) && e.CallStart? && call in NextCallers(s, e)
    requires StartsAfresh(s, e) ==> e.options.generation !in s.gens
    ensures CallerOk(NextGens(s, e), s.excused, call, NextCallers(s, e)[call])
  {
    if call in s.callers { assert CallerOk(s.gens, s.excused, call, s.callers[call]); }
    hide StartSection;
  }

  lemma StartersKept(s: Sys, e: Step)
    requires CallersOk(s) && Enabled(s, e) && !IsGenStep(e)
    ensures forall call :: call in NextCallers(s, e) ==> call in NextAccepted(s, e)
    ensures forall g :: g in NextGens(s, e) ==> NextGens(s, e)[g].starter in NextCallers(s, e)
  {
    hide CallerOk, StartSection, StopSection;
  }

  /** The place invariant holds along every run. */
  lemma PlaceKept(s: Sys, e: Step)
    requires PlaceInv(s) && Enabled(s, e)
    ensures PlaceInv(Apply(s, e))
  {
    if e.SpawnSupervisor? {
      assert CallerOk(s.gens, s.excused, e.call, s.callers[e.call]);
    }
    hide PartsOk, PlacesOk, CallersOk, OwnerOk, Apply;
    PartsKept(s, e);
    OwnerKept(s, e);
    PlacesKept(s, e);
    CallersKept(s, e);
  }
}
