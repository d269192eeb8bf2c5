/** Delivery under every schedule: one number bounds how many steps the threads of a controller
    can take without a new call, and when none of them has anything left to do, every accepted
    completion has been queued. */
module ServiceDelivery {
  import opened Optional
  import opened Sums
  import opened ServiceCore
  import opened ServiceWorker
  import opened ServiceProtocol
  import opened ServiceParts
  import opened ServicePlace
  import opened ServiceCustody
  import opened ServiceProgress

  predicate NewCall(e: Step) {
    e.CallStart? || e.CallStop?
  }

  // ---------------------------------------------------------------- the ranks of a generation's threads

  function ReaperRank(reaper: Reaper): nat {
    match reaper
    case NoReaper => 5
    case ReaperSpawned => 4
    case Joining => 3
    case Reporting(_) => 2
    case Waking(_) => 1
    case ReaperGone => 0
  }

  function WorkRank(worker: Option<Worker>): nat {
    if worker.None? then 9 else WorkerRank(worker.value.pc)
  }

  /** What the starting caller still owes generation `g`. */
  function PcRank(pc: CallerPc, g: nat): nat {
    match pc
    case Returning => 0
    case Spawning(h) => if h == g then 3 else 0
    case SpawnCancel(h, _) => if h == g then 2 else 0
    case SpawnFail(h, _) => if h == g then 1 else 0
  }

  function ThreadRank(gen: Gen): nat {
    SupRank(gen.sup) + ReaperRank(gen.reaper) + WorkRank(gen.worker)
  }

  function GenRank(gen: Gen, pc: CallerPc, g: nat): nat {
    ThreadRank(gen) + PcRank(pc, g)
  }

  function RankAt(s: Sys, g: nat): nat
    requires g in s.gens
  {
    GenRank(s.gens[g], CallerAt(s, s.gens[g].starter), g)
  }

  function GenRanks(s: Sys): map<nat, nat> {
    map g | g in s.gens :: RankAt(s, g)
  }

  /** The generation whose threads take the step. */
  function Acted(s: Sys, e: Step): nat {
    if e.SpawnSupervisor? || e.CancelCurrent? || e.FailSpawn? then
      (if CallerAt(s, e.call).Returning? then 0 else CallerAt(s, e.call).generation)
    else if IsGenStep(e) then e.g
    else 0
  }

  lemma ReaperStepRank(s: Sys, e: Step)
    requires IsReaperStep(e) && Enabled(s, e)
    ensures NextGen(s, e).starter == s.gens[e.g].starter && ThreadRank(NextGen(s, e)) < ThreadRank(s.gens[e.g])
  {
    if e.Work? { WorkerDescends(s.gens[e.g].worker.value, s.gens[e.g].cancelled, s.gens[e.g].ch, e.choice); }
    hide WorkerStep, TrySend, WorkerRank, SupRank;
  }

  lemma SupervisorStepRank(s: Sys, e: Step)
    requires IsGenStep(e) && !IsReaperStep(e) && Enabled(s, e) && GenPartsOk(s.gens[e.g])
    ensures NextGen(s, e).starter == s.gens[e.g].starter && ThreadRank(NextGen(s, e)) < ThreadRank(s.gens[e.g])
  {
    OwnDescent(s, e);
    assert WorkerRank(Spawned.pc) == 8;
    hide EndState, SupRank, WorkerRank, HandleOk, ChannelOk;
    if e.RunFactory? || e.SpawnReaper? { NotYetReaped(s.gens[e.g]); }
  }

  lemma NotYetReaped(gen: Gen)
    requires GenPartsOk(gen)
    ensures gen.sup.AtFactory? ==> gen.worker.None?
    ensures gen.sup.AtReaperSpawn? ==> gen.reaper.NoReaper?
  {
  }

  predicate CallerStep(e: Step) {
    e.SpawnSupervisor? || e.CancelCurrent? || e.FailSpawn?
  }

  /** A caller's step on behalf of the generation it started. */
  lemma CallerStepRank(s: Sys, e: Step)
    requires PlaceInv(s) && Enabled(s, e) && CallerStep(e)
    ensures var g := Acted(s, e);
      && g in s.gens && s.gens[g].starter == e.call
      && e.call in NextCallers(s, e)
      && PcRank(NextCallers(s, e)[e.call], g) < PcRank(CallerAt(s, e.call), g)
      && (forall h :: h != g ==> PcRank(NextCallers(s, e)[e.call], h) == PcRank(CallerAt(s, e.call), h))
  {
    assert CallerOk(s.gens, s.excused, e.call, s.callers[e.call]);
    hide PartsOk, PlacesOk, OwnerOk;
  }

  lemma CallerStepGens(s: Sys, e: Step)
    requires PlaceInv(s) && Enabled(s, e) && CallerStep(e)
    ensures var g := Acted(s, e);
      && g in NextGens(s, e) && g in s.gens && NextGens(s, e) == s.gens[g := NextGens(s, e)[g]]
      && NextGens(s, e)[g].starter == s.gens[g].starter && ThreadRank(NextGens(s, e)[g]) <= ThreadRank(s.gens[g])
  {
    CallerStepRank(s, e);
    if e.SpawnSupervisor? { SpawnGens(s, e); } else { assert NextGens(s, e) == s.gens; }
    hide PlaceInv, NextGens, Enabled, ThreadRank;
  }

  lemma SpawnGens(s: Sys, e: Step)
    requires PlaceInv(s) && Enabled(s, e) && e.SpawnSupervisor?
    ensures var g := CallerAt(s, e.call).generation;
      && g in s.gens && NextGens(s, e) == s.gens[g := s.gens[g].(sup := SpawnedSup(e.outcome))]
      && ThreadRank(s.gens[g].(sup := SpawnedSup(e.outcome))) <= ThreadRank(s.gens[g])
  {
    NotRunYet(s, e.call);
    hide PlaceInv;
  }

  lemma CallersElsewhere(s: Sys, e: Step, call: nat)
    requires Enabled(s, e) && !NewCall(e) && (CallerStep(e) ==> call != e.call)
    ensures CallerAt(Apply(s, e), call) == CallerAt(s, call)
  {
    hide OutOf, NextGens;
  }

  predicate ThreadStep(e: Step) {
    CallerStep(e) || IsGenStep(e)
  }

  /** The threads' part of the rank, and the record of the acting generation. */
  lemma ActedGens(s: Sys, e: Step)
    requires PlaceInv(s) && Enabled(s, e) && ThreadStep(e)
    ensures var g := Acted(s, e);
      && g in s.gens && g in NextGens(s, e) && NextGens(s, e) == s.gens[g := NextGens(s, e)[g]]
      && NextGens(s, e)[g].starter == s.gens[g].starter
      && ThreadRank(NextGens(s, e)[g]) + (if CallerStep(e) then 0 else 1) <= ThreadRank(s.gens[g])
  {
    if CallerStep(e) {
      CallerStepGens(s, e);
    } else {
      PartsAt(s, e.g);
      if IsReaperStep(e) { ReaperStepRank(s, e); } else { SupervisorStepRank(s, e); }
      hide PlaceInv, NextGen, ThreadRank, GenPartsOk;
    }
  }

  lemma OwedElsewhere(s: Sys, e: Step, call: nat, h: nat)
    requires PlaceInv(s) && Enabled(s, e) && ThreadStep(e) && h != Acted(s, e)
    ensures PcRank(CallerAt(Apply(s, e), call), h) == PcRank(CallerAt(s, call), h)
  {
    if CallerStep(e) && call == e.call {
      CallerStepRank(s, e);
    } else {
      CallersElsewhere(s, e, call);
    }
    hide PlaceInv, NextGens, OutOf, PcRank;
  }

  lemma OwedHere(s: Sys, e: Step)
    requires PlaceInv(s) && Enabled(s, e) && ThreadStep(e)
    ensures var g := Acted(s, e);
      g in s.gens
      && PcRank(CallerAt(Apply(s, e), s.gens[g].starter), g) + (if CallerStep(e) then 1 else 0)
           <= PcRank(CallerAt(s, s.gens[g].starter), g)
  {
    if CallerStep(e) {
      CallerStepRank(s, e);
    } else {
      CallersElsewhere(s, e, s.gens[Acted(s, e)].starter);
    }
    hide PlaceInv, NextGens, OutOf, PcRank;
  }

  /** Every step but performing, poisoning and a new call lowers the rank of one generation and
      leaves the others alone. */
  lemma RankDrops(s: Sys, e: Step)
    requires PlaceInv(s) && Enabled(s, e) && ThreadStep(e)
    ensures var g := Acted(s, e);
      && g in s.gens && g in Apply(s, e).gens && RankAt(Apply(s, e), g) < RankAt(s, g)
      && GenRanks(Apply(s, e)) == GenRanks(s)[g := RankAt(Apply(s, e), g)]
  {
    var g, t := Acted(s, e), Apply(s, e);
    hide Apply, Enabled, PlaceInv, NextGens, PcRank, ThreadRank, CallerStep, Acted, CallerAt;
    ActedGens(s, e);
    OwedHere(s, e);
    AppliedGens(s, e);
    assert t.gens.Keys == s.gens.Keys;
    forall h | h in s.gens && h != g
      ensures h in t.gens && RankAt(t, h) == RankAt(s, h)
    {
      RankElsewhere(s, e, h);
    }
    assert RankAt(t, g) < RankAt(s, g);
    hide RankAt, GenRanks;
    OneRank(s, t, g);
  }

  lemma RankElsewhere(s: Sys, e: Step, h: nat)
    requires PlaceInv(s) && Enabled(s, e) && ThreadStep(e) && h in s.gens && h != Acted(s, e)
    ensures h in Apply(s, e).gens && RankAt(Apply(s, e), h) == RankAt(s, h)
  {
    hide Apply, Enabled, PlaceInv, NextGens, PcRank, ThreadRank, CallerStep, Acted, CallerAt;
    ActedGens(s, e);
    AppliedGens(s, e);
    OwedElsewhere(s, e, s.gens[h].starter, h);
  }

  lemma OneRank(s: Sys, t: Sys, g: nat)
    requires g in s.gens && t.gens.Keys == s.gens.Keys
    requires forall h :: h in s.gens && h != g ==> RankAt(t, h) == RankAt(s, h)
    ensures GenRanks(t) == GenRanks(s)[g := RankAt(t, g)]
  {
    hide RankAt;
  }

  lemma RanksStay(s: Sys, e: Step)
    requires Enabled(s, e) && (e.Perform? || e.Poison?)
    ensures GenRanks(Apply(s, e)) == GenRanks(s)
  {
    var t := Apply(s, e);
    forall h | h in s.gens
      ensures h in t.gens && RankAt(t, h) == RankAt(s, h)
    {
    }
    assert t.gens.Keys == s.gens.Keys;
    hide Apply, Enabled, SupRank, ReaperRank, WorkRank, PcRank;
  }

  // ---------------------------------------------------------------- lists of operations

  function ListLengths(todo: map<Thread, seq<Op>>): map<Thread, nat> {
    map t | t in todo :: |todo[t]|
  }

  /** How many operations all threads together have yet to perform. */
  ghost function Waiting(todo: map<Thread, seq<Op>>): nat {
    Sum(ListLengths(todo))
  }

  function Length(ops: Option<seq<Op>>): nat {
    if ops.Some? then |ops.value| else 0
  }

  lemma WaitingAfter(todo: map<Thread, seq<Op>>, t: Thread, ops: Option<seq<Op>>)
    ensures Waiting(PutOps(todo, t, ops)) <= Waiting(todo) + Length(ops)
    ensures ops.Some? && t in todo ==> Waiting(PutOps(todo, t, ops)) + |todo[t]| == Waiting(todo) + |ops.value|
  {
    if ops.Some? {
      SumUpdate(ListLengths(todo), t, |ops.value|);
      assert ListLengths(PutOps(todo, t, ops)) == ListLengths(todo)[t := |ops.value|];
    }
  }

  /** A step hands out at most what it takes from the state and six operations more. */
  lemma OutBounds(s: Sys, e: Step)
    requires Enabled(s, e) && ThreadStep(e)
    ensures var out := OutOf(s, e);
      Length(out.own) + Length(out.recovery) + |Held(out.inner.state)| <= 6 + |Held(s.inner.state)|
  {
  }

  // ---------------------------------------------------------------- the bound

  /** Bounds the steps that can happen without a new call. */
  ghost function Measure(s: Sys): nat {
    10 * Sum(GenRanks(s)) + |Held(s.inner.state)| + Waiting(s.todo) + (if s.poisoned then 0 else 1)
  }

  lemma WaitingStep(s: Sys, e: Step)
    requires Enabled(s, e)
    ensures Waiting(NextTodo(s, e)) <= Waiting(s.todo) + Length(OutOf(s, e).own) + Length(OutOf(s, e).recovery)
  {
    var todo := PutOps(s.todo, Actor(e), OutOf(s, e).own);
    WaitingAfter(s.todo, Actor(e), OutOf(s, e).own);
    WaitingAfter(todo, Recoverer(s.recoveries), OutOf(s, e).recovery);
    hide OutOf, PutOps, Waiting, Enabled, Actor;
  }

  lemma RankSum(s: Sys, e: Step)
    requires PlaceInv(s) && Enabled(s, e) && ThreadStep(e)
    ensures Sum(GenRanks(Apply(s, e))) < Sum(GenRanks(s))
  {
    RankDrops(s, e);
    var g := Acted(s, e);
    hide Enabled, PlaceInv, Apply, Acted, RankAt;
    SumUpdate(GenRanks(s), g, RankAt(Apply(s, e), g));
  }

  lemma ThreadStepDescends(s: Sys, e: Step)
    requires PlaceInv(s) && Enabled(s, e) && ThreadStep(e)
    ensures Measure(Apply(s, e)) < Measure(s)
  {
    RankSum(s, e);
    WaitingStep(s, e);
    OutBounds(s, e);
    assert Apply(s, e).inner == OutOf(s, e).inner && Apply(s, e).todo == NextTodo(s, e);
    hide Apply, OutOf, NextTodo, Enabled, PlaceInv, Waiting, GenRanks, Length, Held;
  }

  lemma PerformDescends(s: Sys, t: Thread)
    requires Enabled(s, Perform(t))
    ensures Measure(Apply(s, Perform(t))) < Measure(s)
  {
    var e := Perform(t);
    RanksStay(s, e);
    WaitingAfter(s.todo, t, Some(Todo(s, t)[1..]));
    assert NextTodo(s, e) == PutOps(s.todo, t, Some(Todo(s, t)[1..]));
    assert Apply(s, e).inner == s.inner && Apply(s, e).todo == NextTodo(s, e) && Apply(s, e).poisoned == s.poisoned;
    hide Apply, NextTodo, PutOps, Waiting, GenRanks, Held;
  }

  lemma PoisonDescends(s: Sys)
    requires Enabled(s, Poison)
    ensures Measure(Apply(s, Poison)) < Measure(s)
  {
    RanksStay(s, Poison);
    assert Apply(s, Poison).inner == s.inner && Apply(s, Poison).todo == s.todo && Apply(s, Poison).poisoned;
    hide Apply, Waiting, GenRanks, Held;
  }

  /** Whatever thread moves, panics and poisoning included, the measure goes down. */
  lemma MeasureDescends(s: Sys, e: Step)
    requires PlaceInv(s) && Enabled(s, e) && !NewCall(e)
    ensures Measure(Apply(s, e)) < Measure(s)
  {
    hide Apply, Enabled, PlaceInv, Measure;
    if e.Perform? { PerformDescends(s, e.thread); }
    else if e.Poison? { PoisonDescends(s); }
    else { ThreadStepDescends(s, e); }
  }

  predicate NoNewCalls(run: seq<Step>) {
    forall i :: 0 <= i < |run| ==> !NewCall(run[i])
  }

  /** Every run without a new call is at most as long as the measure. */
  lemma {:induction false} RunsEnd(s: Sys, run: seq<Step>)
    requires ProgressInv(s) && Feasible(s, run) && NoNewCalls(run)
    ensures |run| + Measure(Exec(s, run)) <= Measure(s) && ProgressInv(Exec(s, run))
    decreases |run|
  {
    if run != [] {
      ProgressKept(s, run[0]);
      MeasureDescends(s, run[0]);
      hide Apply, Enabled, ProgressInv, Measure;
      RunsEnd(Apply(s, run[0]), run[1..]);
    }
  }

  // ---------------------------------------------------------------- quiescence

  /** What a thread of the controller does on its own: it performs its operations, a caller
      spawns or fails its supervisor, and a supervisor goes on. The gate, the factory and the
      deadlines answer; nothing is asked of the worker or the reaper. */
  predicate Lively(e: Step) {
    e.Perform? || CallerStep(e) || (IsGenStep(e) && !IsReaperStep(e) && !e.SupervisorPanics?)
  }

  ghost predicate Quiet(s: Sys) {
    forall e: Step :: Lively(e) ==> !Enabled(s, e)
  }

  lemma QuietLists(s: Sys)
    requires Quiet(s)
    ensures Busy(s) == {}
  {
    forall t | t in s.todo && s.todo[t] != [] ensures false {
      assert Lively(Perform(t)) && Enabled(s, Perform(t));
    }
  }

  /** A supervisor that has yet to retire the generation is not held up by anybody. */
  lemma DutyCalls(s: Sys, g: nat)
    requires ProgressInv(s) && Busy(s) == {} && Unretired(s.inner.state) && g == s.inner.lastGeneration && g in s.gens
    requires !s.gens[g].sup.NotRun? && !s.gens[g].sup.Dropped?
    ensures Enabled(s, NextDuty(s.gens[g], g))
  {
    NothingInHand(s);
    assert !StopComing(s, g);
    if !Enabled(s, NextDuty(s.gens[g], g)) { HeldUp(s, g); }
  }

  /** The step that brings the retirement closer. */
  function Retiring(s: Sys, g: nat): Step
    requires g in s.gens
  {
    var call := s.gens[g].starter;
    if s.gens[g].sup.NotRun? then SpawnSupervisor(call, SpawnOk)
    else if !s.gens[g].sup.Dropped? then NextDuty(s.gens[g], g)
    else if CallerAt(s, call).SpawnCancel? then CancelCurrent(call)
    else FailSpawn(call)
  }

  /** A state that still holds completions has a thread that goes on. */
  lemma HeldMoves(s: Sys)
    requires ProgressInv(s) && Busy(s) == {} && Unretired(s.inner.state)
    ensures !Quiet(s)
  {
    var g := s.inner.lastGeneration;
    NothingInHand(s);
    OwedCaller(s, g);
    hide ProgressInv, Enabled;
    if !s.gens[g].sup.NotRun? && !s.gens[g].sup.Dropped? { DutyCalls(s, g); } else { SpawnerMoves(s, g); }
    LivelyRetiring(s, g);
    assert Lively(Retiring(s, g)) && Enabled(s, Retiring(s, g));
  }

  lemma SpawnerMoves(s: Sys, g: nat)
    requires g in s.gens && Owed(CallerAt(s, s.gens[g].starter), g) && (forall t: Thread :: Todo(s, t) == [])
    requires s.gens[g].sup.NotRun? ==> CallerAt(s, s.gens[g].starter).Spawning?
    requires s.gens[g].sup.Dropped? ==> !CallerAt(s, s.gens[g].starter).Spawning?
    requires s.gens[g].sup.NotRun? || s.gens[g].sup.Dropped?
    ensures Enabled(s, Retiring(s, g))
  {
  }

  lemma LivelyRetiring(s: Sys, g: nat)
    requires g in s.gens
    ensures Lively(Retiring(s, g))
  {
  }

  /** When no thread has anything left to do, everything ever accepted has been queued. */
  lemma QuietDelivers(s: Sys)
    requires ProgressInv(s) && Quiet(s)
    ensures !Unretired(s.inner.state)
    ensures forall call :: call in s.accepted ==> exists j :: 0 <= j < |s.queue| && s.queue[j].completion.call == call
  {
    hide ProgressInv, Quiet;
    QuietLists(s);
    if Unretired(s.inner.state) { HeldMoves(s); }
    assert CustodyInv(s) by { Custody(s); }
    AllQueued(s);
  }

  lemma Custody(s: Sys)
    requires ProgressInv(s)
    ensures CustodyInv(s)
  {
  }

  lemma Place(s: Sys)
    requires ProgressInv(s)
    ensures PlaceInv(s)
  {
  }

  lemma LivelyStep(s: Sys, e: Step)
    requires ProgressInv(s) && Enabled(s, e) && Lively(e)
    ensures ProgressInv(Apply(s, e)) && Measure(Apply(s, e)) < Measure(s)
  {
    hide Apply, Enabled, ProgressInv, Measure;
    ProgressKept(s, e);
    Place(s);
    MeasureDescends(s, e);
  }

  lemma SomeLively(s: Sys) returns (e: Step)
    requires !Quiet(s)
    ensures Lively(e) && Enabled(s, e)
  {
    e :| Lively(e) && Enabled(s, e);
  }

  /** Letting any thread go on as long as one can reaches such a state. */
  lemma {:induction false} Settle(s: Sys) returns (run: seq<Step>)
    requires ProgressInv(s)
    ensures Feasible(s, run) && Quiet(Exec(s, run)) && ProgressInv(Exec(s, run))
    ensures forall i :: 0 <= i < |run| ==> Lively(run[i])
    decreases Measure(s)
  {
    if Quiet(s) {
      run := [];
    } else {
      hide Apply, Enabled, ProgressInv, Measure, Lively, Quiet, Feasible, Exec;
      var e := SomeLively(s);
      LivelyStep(s, e);
      var rest := Settle(Apply(s, e));
      Unroll(s, e, rest);
      run := [e] + rest;
    }
  }
}
