/** Invariants of the threads of one generation: where the worker's handle is, what the
    reaper and the supervisor know of it, and which signals the worker can still see. */
module ServiceParts {
  import opened Optional
  import opened ServiceCore
  import opened ServiceWorker
  import opened ServiceProtocol

  predicate Unjoined(gen: Gen) {
    gen.handle != NoHandle && gen.handle != Joined
  }

  predicate HasReaper(sup: Sup) {
    match sup
    case AtGate => true
    case AtDecision(_) => true
    case WaitingRunning => true
    case WaitingStopping(recovering) => !recovering
    case WaitingOnly => true
    case AtFinish(_, recovering, _) => !recovering
    case _ => false
  }

  predicate BeforeWorker(sup: Sup) {
    sup.NotRun? || sup.Dropped? || sup.AtFactory? || (sup.AtCreationFailure? && !sup.terminal)
  }

  predicate HandleOk(gen: Gen) {
    && (gen.reaper.NoReaper? ==> gen.handle == NoHandle || gen.handle == InOwner || gen.handle == Lost)
    && (gen.reaper.ReaperSpawned? ==> gen.handle == InOwner)
    && (gen.reaper.Joining? ==> gen.handle == WithReaper)
    && (gen.reaper.Reporting? || gen.reaper.Waking? || gen.reaper.ReaperGone? ==> gen.handle == Joined)
    && (gen.lc.result.Some? ==> gen.handle == Joined)
    && (gen.handle == NoHandle <==> gen.worker.None?)
    && (gen.handle == Joined ==> gen.worker.value.pc.Exited?)
    && (gen.handle == Lost ==> gen.sup.Leaving? || gen.sup.Gone?)
    && (gen.worker.Some? ==> WorkerOk(gen.worker.value))
  }

  predicate SupOk(gen: Gen) {
    && (BeforeWorker(gen.sup) ==> gen.handle == NoHandle && gen.reaper.NoReaper?)
    && (gen.sup.AtReaperSpawn? || (gen.sup.AtCreationFailure? && gen.sup.terminal) ==>
          gen.handle == InOwner && gen.reaper.NoReaper?)
    && (HasReaper(gen.sup) ==> !gen.reaper.NoReaper?)
    && (gen.sup.AtFinish? ==>
          && (gen.sup.exit != Fault(Shutdown) ==> gen.handle == Joined)
          && (gen.sup.keepsOwner ==> gen.sup.recovering && gen.handle != NoHandle)
          && (gen.handle == InOwner && gen.reaper.NoReaper? ==> gen.sup.keepsOwner))
  }

  /** A supervisor holds the gate's receiver until the gate returns or its closure ends. */
  predicate ChannelOk(gen: Gen) {
    gen.ch.receiving ==>
      gen.sup.NotRun? || gen.sup.Dropped? || gen.sup.AtFactory? || gen.sup.AtReaperSpawn? || gen.sup.AtGate?
      || gen.sup.AtCreationFailure? || gen.sup.Leaving?
  }

  predicate GenPartsOk(gen: Gen) {
    HandleOk(gen) && SupOk(gen) && ChannelOk(gen)
  }

  predicate PartsOk(s: Sys) {
    forall g :: g in s.gens ==> GenPartsOk(s.gens[g])
  }

  predicate IsReaperStep(e: Step) {
    e.TakeHandle? || e.JoinWorker? || e.ReportExit? || e.WakeGate? || e.Work?
  }

  lemma ReaperPartsKept(s: Sys, e: Step)
    requires IsReaperStep(e) && Enabled(s, e) && GenPartsOk(s.gens[e.g])
    ensures GenPartsOk(NextGen(s, e))
  {
    if e.Work? {
      WorkerKeepsOk(s.gens[e.g].worker.value, s.gens[e.g].cancelled, s.gens[e.g].ch, e.choice);
    }
  }

  lemma SupervisorPartsKept(s: Sys, e: Step)
    requires IsGenStep(e) && !IsReaperStep(e) && Enabled(s, e) && GenPartsOk(s.gens[e.g])
    ensures GenPartsOk(NextGen(s, e))
  {
    hide EndState;
  }

  lemma NextGenParts(s: Sys, e: Step)
    requires IsGenStep(e) && Enabled(s, e) && GenPartsOk(s.gens[e.g])
    ensures GenPartsOk(NextGen(s, e))
  {
    hide Enabled, GenPartsOk, NextGen;
    if IsReaperStep(e) { ReaperPartsKept(s, e); } else { SupervisorPartsKept(s, e); }
  }

  lemma OpParts(gen: Gen, op: Op)
    requires GenPartsOk(gen)
    ensures GenPartsOk(OpGen(gen, op))
  {
  }

  /** Every thread of every generation keeps its local invariant along every step. */
  lemma PartsKept(s: Sys, e: Step)
    requires PartsOk(s) && Enabled(s, e)
    requires e.SpawnSupervisor? ==> s.gens[CallerAt(s, e.call).generation].sup.NotRun?
    ensures PartsOk(Apply(s, e))
  {
    hide GenPartsOk, NextGen, OpGen, OutOf;
    if IsGenStep(e) {
      NextGenParts(s, e);
    } else if e.Perform? {
      var op := Todo(s, e.thread)[0];
      if !op.Queue? && op.generation in s.gens {
        OpParts(s.gens[op.generation], op);
      }
    } else if e.SpawnSupervisor? {
      SpawnParts(s.gens[CallerAt(s, e.call).generation], e.outcome);
    } else if e.CallStart? {
      NewParts(e.options, e.call);
    }
  }

  lemma SpawnParts(gen: Gen, outcome: SpawnOutcome)
    requires GenPartsOk(gen) && gen.sup.NotRun?
    ensures GenPartsOk(gen.(sup := SpawnedSup(outcome)))
  {
  }

  lemma NewParts(o: Options, call: nat)
    ensures GenPartsOk(NewGen(o, call))
  {
  }
}
