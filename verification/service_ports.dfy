/** Which port a start is told: with the production gate, the port that its generation's worker bound. */
module ServicePorts {
  import opened Optional
  import opened ServiceCore
  import opened ServiceWorker
  import opened ServiceProtocol
  import opened ServiceParts
  import opened ServicePlace
  import opened ServiceCustody
  import opened ServiceOutcome
  import opened ServiceSignals
  import opened ServiceOrder
  import opened ServiceProgress
  import opened ServiceTheorems

  // ---------------------------------------------------------------- the production gate

  /** The production gate reports a port only if it is in the ready channel. */
  predicate Honest(s: Sys, e: Step) {
    e.PassGate? && e.report.Ready? ==> e.g in s.gens && s.gens[e.g].ch.buffer == Some(ReadyPort(e.report.port))
  }

  predicate HonestRun(s: Sys, run: seq<Step>)
    requires Feasible(s, run)
    decreases |run|
  {
    run == [] || (Honest(s, run[0]) && HonestRun(Apply(s, run[0]), run[1..]))
  }

  /** A state of some controller after some run with the production gate. */
  ghost predicate Produced(s: Sys) {
    exists dispatching: bool, run: seq<Step> ::
        Feasible(Initial(dispatching), run) && HonestRun(Initial(dispatching), run)
            && s == Exec(Initial(dispatching), run)
  }

  lemma NothingProducedYet()
    ensures Produced(Initial(true))
  {
    assert Feasible(Initial(true), []) && Exec(Initial(true), []) == Initial(true);
  }

  lemma ProducedReachable(s: Sys)
    requires Produced(s)
    ensures Reachable(s)
  {
  }

  lemma {:induction false} HonestAppend(s: Sys, run: seq<Step>, e: Step)
    requires Feasible(s, run) && HonestRun(s, run) && Enabled(Exec(s, run), e) && Honest(Exec(s, run), e)
    ensures Feasible(s, run + [e]) && HonestRun(s, run + [e]) && Exec(s, run + [e]) == Apply(Exec(s, run), e)
    decreases |run|
  {
    hide Enabled, Apply, Honest;
    if run == [] {
      assert run + [e] == [e];
    } else {
      assert (run + [e])[1..] == run[1..] + [e];
      HonestAppend(Apply(s, run[0]), run[1..], e);
    }
  }

  lemma ProducedStep(s: Sys, e: Step)
    requires Produced(s) && Enabled(s, e) && Honest(s, e)
    ensures Produced(Apply(s, e))
  {
    var dispatching: bool, run: seq<Step> :| Feasible(Initial(dispatching), run)
        && HonestRun(Initial(dispatching), run) && s == Exec(Initial(dispatching), run);
    hide Enabled, Apply, Initial;
    HonestAppend(Initial(dispatching), run, e);
  }

  lemma {:induction false} ProducedRun(s: Sys, run: seq<Step>)
    requires Produced(s) && Feasible(s, run) && forall k :: 0 <= k < |run| ==> run[k].Perform?
    ensures Produced(Exec(s, run))
    decreases |run|
  {
    if run != [] {
      hide Enabled, Apply, Produced;
      ProducedStep(s, run[0]);
      ProducedRun(Apply(s, run[0]), run[1..]);
    }
  }

  // ---------------------------------------------------------------- the port that was bound

  /** The worker of `gen` has bound its service once, to port `p`. */
  predicate BoundTo(gen: Gen, p: Port) {
    gen.worker.Some? && gen.worker.value.bound == 1 && gen.worker.value.port == p && p != 0
  }

  /** What the channel and the gate's report say of the port is true. */
  predicate PortOk(gen: Gen) {
    && (gen.ch.buffer.Some? && gen.ch.buffer.value.ReadyPort? ==> BoundTo(gen, gen.ch.buffer.value.port))
    && (gen.sup.AtDecision? && gen.sup.outcome.Ready? ==> BoundTo(gen, gen.sup.outcome.port))
  }

  predicate PortInv(s: Sys) {
    && (forall g :: g in s.gens ==> PortOk(s.gens[g]))
    && (forall g :: g in s.decided && s.decided[g].RunningEvent? ==>
         g in s.gens && BoundTo(s.gens[g], s.decided[g].port))
  }

  lemma WorkKeepsPort(gen: Gen, choice: Choice)
    requires GenPartsOk(gen) && PortOk(gen) && gen.worker.Some?
    requires CanStep(gen.worker.value, gen.cancelled, gen.ch, choice)
    ensures var (w, ch) := WorkerStep(gen.worker.value, gen.cancelled, gen.ch, choice);
            && PortOk(gen.(worker := Some(w), ch := ch))
            && forall p: Port :: BoundTo(gen, p) ==> BoundTo(gen.(worker := Some(w), ch := ch), p)
  {
  }

  lemma NextGenPort(s: Sys, e: Step)
    requires IsGenStep(e) && Enabled(s, e) && GenPartsOk(s.gens[e.g]) && PortOk(s.gens[e.g]) && Honest(s, e)
    ensures PortOk(NextGen(s, e))
    ensures forall p: Port :: BoundTo(s.gens[e.g], p) ==> BoundTo(NextGen(s, e), p)
  {
    if e.Work? { WorkKeepsPort(s.gens[e.g], e.choice); }
    hide EndState, WorkerStep, CanStep, DecidedSup;
  }

  lemma OpKeepsPort(gen: Gen, op: Op)
    requires PortOk(gen)
    ensures PortOk(OpGen(gen, op)) && forall p: Port :: BoundTo(gen, p) ==> BoundTo(OpGen(gen, op), p)
  {
  }

  /** What a step does to the record of one generation. */
  lemma GenPort(s: Sys, e: Step, g: nat)
    requires PlaceInv(s) && PortInv(s) && Enabled(s, e) && Honest(s, e) && g in s.gens
    ensures g in NextGens(s, e) && PortOk(NextGens(s, e)[g])
    ensures forall p: Port :: BoundTo(s.gens[g], p) ==> BoundTo(NextGens(s, e)[g], p)
  {
    hide PlacesOk, CallersOk, OwnerOk, NextGen, NextGens, OpGen, StartsAfresh, GenPartsOk, Honest;
    if StartsAfresh(s, e) { FreshIsNew(s, e); }
    GenAt(s, e, g);
    if IsGenStep(e) { NextGenPort(s, e); }
    if e.Perform? { OpKeepsPort(s.gens[g], Todo(s, e.thread)[0]); }
    if e.SpawnSupervisor? { SpawnPort(s.gens[g], e.outcome); }
  }

  lemma SpawnPort(gen: Gen, outcome: SpawnOutcome)
    requires PortOk(gen)
    ensures PortOk(gen.(sup := SpawnedSup(outcome)))
    ensures forall p: Port :: BoundTo(gen, p) ==> BoundTo(gen.(sup := SpawnedSup(outcome)), p)
  {
  }

  lemma BornPort(s: Sys, e: Step, g: nat)
    requires Enabled(s, e) && g !in s.gens && g in NextGens(s, e)
    ensures PortOk(NextGens(s, e)[g])
  {
    hide NextGen;
  }

  /** Only mark_running draws a Running event, with the port that the gate reported. */
  lemma RunningDrawn(s: Sys, e: Step)
    requires PlaceInv(s) && Enabled(s, e) && OutOf(s, e).drain.starts != []
              && OutOf(s, e).drain.startEvent.RunningEvent?
    ensures e.Decide? && s.gens[e.g].sup.outcome.Ready?
    ensures OutOf(s, e).drain.startEvent == RunningEvent(e.g, s.gens[e.g].sup.outcome.port)
  {
    OnlyDecide(s, e);
    assert s.gens[e.g].options.generation == e.g;
    hide PlaceInv;
  }

  lemma OnlyDecide(s: Sys, e: Step)
    requires Enabled(s, e) && OutOf(s, e).drain.starts != [] && OutOf(s, e).drain.startEvent.RunningEvent?
    ensures e.Decide? && !s.poisoned
  {
    hide DrainOps;
  }

  lemma AtDecide(s: Sys, e: Step)
    requires Enabled(s, e) && e.Decide?
    ensures e.g in s.gens && s.gens[e.g].sup.AtDecision?
  {
  }

  lemma DecidedPort(s: Sys, e: Step, g: nat)
    requires PlaceInv(s) && PortInv(s) && Enabled(s, e) && Honest(s, e)
    requires g in NextDecided(s, e) && NextDecided(s, e)[g].RunningEvent?
    ensures g in NextGens(s, e) && BoundTo(NextGens(s, e)[g], NextDecided(s, e)[g].port)
  {
    hide PlaceInv, OutOf, NextGens, Enabled, Honest, BoundTo;
    if OutOf(s, e).drain.starts != [] && g == OutOf(s, e).drain.startEvent.generation {
      RunningDrawn(s, e);
      assert s.gens[g].sup.AtDecision? by { AtDecide(s, e); }
    }
    GenPort(s, e, g);
  }

  lemma PortKept(s: Sys, e: Step)
    requires PlaceInv(s) && PortInv(s) && Enabled(s, e) && Honest(s, e)
    ensures PortInv(Apply(s, e))
  {
    var s' := Apply(s, e);
    assert s'.gens == NextGens(s, e) && s'.decided == NextDecided(s, e);
    hide PlaceInv, NextGens, Enabled, Honest, PortOk, BoundTo, NextDecided, Apply;
    forall g | g in s'.gens
      ensures PortOk(s'.gens[g])
    {
      if g in s.gens { GenPort(s, e, g); } else { BornPort(s, e, g); }
    }
    forall g | g in s'.decided && s'.decided[g].RunningEvent?
      ensures g in s'.gens && BoundTo(s'.gens[g], s'.decided[g].port)
    {
      DecidedPort(s, e, g);
    }
  }

  lemma {:induction false} PortRun(s: Sys, run: seq<Step>)
    requires Inv(s) && PortInv(s) && Feasible(s, run) && HonestRun(s, run)
    ensures PortInv(Exec(s, run))
    decreases |run|
  {
    if run != [] {
      hide PlaceInv, PortInv, Enabled, Apply, Honest;
      InvKept(s, run[0]);
      PortKept(s, run[0]);
      PortRun(Apply(s, run[0]), run[1..]);
    }
  }

  lemma ProducedPort(s: Sys)
    requires Produced(s)
    ensures Inv(s) && PortInv(s)
  {
    var dispatching: bool, run: seq<Step> :| Feasible(Initial(dispatching), run)
        && HonestRun(Initial(dispatching), run) && s == Exec(Initial(dispatching), run);
    assert PortInv(Initial(dispatching));
    hide Inv, PortInv, Enabled, Apply, Initial;
    InitialInv(dispatching);
    RunInv(Initial(dispatching), run);
    PortRun(Initial(dispatching), run);
  }

  /** With the production gate a Running controller names the port that the worker of its generation
      bound, and so does every completion ever told Running. */
  lemma RunningPortIsBound(s: Sys, j: nat)
    requires Produced(s)
    ensures s.inner.state.Running? ==>
              var g := s.inner.state.options.generation;
              g in s.gens && BoundTo(s.gens[g], s.inner.state.port)
    ensures j < |s.queue| && s.queue[j].event.RunningEvent? ==>
              var g := s.queue[j].completion.generation;
              g in s.gens && BoundTo(s.gens[g], s.queue[j].event.port)
  {
    ProducedPort(s);
    if j < |s.queue| { assert ItemOk(s.decided, s.queue[j]); }
    hide PlaceInv, CustodyInv, WaitInv, SignalInv, OrderInv, Produced, BoundTo;
  }
}
