/** The request record behind the C ABI (addon/src/lib.rs): which start and stop callbacks are
    owed while calls come from one thread and completions from another.

    What the service controller does appears as `failed`, from when on it refuses every call. An
    accepted call completes once, at any time, before or after any other: a stop may complete
    before the start of its generation. */
module AbiRequests {
  import opened Optional

  /** The ABI call that is executing; a refused one has yet to take its reservation back. */
  datatype Call =
    | NoCall
    | Starting(generation: nat)
    | StartRefused(generation: nat)
    | Stopping(generation: nat)
    | StopRefused(generation: nat)

  datatype State = State(
    active: Option<nat>,
    startPending: bool,
    stopPending: bool,
    call: Call,
    owedStarts: multiset<nat>, // the generations of accepted starts that have not completed
    owedStop: Option<nat>,     // the accepted stop that has not completed
    up: set<nat>,              // generations whose start has succeeded and whose stop has not completed
    over: set<nat>,            // generations whose stop has completed
    robbed: set<nat>,          // generations whose record the start of another one has released
    failed: bool)              // the controller has failed

  datatype Step =
    | EnterStart(generation: nat)
    | StartAnswered(accepted: bool)
    | EnterStop(generation: nat)
    | StopAnswered(accepted: bool)
    | RollBack
    | StartCompleted(generation: nat, failed: bool)
    | StopCompleted
    | ControllerFails

  const Initial := State(None, false, false, NoCall, multiset{}, None, {}, {}, {}, false)

  /** A failed controller accepts nothing, a stopped generation is never started again, and only a
      failed controller refuses the stop of a generation that it has started. */
  predicate Enabled(s: State, e: Step) {
    match e
    case EnterStart(g) => s.call.NoCall? && g > 0
    case EnterStop(g) => s.call.NoCall? && g > 0
    case StartAnswered(accepted) => s.call.Starting? && (accepted ==> !s.failed && s.call.generation !in s.over)
    case StopAnswered(accepted) => s.call.Stopping? && (accepted <==> !s.failed)
    case RollBack => s.call.StartRefused? || s.call.StopRefused?
    case StartCompleted(g, _) => g in s.owedStarts
    case StopCompleted => s.owedStop.Some?
    case ControllerFails => true
  }

  // ---------------------------------------------------------------- the critical sections

  predicate AdmitsStart(s: State) {
    s.active.None?
  }

  predicate AdmitsStop(s: State, g: nat) {
    s.active == Some(g) && !s.stopPending
  }

  /** start_impl after the controller refused. */
  function UndoStart(s: State, g: nat): State {
    if s.active == Some(g) then s.(active := None, startPending := false) else s
  }

  /** The start completion, before it calls back: it does not ask whose record it clears. */
  function CompleteStart(s: State, failed: bool): State {
    var t := s.(startPending := false);
    if failed && !t.stopPending then t.(active := None) else t
  }

  /** The stop completion, before it calls back. */
  function CompleteStop(s: State, g: nat): State {
    if s.active == Some(g) then s.(active := None, startPending := false, stopPending := false) else s
  }

  /** From `s` to `t` the record was taken from a generation other than `g`. */
  predicate Robs(s: State, t: State, g: nat) {
    s.active.Some? && s.active.value != g && t.active != s.active
  }

  function AfterStart(s: State, g: nat, failed: bool): State {
    var t := CompleteStart(s, failed);
    t.(owedStarts := s.owedStarts - multiset{g},
       up := if failed then s.up - {g} else if g in s.over then s.up else s.up + {g},
       robbed := if Robs(s, t, g) then s.robbed + {s.active.value} else s.robbed)
  }

  function AfterStop(s: State, g: nat): State {
    CompleteStop(s, g).(owedStop := None, up := s.up - {g}, over := s.over + {g})
  }

  function Apply(s: State, e: Step): State
    requires Enabled(s, e)
  {
    match e
    case EnterStart(g) => if AdmitsStart(s) then s.(active := Some(g), startPending := true, call := Starting(g)) else s
    case EnterStop(g) => if AdmitsStop(s, g) then s.(stopPending := true, call := Stopping(g)) else s
    case StartAnswered(accepted) =>
      if accepted then s.(call := NoCall, owedStarts := s.owedStarts + multiset{s.call.generation})
      else s.(call := StartRefused(s.call.generation))
    case StopAnswered(accepted) =>
      if accepted then s.(call := NoCall, owedStop := Some(s.call.generation))
      else s.(call := StopRefused(s.call.generation))
    case RollBack =>
      if s.call.StartRefused? then UndoStart(s, s.call.generation).(call := NoCall)
      else s.(stopPending := false, call := NoCall)
    case StartCompleted(g, failed) => AfterStart(s, g, failed)
    case StopCompleted => AfterStop(s, s.owedStop.value)
    case ControllerFails => s.(failed := true)
  }

  predicate Feasible(s: State, run: seq<Step>)
    decreases |run|
  {
    run == [] || (Enabled(s, run[0]) && Feasible(Apply(s, run[0]), run[1..]))
  }

  function Exec(s: State, run: seq<Step>): State
    requires Feasible(s, run)
    decreases |run|
  {
    if run == [] then s else Exec(Apply(s, run[0]), run[1..])
  }

  // ---------------------------------------------------------------- invariant

  /** Nothing executes and nothing is owed. */
  predicate Quiet(s: State) {
    s.call.NoCall? && s.owedStarts == multiset{} && s.owedStop.None?
  }

  /** The record names a generation that neither runs nor is owed a callback. */
  predicate Stranded(s: State) {
    s.call.NoCall? && s.active.Some? && s.owedStop.None? && s.active.value !in s.owedStarts && s.active.value !in s.up
  }

  predicate StartCalling(s: State) {
    s.call.Starting? || s.call.StartRefused?
  }

  predicate StopCalling(s: State) {
    s.call.Stopping? || s.call.StopRefused?
  }

  /** The generation of an accepted start still has the record, or has lost it to its own stop or
      to a start of another generation. */
  predicate Placed(s: State, g: nat) {
    (s.active == Some(g) && !StartCalling(s)) || g in s.over || g in s.robbed
  }

  /** Every owed start is placed; a generation with two of them was started again after a robbery. */
  predicate StartsOk(s: State) {
    forall g :: g in s.owedStarts ==> Placed(s, g) && (s.owedStarts[g] == 1 || g in s.over || g in s.robbed)
  }

  /** A generation that runs has the record, or has been robbed of it. */
  predicate UpOk(s: State) {
    forall g :: g in s.up ==> (s.active == Some(g) && !StartCalling(s)) || g in s.robbed
  }

  predicate Inv(s: State) {
    && StartsOk(s) && UpOk(s)
    && (s.owedStop.Some? ==> s.active == s.owedStop)
    && (s.stopPending <==> s.owedStop.Some? || StopCalling(s))
    && (StopCalling(s) ==>
         s.active == Some(s.call.generation) && s.owedStop.None? && (s.call.StopRefused? ==> s.failed))
    && (StartCalling(s) ==> s.owedStop.None? && (s.active == Some(s.call.generation) || s.active.None?))
    && (s.call.Starting? && s.active.None? ==> s.call.generation in s.robbed || s.call.generation in s.over)
    && (s.active.Some? && !StartCalling(s) ==> s.active.value !in s.over)
    && (Stranded(s) ==> s.failed)
  }

  lemma CallKept(s: State, e: Step)
    requires Inv(s) && Enabled(s, e) && (e.EnterStart? || e.EnterStop? || e.StartAnswered? || e.StopAnswered?)
    ensures Inv(Apply(s, e))
  {
  }

  lemma RollBackKept(s: State)
    requires Inv(s) && Enabled(s, RollBack)
    ensures Inv(Apply(s, RollBack))
  {
  }

  lemma OwedAfterStart(s: State, g: nat, failed: bool)
    requires StartsOk(s) && g in s.owedStarts
    ensures StartsOk(AfterStart(s, g, failed))
  {
    var t := AfterStart(s, g, failed);
    forall h | h in t.owedStarts
      ensures Placed(t, h) && (t.owedStarts[h] == 1 || h in t.over || h in t.robbed)
    {
      assert t.owedStarts[h] == s.owedStarts[h] - (if h == g then 1 else 0);
      assert h in s.owedStarts && Placed(s, h);
    }
  }

  lemma StartCompletedKept(s: State, g: nat, failed: bool)
    requires Inv(s) && g in s.owedStarts
    ensures Inv(AfterStart(s, g, failed))
  {
    OwedAfterStart(s, g, failed);
    UpAfterStart(s, g, failed);
    var t := AfterStart(s, g, failed);
    assert t.active == s.active || (failed && !s.stopPending && t.active.None?);
    assert t.active.Some? && t.active.value !in t.owedStarts && t.active.value in s.owedStarts ==> t.active.value == g;
    assert Placed(s, g);
    hide StartsOk, UpOk;
  }

  lemma UpAfterStart(s: State, g: nat, failed: bool)
    requires UpOk(s) && Placed(s, g)
    ensures UpOk(AfterStart(s, g, failed))
  {
  }

  lemma StopCompletedKept(s: State)
    requires Inv(s) && s.owedStop.Some?
    ensures Inv(AfterStop(s, s.owedStop.value))
  {
  }

  lemma InvKept(s: State, e: Step)
    requires Inv(s) && Enabled(s, e)
    ensures Inv(Apply(s, e))
  {
    hide Inv, AfterStart, AfterStop;
    match e
    case RollBack => RollBackKept(s);
    case StartCompleted(g, failed) => StartCompletedKept(s, g, failed);
    case StopCompleted => StopCompletedKept(s);
    case ControllerFails => InvOfFailed(s);
    case _ => CallKept(s, e);
  }

  lemma InvOfFailed(s: State)
    requires Inv(s)
    ensures Inv(s.(failed := true))
  {
  }

  ghost predicate Reachable(s: State) {
    exists run: seq<Step> :: Feasible(Initial, run) && s == Exec(Initial, run)
  }

  lemma {:induction false} RunInv(s: State, run: seq<Step>)
    requires Inv(s) && Feasible(s, run)
    ensures Inv(Exec(s, run))
    decreases |run|
  {
    if run != [] {
      InvKept(s, run[0]);
      RunInv(Apply(s, run[0]), run[1..]);
    }
  }

  lemma ReachableInv(s: State)
    requires Reachable(s)
    ensures Inv(s)
  {
    var run: seq<Step> :| Feasible(Initial, run) && s == Exec(Initial, run);
    RunInv(Initial, run);
  }

  // ---------------------------------------------------------------- what every run guarantees

  /** At most one stop callback is owed, to the active generation; and a start callback that is owed
      to another generation belongs to one that has lost the record to its stop or to a robbery. */
  lemma OwedIsActive(s: State, g: nat)
    requires Reachable(s)
    ensures s.owedStop.Some? ==> s.active == s.owedStop && s.stopPending
    ensures g in s.owedStarts && s.active != Some(g) ==> g in s.over || g in s.robbed
  {
    ReachableInv(s);
  }

  /** A stop releases its own generation or none. A start releases another generation exactly when
      it has failed, that one is active with no stop pending, and its own generation has lost the
      record before: to its stop, which completed first, or to such a release of itself. */
  lemma ForeignReleaseExactly(s: State, e: Step)
    requires Reachable(s) && Enabled(s, e) && (e.StartCompleted? || e.StopCompleted?)
    ensures e.StopCompleted? ==> s.active == s.owedStop && Apply(s, e).active.None?
    ensures e.StartCompleted? ==>
              (Robs(s, Apply(s, e), e.generation) <==>
                e.failed && s.active.Some? && s.active != Some(e.generation) && !s.stopPending
                && (e.generation in s.over || e.generation in s.robbed))
    ensures e.StartCompleted? ==> Apply(s, e).stopPending == s.stopPending
  {
    ReachableInv(s);
  }

  /** While the controller has not failed, a quiet record holds a running generation, which can be
      stopped, or is free; and a generation that runs without the record has been robbed. */
  lemma FreeWhenQuiet(s: State, g: nat)
    requires Reachable(s) && Quiet(s) && !s.failed
    ensures s.active.Some? ==> s.active.value in s.up && AdmitsStop(s, s.active.value)
    ensures g in s.up && s.active != Some(g) ==> g in s.robbed
    ensures s.robbed == {} ==> (AdmitsStart(s) <==> s.up == {})
  {
    ReachableInv(s);
    assert s.active.None? && s.robbed == {} ==> s.up == {} || exists h :: h in s.up;
  }

  // ---------------------------------------------------------------- careful callers

  /** The caller never starts while an accepted start has yet to call back. */
  predicate Careful(s: State, run: seq<Step>)
    requires Feasible(s, run)
    decreases |run|
  {
    run == [] || ((run[0].EnterStart? ==> s.owedStarts == multiset{}) && Careful(Apply(s, run[0]), run[1..]))
  }

  predicate CarefulInv(s: State) {
    && s.robbed == {} && |s.owedStarts| <= 1
    && (StartCalling(s) ==> s.owedStarts == multiset{} && s.active == Some(s.call.generation))
    && (s.active.Some? ==> forall g :: g in s.owedStarts ==> s.active == Some(g))
    && (s.startPending <==> s.active.Some? && (StartCalling(s) || s.active.value in s.owedStarts))
  }

  lemma CarefulStart(s: State, g: nat, failed: bool)
    requires Inv(s) && CarefulInv(s) && g in s.owedStarts
    ensures CarefulInv(AfterStart(s, g, failed))
  {
    assert s.owedStarts[g] == 1 && s.owedStarts == multiset{g} + (s.owedStarts - multiset{g});
    assert s.owedStarts - multiset{g} == multiset{};
    hide Inv;
  }

  lemma CarefulKept(s: State, e: Step)
    requires Inv(s) && CarefulInv(s) && Enabled(s, e) && (e.EnterStart? ==> s.owedStarts == multiset{})
    ensures CarefulInv(Apply(s, e))
  {
    if e.StartCompleted? {
      CarefulStart(s, e.generation, e.failed);
      hide CarefulInv, AfterStart;
    } else if e.StopCompleted? {
      CarefulStop(s);
      hide CarefulInv, AfterStop;
    } else {
      CarefulCall(s, e);
      hide CarefulInv;
    }
    hide Inv;
  }

  lemma CarefulCall(s: State, e: Step)
    requires Inv(s) && CarefulInv(s) && Enabled(s, e) && (e.EnterStart? ==> s.owedStarts == multiset{})
    requires !e.StartCompleted? && !e.StopCompleted?
    ensures CarefulInv(Apply(s, e))
  {
    hide StartsOk, UpOk;
  }

  lemma CarefulStop(s: State)
    requires Inv(s) && CarefulInv(s) && s.owedStop.Some?
    ensures CarefulInv(AfterStop(s, s.owedStop.value))
  {
    hide StartsOk, UpOk;
  }

  lemma {:induction false} CarefulRun(s: State, run: seq<Step>)
    requires Inv(s) && CarefulInv(s) && Feasible(s, run) && Careful(s, run)
    ensures Inv(Exec(s, run)) && CarefulInv(Exec(s, run))
    decreases |run|
  {
    if run != [] {
      InvKept(s, run[0]);
      CarefulKept(s, run[0]);
      CarefulRun(Apply(s, run[0]), run[1..]);
    }
  }

  /** With a careful caller a completion releases its own generation or none, in whatever order
      completions arrive; at most one start is owed, to the active generation or to one whose stop
      has completed and that nothing has followed yet. Its record says that a start is pending
      exactly while the active generation's start is being entered or is owed. */
  lemma NoForeignRelease(run: seq<Step>, e: Step)
    requires Feasible(Initial, run) && Careful(Initial, run) && Enabled(Exec(Initial, run), e)
    requires e.StartCompleted? || e.StopCompleted?
    ensures var s := Exec(Initial, run);
            var g := if e.StopCompleted? then s.owedStop else Some(e.generation);
            && (Apply(s, e).active == s.active || (Apply(s, e).active.None? && s.active == g))
            && |s.owedStarts| <= 1
            && (s.startPending <==> s.active.Some? && (StartCalling(s) || s.active.value in s.owedStarts))
            && (forall h :: h in s.owedStarts ==> s.active == Some(h) || (s.active.None? && h in s.over))
  {
    CarefulRun(Initial, run);
    var s := Exec(Initial, run);
    assert forall h :: h in s.owedStarts ==> Placed(s, h);
  }

  /** With a careful caller and a controller that has not failed, a quiet record is free for a new
      start exactly when no generation runs, and the one that runs can be stopped. */
  lemma FreeExactlyWhenQuiet(run: seq<Step>)
    requires Feasible(Initial, run) && Careful(Initial, run)
    ensures var s := Exec(Initial, run);
            Quiet(s) && !s.failed ==>
              && (AdmitsStart(s) <==> s.up == {})
              && (forall g :: g in s.up ==> AdmitsStop(s, g))
  {
    CarefulRun(Initial, run);
    var s := Exec(Initial, run);
    if Quiet(s) && !s.failed {
      FreeWhenQuiet(s, 0);
      assert forall g :: g in s.up ==> s.active == Some(g);
    }
  }

  /** No start is entered in the run. */
  predicate NoNewStart(run: seq<Step>) {
    forall i :: 0 <= i < |run| ==> !run[i].EnterStart?
  }

  /** Only generation `h` can hold the record, and only its starts are owed. */
  predicate Alone(s: State, h: nat) {
    && h !in s.robbed && (s.active.Some? ==> s.active == Some(h))
    && (forall g :: g in s.owedStarts ==> g == h)
    && (s.call.Starting? ==> s.call.generation == h)
  }

  lemma AloneStep(s: State, e: Step, h: nat)
    requires Alone(s, h) && Enabled(s, e) && !e.EnterStart?
    ensures Alone(Apply(s, e), h)
  {
  }

  lemma {:induction false} AloneRun(s: State, run: seq<Step>, h: nat)
    requires Alone(s, h) && Feasible(s, run) && NoNewStart(run)
    ensures Alone(Exec(s, run), h)
    decreases |run|
  {
    if run != [] {
      AloneStep(s, run[0], h);
      hide Apply, Enabled, Alone;
      AloneRun(Apply(s, run[0]), run[1..], h);
    }
  }

  lemma CarelessStart(s: State, g: nat, h: nat)
    requires Enabled(s, EnterStart(h)) && AdmitsStart(s) && !s.stopPending && g in s.owedStarts && g != h
    ensures var t := Apply(s, EnterStart(h));
            && Feasible(t, [StartCompleted(g, true)])
            && h in Exec(t, [StartCompleted(g, true)]).robbed
  {
    var t := Apply(s, EnterStart(h));
    assert [StartCompleted(g, true)][1..] == [];
    assert Exec(t, [StartCompleted(g, true)]) == Apply(t, StartCompleted(g, true));
  }

  /** A start that the free record admits keeps it in every continuation until the next start, other
      than by its own failure or stop, if and only if no start of another generation is owed. */
  lemma StartIsSafeExactly(s: State, h: nat)
    requires Reachable(s) && Enabled(s, EnterStart(h)) && AdmitsStart(s) && h !in s.robbed
    ensures (forall run: seq<Step> ::
               Feasible(Apply(s, EnterStart(h)), run) && NoNewStart(run) ==>
                 h !in Exec(Apply(s, EnterStart(h)), run).robbed)
            <==> (forall g :: g in s.owedStarts ==> g == h)
  {
    ReachableInv(s);
    var t := Apply(s, EnterStart(h));
    if forall g :: g in s.owedStarts ==> g == h {
      forall run: seq<Step> | Feasible(t, run) && NoNewStart(run)
        ensures h !in Exec(t, run).robbed
      {
        AloneRun(t, run, h);
      }
    } else {
      var g :| g in s.owedStarts && g != h;
      CarelessStart(s, g, h);
    }
  }

  // ---------------------------------------------------------------- a stranded record

  /** The stop call that is executing has been refused or has no answer yet, and its generation
      has no callback to come that could release it. */
  predicate Doomed(s: State) {
    StopCalling(s) && s.call.generation !in s.owedStarts && s.call.generation !in s.up
  }

  lemma DoomedStep(s: State, e: Step)
    requires Inv(s) && StopCalling(s) && Enabled(s, e) && e != RollBack && e != StopAnswered(true)
    ensures var g, t := s.call.generation, Apply(s, e);
            && StopCalling(t) && t.active == s.active && t.call.generation == g && t.owedStarts[g] <= s.owedStarts[g]
            && (Doomed(s) ==> Doomed(t))
            && (Doomed(t) ==> Doomed(s) || e == StartCompleted(g, true))
            && (s.owedStarts[g] <= 1 && e == StartCompleted(g, true) ==> Doomed(t))
  {
    hide StartsOk;
  }

  lemma {:induction false} DoomedDuring(s: State, run: seq<Step>)
    requires Inv(s) && StopCalling(s) && Feasible(s, run) && RollBack !in run && StopAnswered(true) !in run
    ensures var g, t := s.call.generation, Exec(s, run);
            && StopCalling(t) && Inv(t) && t.active == s.active && t.call.generation == g
            && (Doomed(s) ==> Doomed(t))
            && (Doomed(t) ==> Doomed(s) || StartCompleted(g, true) in run)
            && (s.owedStarts[g] <= 1 && StartCompleted(g, true) in run ==> Doomed(t))
    decreases |run|
  {
    if run != [] {
      InvKept(s, run[0]);
      DoomedStep(s, run[0]);
      hide Inv, Apply, Enabled, Doomed, StopCalling;
      DoomedDuring(Apply(s, run[0]), run[1..]);
    }
  }

  /** A refused stop leaves the record stranded only if a start of its generation failed while the
      stop call was executing, or if it found the record stranded; and then it does, if that start
      was the only one owed. */
  lemma RefusedStopStrands(s: State, g: nat, during: seq<Step>)
    requires Reachable(s) && Enabled(s, EnterStop(g)) && AdmitsStop(s, g)
    requires Feasible(Apply(s, EnterStop(g)), during) && RollBack !in during && StopAnswered(true) !in during
    requires Enabled(Exec(Apply(s, EnterStop(g)), during), RollBack)
    ensures var end := Apply(Exec(Apply(s, EnterStop(g)), during), RollBack);
            && (Stranded(s) ==> Stranded(end))
            && (Stranded(end) ==> Stranded(s) || StartCompleted(g, true) in during)
            && (s.owedStarts[g] <= 1 && StartCompleted(g, true) in during ==> Stranded(end))
  {
    ReachableInv(s);
    InvKept(s, EnterStop(g));
    DoomedDuring(Apply(s, EnterStop(g)), during);
  }

  lemma {:induction false} FailedRun(s: State, run: seq<Step>)
    requires s.failed && Feasible(s, run)
    ensures Exec(s, run).failed && StartAnswered(true) !in run && StopAnswered(true) !in run
    decreases |run|
  {
    if run != [] {
      FailedRun(Apply(s, run[0]), run[1..]);
    }
  }

  lemma {:induction false} StrandedRun(s: State, run: seq<Step>)
    requires s.failed && s.active.Some? && s.owedStop.None? && s.owedStarts == multiset{} && s.active.value !in s.up
    requires !StartCalling(s) && Feasible(s, run)
    ensures var t := Exec(s, run);
            && t.active == s.active && t.owedStop.None? && t.owedStarts == multiset{} && t.active.value !in t.up
            && !StartCalling(t)
    decreases |run|
  {
    if run != [] {
      StrandedRun(Apply(s, run[0]), run[1..]);
    }
  }

  /** A stranded record means a failed controller: no later call is accepted, so the controller
      would have refused each of them anyway; and with nothing owed the record stays as it is. */
  lemma StrandedMeansFailed(s: State, run: seq<Step>)
    requires Reachable(s) && Stranded(s) && Feasible(s, run)
    ensures s.failed && Exec(s, run).failed
    ensures StartAnswered(true) !in run && StopAnswered(true) !in run
    ensures Quiet(s) ==> Exec(s, run).active == s.active && (Quiet(Exec(s, run)) ==> Stranded(Exec(s, run)))
  {
    ReachableInv(s);
    FailedRun(s, run);
    if Quiet(s) { StrandedRun(s, run); }
  }

  // ---------------------------------------------------------------- two runs

  lemma Then(s: State, e: Step, rest: seq<Step>)
    requires Enabled(s, e) && Feasible(Apply(s, e), rest)
    ensures Feasible(s, [e] + rest) && Exec(s, [e] + rest) == Exec(Apply(s, e), rest)
  {
    assert ([e] + rest)[1..] == rest;
  }

  lemma {:induction false} ExecOne(s: State, run: seq<Step>, e: Step)
    requires Feasible(s, run) && Enabled(Exec(s, run), e)
    ensures Feasible(s, run + [e]) && Exec(s, run + [e]) == Apply(Exec(s, run), e)
    decreases |run|
  {
    if run == [] {
      assert run + [e] == [e];
    } else {
      ExecOne(Apply(s, run[0]), run[1..], e);
      assert (run + [e])[1..] == run[1..] + [e];
    }
  }

  lemma ReachableStep(s: State, e: Step) returns (t: State)
    requires Reachable(s) && Enabled(s, e)
    ensures Reachable(t) && t == Apply(s, e)
  {
    var run: seq<Step> :| Feasible(Initial, run) && s == Exec(Initial, run);
    ExecOne(Initial, run, e);
    t := Apply(s, e);
  }

  lemma Start() returns (s: State)
    ensures Reachable(s) && s == Initial.(active := Some(1), startPending := true, owedStarts := multiset{1})
  {
    assert Feasible(Initial, []) && Exec(Initial, []) == Initial;
    s := ReachableStep(Initial, EnterStart(1));
    s := ReachableStep(s, StartAnswered(true));
    assert multiset{} + multiset{1} == multiset{1};
  }

  /** A record does become stranded: the start is accepted, a stop reserves, the start fails and
      so does the controller, the stop is refused and takes its reservation back. */
  lemma StrandedHappens() returns (s: State)
    ensures Reachable(s) && Stranded(s) && Quiet(s)
  {
    s := Start();
    hide Reachable;
    s := ReachableStep(s, EnterStop(1));
    s := ReachableStep(s, StartCompleted(1, true));
    s := ReachableStep(s, ControllerFails);
    s := ReachableStep(s, StopAnswered(false));
    s := ReachableStep(s, RollBack);
  }

  /** A record does get robbed, without any failure of the controller: the stop of generation 1
      completes before its start, generation 2 is started, and then the start of generation 1
      fails. Generation 2 runs, cannot be stopped, and a third start is admitted beside it. */
  lemma RobberyHappens() returns (s: State)
    ensures Reachable(s) && Quiet(s) && !s.failed && 2 in s.up && AdmitsStart(s) && !AdmitsStop(s, 2)
  {
    s := Start();
    hide Reachable;
    s := ReachableStep(s, EnterStop(1));
    s := ReachableStep(s, StopAnswered(true));
    s := ReachableStep(s, StopCompleted);
    s := ReachableStep(s, EnterStart(2));
    s := ReachableStep(s, StartCompleted(1, true));
    s := ReachableStep(s, StartAnswered(true));
    s := ReachableStep(s, StartCompleted(2, false));
  }

  // ---------------------------------------------------------------- the record under its mutex

  /** RequestState, with the critical sections of the two calls and the two completions. `world`
      is the whole state the record is part of. */
  class Requests {
    var active: Option<nat>
    var startPending: bool
    var stopPending: bool
    ghost var world: State

    ghost predicate Valid()
      reads this
    {
      Inv(world) && world.active == active && world.startPending == startPending && world.stopPending == stopPending
    }

    constructor ()
      ensures Valid() && world == Initial
    {
      active, startPending, stopPending, world := None, false, false, Initial;
    }

    method TryStart(g: nat) returns (admitted: bool)
      requires Valid() && Enabled(world, EnterStart(g))
      modifies this
      ensures Valid() && world == Apply(old(world), EnterStart(g))
      ensures admitted ==> active == Some(g) && startPending && old(active).None?
      ensures !admitted ==> old(active).Some? && active == old(active) && startPending == old(startPending)
    {
      InvKept(world, EnterStart(g));
      world := Apply(world, EnterStart(g));
      if active.Some? { return false; }
      active, startPending := Some(g), true;
      return true;
    }

    method TryStop(g: nat) returns (admitted: bool)
      requires Valid() && Enabled(world, EnterStop(g))
      modifies this
      ensures Valid() && world == Apply(old(world), EnterStop(g)) && active == old(active)
      ensures admitted <==> old(active) == Some(g) && old(world.owedStop).None?
    {
      InvKept(world, EnterStop(g));
      world := Apply(world, EnterStop(g));
      if active != Some(g) || stopPending { return false; }
      stopPending := true;
      return true;
    }

    /** The controller has refused the start. */
    method StartRejected(g: nat)
      requires Valid() && world.call == StartRefused(g)
      modifies this
      ensures Valid() && world == Apply(old(world), RollBack)
      ensures active.None? && stopPending == old(stopPending)
    {
      InvKept(world, RollBack);
      world := Apply(world, RollBack);
      if active == Some(g) { active, startPending := None, false; }
    }

    /** The controller has refused the stop. */
    method StopRejected()
      requires Valid() && world.call.StopRefused?
      modifies this
      ensures Valid() && world == Apply(old(world), RollBack)
      ensures active == old(active) && !stopPending
    {
      InvKept(world, RollBack);
      world := Apply(world, RollBack);
      stopPending := false;
    }

    /** The completion of a start of `g`. It may clear the record of another generation, but only
        if `g` has lost its own record before. */
    method OnStart(g: nat, failed: bool)
      requires Valid() && g in world.owedStarts
      modifies this
      ensures Valid() && world == Apply(old(world), StartCompleted(g, failed))
      ensures active == old(active) || (failed && active.None? && !old(stopPending))
      ensures active != old(active) && old(active) != Some(g) ==> g in old(world.over) || g in old(world.robbed)
    {
      InvKept(world, StartCompleted(g, failed));
      world := Apply(world, StartCompleted(g, failed));
      startPending := false;
      if failed && !stopPending { active := None; }
    }

    method OnStop(g: nat)
      requires Valid() && Enabled(world, StopCompleted) && world.owedStop == Some(g)
      modifies this
      ensures Valid() && world == Apply(old(world), StopCompleted)
      ensures active.None? && old(active) == Some(g) && !stopPending
    {
      InvKept(world, StopCompleted);
      world := Apply(world, StopCompleted);
      if active == Some(g) { active, startPending, stopPending := None, false, false; }
    }
  }
}
