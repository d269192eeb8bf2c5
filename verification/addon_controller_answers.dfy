/** What each call, settlement and timer of the addon controller does, in every reachable state. */
module AddonControllerAnswers {
  import opened Optional
  import opened AddonController
  import opened AddonControllerProofs

  /** The code that a failed native start or timer is reported with: a documented one is kept. */
  function Reported(code: Code): Code {
    if code.Other? then Bootstrap else code
  }

  /** Only the current generation, while it is Starting, listens to its native start and its timer. */
  predicate Listens(s: State, g: nat) {
    g == s.generation && s.status.Starting?
  }

  // ---------------------------------------------------------------- start

  /** A valid start of a stopped controller begins the next generation with its own configuration,
      calls the native start once, and opens its promise; if the timer cannot be armed it is
      stopped again at once. Any other start changes nothing. */
  lemma StartAnswers(s: State, config: Option<nat>, timer: Timer)
    requires Reachable(s)
    ensures var t, g := Apply(s, Start(config, timer)), s.generation + 1;
            if config.None? || !s.status.Stopped? then t == s
            else
              && t.generation == g && t.config == config && t.promises == s.promises[g := Pending]
              && t.nativeStarts == s.nativeStarts + {g} && t.settlements == s.settlements
              && (timer.Armed? ==>
                   t.status.Starting? && t.timer && t.armed == s.armed + {g} && t.log == s.log + [NativeStart(g)])
              && (timer.Threw? ==>
                   t.status.Stopping? && t.stopCode == Some(Reported(timer.code)) && t.stopInFlight == Some(g)
                   && t.log == s.log + [NativeStart(g), NativeStop(g)])
  {
    ReachableInv(s);
    var g := s.generation + 1;
    assert s.log + [NativeStart(g)] + [NativeStop(g)] == s.log + [NativeStart(g), NativeStop(g)];
    hide Inv, Reachable;
  }

  /** The configuration that the native start of each generation was called with. */
  function Configs(s: State, run: seq<Event>, configs: map<nat, nat>): map<nat, nat>
    requires Feasible(s, run)
    decreases |run|
  {
    if run == [] then configs else Configs(Apply(s, run[0]), run[1..], Called(s, run[0], configs))
  }

  function Called(s: State, e: Event, configs: map<nat, nat>): map<nat, nat>
    requires Enabled(s, e)
  {
    if e.Start? && NativeStart(s.generation + 1) in Apply(s, e).log && NativeStart(s.generation + 1) !in s.log
        && e.config.Some?
    then configs[s.generation + 1 := e.config.value] else configs
  }

  /** While a generation lasts, the controller has the configuration it was called with. */
  predicate ConfigOk(s: State, configs: map<nat, nat>) {
    s.status.Starting? || s.status.Running? || s.status.Stopping? ==>
      s.generation in configs && s.config == Some(configs[s.generation])
  }

  lemma NotCalledYet(s: State)
    requires Inv(s)
    ensures NativeStart(s.generation + 1) !in s.log
  {
    assert forall e :: e in s.log ==> e.generation <= s.generation;
    hide LegalLog, Current;
  }

  lemma ConfigKept(s: State, e: Event, configs: map<nat, nat>)
    requires Inv(s) && Enabled(s, e) && ConfigOk(s, configs)
    ensures ConfigOk(Apply(s, e), Called(s, e, configs))
  {
    NotCalledYet(s);
    hide StatePromisesOk, StateLogOk, NamesOk;
    if e.Start? { StartCalls(s, e); } else { OthersCallNothing(s, e); }
  }

  lemma StartCalls(s: State, e: Event)
    requires e.Start? && Enabled(s, e) && NativeStart(s.generation + 1) !in s.log
    ensures NativeStart(s.generation + 1) in Apply(s, e).log <==> e.config.Some? && s.status.Stopped?
  {
  }

  lemma OthersCallNothing(s: State, e: Event)
    requires Enabled(s, e) && !e.Start? && NativeStart(s.generation + 1) !in s.log
    ensures NativeStart(s.generation + 1) !in Apply(s, e).log
  {
  }

  lemma {:induction false} ConfigRun(s: State, run: seq<Event>, configs: map<nat, nat>)
    requires Inv(s) && Feasible(s, run) && ConfigOk(s, configs)
    ensures ConfigOk(Exec(s, run), Configs(s, run, configs))
    decreases |run|
  {
    if run != [] {
      InvKept(s, run[0]);
      ConfigKept(s, run[0], configs);
      hide Inv, Apply, Enabled, ConfigOk, Called;
      ConfigRun(Apply(s, run[0]), run[1..], Called(s, run[0], configs));
    }
  }

  /** In every run: a valid start gets the promise of a generation exactly if the controller has
      stopped, and then it is the next one's, or the generation is starting or runs with exactly the
      configuration asked for; otherwise it is told why. */
  lemma StartRepliesExactly(run: seq<Event>, config: nat)
    requires Feasible(Initial, run)
    ensures var s, configs, reply := Exec(Initial, run), Configs(Initial, run, map[]),
              StartReply(Exec(Initial, run), Some(config));
            && (s.status.Starting? || s.status.Running? ==> s.generation in configs)
            && (reply.PromiseOf? <==>
                 || s.status.Stopped?
                 || ((s.status.Starting? || s.status.Running?) && config == configs[s.generation]))
            && (reply.PromiseOf? ==> reply.generation == s.generation + (if s.status.Stopped? then 1 else 0))
            && (!reply.PromiseOf? ==>
                 reply == if s.status.Failed? then Refused(Shutdown)
                          else if s.status.Stopping? then RefusedAfterStop(Cancelled)
                          else Refused(ConfigConflict))
  {
    InitialInv();
    ConfigRun(Initial, run, map[]);
  }

  // ---------------------------------------------------------------- the native start settles

  /** A native start that brings a port makes the service run and fulfils the promise with that port,
      without a native stop, if and only if the port is one; otherwise the service is stopped, to
      be rejected with Bootstrap. A late one changes nothing else. */
  lemma ResolvedAnswers(s: State, g: nat, port: int)
    requires Reachable(s) && Enabled(s, StartResolved(g, port))
    ensures var t := Apply(s, StartResolved(g, port));
            && t.nativeStarts == s.nativeStarts - {g}
            && (!Listens(s, g) ==> t == s.(nativeStarts := t.nativeStarts))
            && (Listens(s, g) ==>
                 && (1 <= port <= 65535 <==> t.status.Running?)
                 && (1 <= port <= 65535 <==> t.log == s.log)
                 && (t.status.Running? ==>
                      t.promises == s.promises[g := Fulfilled(port)] && !t.timer && t.config == s.config)
                 && (!t.status.Running? ==>
                      && t.status.Stopping? && t.stopCode == Some(Bootstrap) && t.stopInFlight == Some(g)
                      && t.log == s.log + [NativeStop(g)] && t.promises == s.promises && !t.timer))
  {
    ReachableInv(s);
    assert |s.log + [NativeStop(g)]| != |s.log|;
    if Listens(s, g) { assert g in s.promises && s.promises[g].Pending?; }
    hide LogOk, Reachable;
  }

  /** A native start that fails rejects the promise with its code, and the controller has stopped, or
      failed if the failure is one of shutdown. */
  lemma RejectedAnswers(s: State, g: nat, code: Code)
    requires Reachable(s) && Enabled(s, StartRejected(g, code))
    ensures var t := Apply(s, StartRejected(g, code));
            && t.nativeStarts == s.nativeStarts - {g}
            && (!Listens(s, g) ==> t == s.(nativeStarts := t.nativeStarts))
            && (Listens(s, g) ==>
                 && t.promises == s.promises[g := Rejected(Reported(code))] && t.config.None? && !t.timer
                 && t.stopInFlight.None?
                 && (t.status.Failed? <==> code.Shutdown?) && (!t.status.Failed? ==> t.status.Stopped?)
                 && (!t.status.Failed? ==> t.log == s.log + [StartRefused(g)])
                 && (t.status.Failed? ==> t.log == s.log))
  {
    ReachableInv(s);
    if Listens(s, g) { assert g in s.promises && s.promises[g].Pending?; }
    hide LogOk, Reachable;
  }

  // ---------------------------------------------------------------- stop

  /** A stop of the current generation while it starts or runs calls the native stop once, clears the
      timer, and will reject a startup as cancelled; any other stop changes nothing. */
  lemma StopAnswers(s: State, g: nat)
    requires Reachable(s)
    ensures var t := Apply(s, Stop(g));
            if g == s.generation && (s.status.Starting? || s.status.Running?) then
              && t.status.Stopping? && t.stopInFlight == Some(g) && t.log == s.log + [NativeStop(g)] && !t.timer
              && t.stopCode == (if s.status.Starting? then Some(Cancelled) else None)
              && t.promises == s.promises && t.nativeStarts == s.nativeStarts && t.generation == s.generation
            else t == s
  {
    hide Reachable;
  }

  /** A startup timer stops its own generation while it starts, for a timeout, and nothing else. */
  lemma TimerAnswers(s: State, g: nat)
    requires Reachable(s) && Enabled(s, TimerFired(g))
    ensures var t := Apply(s, TimerFired(g));
            if Listens(s, g) then
              && t.status.Stopping? && t.stopInFlight == Some(g) && t.log == s.log + [NativeStop(g)] && !t.timer
              && t.stopCode == Some(Timeout) && t.promises == s.promises
            else t == s
  {
    hide Reachable;
  }

  /** When the native stop settles, the controller has stopped and can start again, or has failed if
      it was rejected; an interrupted startup is rejected, with the reason or for the shutdown, and
      no other promise changes. */
  lemma SettledAnswers(s: State, e: Event)
    requires Reachable(s) && Enabled(s, e) && (e.StopResolved? || e.StopRejected?)
    ensures var t, g := Apply(s, e), s.generation;
            && t.stopInFlight.None? && t.config.None? && t.generation == g
            && (if e.StopResolved? then t.status.Stopped? && t.log == s.log + [StopSettled(g)]
                else t.status.Failed? && t.log == s.log)
            && t.promises == (if s.stopCode.None? then s.promises
                              else s.promises[g := Rejected(if e.StopResolved? then s.stopCode.value else Shutdown)])
  {
    ReachableInv(s);
    if s.stopCode.Some? { assert s.generation in s.promises && s.promises[s.generation].Pending?; }
    hide LogOk, Reachable;
  }
}
