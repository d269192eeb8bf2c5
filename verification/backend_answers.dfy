/** What each event of the composed system does to the owner and to its component, in every
    reachable state, said of the component and not of the event's own definition. */
module BackendAnswers {
  import opened Optional
  import opened Backend
  import opened BackendProofs
  import A = AddonController
  import AP = AddonControllerProofs
  import S = Sidecar
  import SP = SidecarProofs

  /** The addon's service was starting or running, and has now been told to stop, once. */
  predicate ToldToStop(c: A.State, d: A.State) {
    d.status.Stopping? && d.stopInFlight == Some(c.generation) && d.log == c.log + [A.NativeStop(c.generation)]
  }

  /** The shutdown of a process has been requested: its stop exists, nothing that was settled before
      changed, and a process that had not exited was killed once more. */
  predicate ShutdownRequested(p: S.State, q: S.State) {
    && !q.stop.Absent? && (q.status.Stopping? || q.status.Stopped? || q.status.Failed?)
    && (p.stop.Absent? && !p.exitConfirmed ==> q.kills == p.kills + 1)
    && (!p.stop.Absent? ==> q == p)
  }

  /** Stopping makes an active owner Stopping and stops its component; it does nothing to anybody else. */
  lemma StopAnswers(s: System, os: S.Os)
    requires Reachable(s)
    ensures var t := Apply(s, Stop(os));
            && t.terminal == s.terminal && t.next == s.next && t.mobile == s.mobile
            && (s.owner.Nobody? || !s.owner.status.Active? ==> t == s)
            && (s.owner == Addon(Active) ==>
                 && t.owner == Addon(Stopping) && t.sidecars == s.sidecars
                 && (s.controller.status.Starting? || s.controller.status.Running? ==>
                      ToldToStop(s.controller, t.controller))
                 && (!(s.controller.status.Starting? || s.controller.status.Running?) ==> t.controller == s.controller))
            && (s.owner.Sidecar? && s.owner.status.Active? ==>
                 && t.owner == Sidecar(s.owner.id, Stopping) && t.controller == s.controller
                 && t.sidecars.Keys == s.sidecars.Keys
                 && (forall id :: id in s.sidecars && id != s.owner.id ==> t.sidecars[id] == s.sidecars[id])
                 && (!HasProcess(s, s.owner.id) ==> t.sidecars == s.sidecars)
                 && (HasProcess(s, s.owner.id) ==>
                      && HasProcess(t, s.owner.id)
                      && ShutdownRequested(s.sidecars[s.owner.id].process, t.sidecars[s.owner.id].process)))
  {
    ReachableInv(s);
    if !s.terminal && s.owner.Sidecar? && s.owner.status.Active? && HasProcess(s, s.owner.id) {
      ProcessStopAnswers(s.sidecars[s.owner.id].process, os);
    }
    hide Reachable, S.OnStop, ShutdownRequested, SP.Inv;
  }

  lemma ProcessStopAnswers(p: S.State, os: S.Os)
    requires SP.Inv(p)
    ensures ShutdownRequested(p, S.OnStop(p, os))
  {
  }

  /** Which backend a start is for, once its options are valid. */
  function Wanted(s: System, choice: Choice): Choice {
    if choice.InvalidChoice? || (s.mobile && choice.SidecarChoice?) then InvalidChoice
    else if s.mobile || choice.AddonChoice? then AddonChoice
    else SidecarChoice
  }

  /** A start that finds no owner and no failed shutdown owns the backend it asked for, with a new
      generation of the addon or a new process; every other start changes nothing. */
  lemma StartAnswers(s: System, choice: Choice, a: Answers)
    requires Reachable(s)
    ensures var t, wanted := Apply(s, Start(choice, a)), Wanted(s, choice);
            && t.terminal == s.terminal && t.mobile == s.mobile
            && (!s.owner.Nobody? || wanted.InvalidChoice? || (wanted.AddonChoice? && !a.addonLoads) ==> t == s)
            && (s.owner.Nobody? && wanted.AddonChoice? && a.addonLoads ==>
                 && t.owner == Addon(Active) && t.sidecars == s.sidecars && t.next == s.next
                 && (a.addonConfig.None? ==> t.controller == s.controller)
                 && (a.addonConfig.Some? ==>
                      && t.controller.generation == s.controller.generation + 1
                      && t.controller.config == a.addonConfig
                      && A.NativeStart(t.controller.generation) in t.controller.log
                      && (t.controller.status.Starting? <==> a.timer.Armed?)))
            && (s.owner.Nobody? && wanted.SidecarChoice? ==>
                 && s.next !in s.sidecars && t.next == s.next + 1 && t.owner == Sidecar(s.next, Active)
                 && t.controller == s.controller && t.sidecars.Keys == s.sidecars.Keys + {s.next}
                 && (forall id :: id in s.sidecars ==> t.sidecars[id] == s.sidecars[id])
                 && (HasProcess(t, s.next) <==> a.spawned)
                 && (a.spawned && a.setup.Complete? ==> t.sidecars[s.next].process.status.Starting?))
  {
    ReachableInv(s);
    if s.owner.Nobody? && a.addonConfig.Some? { CallAnswers(s.controller, a.addonConfig, a.timer); }
    hide Reachable, A.OnStart, AP.Inv;
  }

  lemma CallAnswers(c: A.State, config: Option<nat>, timer: A.Timer)
    requires c.status.Stopped? && config.Some?
    ensures var d := A.OnStart(c, config, timer);
            && d.generation == c.generation + 1 && d.config == config && A.NativeStart(d.generation) in d.log
            && (d.status.Starting? <==> timer.Armed?)
  {
    var d := A.OnStart(c, config, timer);
    assert d.log[|c.log|] == A.NativeStart(c.generation + 1);
  }

  /** The owner's stop has settled: the backend is free again, and if the shutdown failed it stays
      taken for good. */
  lemma OwnerStoppedAnswers(s: System)
    requires Reachable(s) && Enabled(s, OwnerStopped)
    ensures var t := Apply(s, OwnerStopped);
            && (OwnerFailed(s) ==> t == s.(terminal := true))
            && (!OwnerFailed(s) ==> t == s.(owner := Nobody) && !t.terminal)
  {
    ReachableInv(s);
    hide Reachable;
  }

  /** A failed start of the owner stops it; the failure of an older start changes nothing. */
  lemma FailedStartAnswers(s: System, e: Event)
    requires Reachable(s) && Enabled(s, e) && (e.AddonStartFailed? || e.SidecarStartFailed?)
    ensures var t, os := Apply(s, e), if e.SidecarStartFailed? then e.os else S.Os(true, true);
            && (s.owner == (if e.SidecarStartFailed? then Sidecar(e.id, Active) else Addon(Active)) ==>
                 t == Apply(s, Stop(os)) && t.owner.status.Stopping?)
            && (s.owner != (if e.SidecarStartFailed? then Sidecar(e.id, Active) else Addon(Active)) ==> t == s)
  {
    ReachableInv(s);
    hide Reachable, S.OnStop, A.OnStop, AP.Inv, SP.Inv;
  }

  /** The end of a process that nobody stopped frees the backend, unless its shutdown failed. */
  lemma SidecarStoppedAnswers(s: System, id: nat)
    requires Reachable(s) && Enabled(s, SidecarStopped(id))
    ensures var t, owned := Apply(s, SidecarStopped(id)), s.owner == Sidecar(id, Active);
            && (!owned ==> t == s)
            && (owned && (s.sidecars[id].Refused? || s.sidecars[id].process.stopped.Fulfilled?) ==>
                 t == s.(owner := Nobody))
            && (owned && s.sidecars[id].Spawned? && s.sidecars[id].process.stopped.Rejected? ==>
                 t == s.(owner := Sidecar(id, Failed), terminal := true))
  {
    hide Reachable;
  }

  /** A step of the addon moves its controller. The backend is freed when its active owner's service
      has stopped, and fails with it; nothing else reaches the owner. */
  lemma AddonAnswers(s: System, e: A.Event)
    requires Reachable(s) && Enabled(s, OfAddon(e))
    ensures var t, c := Apply(s, OfAddon(e)), A.Apply(s.controller, e);
            && t.controller == c && t.sidecars == s.sidecars && t.next == s.next && t.mobile == s.mobile
            && (s.owner.Addon? && c.status.Failed? && !s.controller.status.Failed? ==>
                 t.owner == Addon(Failed) && t.terminal)
            && (s.owner == Addon(Active) && c.status.Stopped? && !s.controller.status.Stopped? ==>
                 t.owner.Nobody? && t.terminal == s.terminal)
            && (!(s.owner.Addon? && c.status.Failed? && !s.controller.status.Failed?)
                && !(s.owner == Addon(Active) && c.status.Stopped? && !s.controller.status.Stopped?) ==>
                 t.owner == s.owner && t.terminal == s.terminal)
  {
    ReachableInv(s);
    EmissionsMatch(s.controller, e);
    hide Reachable, Inv, A.Apply, A.Emits;
  }

  /** A step of a process reaches nothing but that process. */
  lemma SidecarAnswers(s: System, id: nat, e: S.Event, parse: string -> Option<int>)
    requires Enabled(s, OfSidecar(id, e, parse))
    ensures var t := Apply(s, OfSidecar(id, e, parse));
            && t.owner == s.owner && t.terminal == s.terminal && t.controller == s.controller && t.next == s.next
            && t.sidecars.Keys == s.sidecars.Keys
            && t.sidecars[id] == Spawned(S.Apply(s.sidecars[id].process, e, parse))
            && (forall other :: other in s.sidecars && other != id ==> t.sidecars[other] == s.sidecars[other])
  {
    hide S.Apply, S.Enabled;
  }
}
