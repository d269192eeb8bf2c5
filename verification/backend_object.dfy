/** createBackend's closure as an object: `owner` and `terminal` are its fields, and its public
    functions and callbacks are methods; the addon controller and the sidecars it drives are held
    as values. `Handle` runs one of them to its end: at most one backend is ever possibly alive. */
module BackendObject {
  import opened Backend
  import opened BackendProofs
  import A = AddonController
  import S = Sidecar

  /** At most one backend is possibly alive, and it is the owner; one is begun only when nothing
      is owned, no shutdown has failed, and every earlier process is known to have exited. */
  ghost predicate Promised(s: System, e: Event, t: System)
    requires Enabled(s, e)
  {
    && (!t.controller.status.Stopped? ==> t.owner.Addon?)
    && (forall id :: Lives(t, id) ==> t.owner.Sidecar? && t.owner.id == id)
    && (Begins(s, e) ==> s.owner.Nobody? && !s.terminal && s.controller.status.Stopped? && forall id :: !Lives(s, id))
  }

  lemma Keeps(s: System, e: Event)
    requires Inv(s) && Enabled(s, e)
    ensures Inv(Apply(s, e)) && Promised(s, e, Apply(s, e))
  {
    InvKept(s, e);
    assert Exclusive(s) && Exclusive(Apply(s, e));
    if Begins(s, e) { assert s.owner.Nobody? && !s.terminal; }
    hide Apply, Enabled, Inv;
  }

  class Selection {
    const mobile: bool
    var owner: Owner
    var terminal: bool
    var controller: A.State
    var sidecars: map<nat, Launch>
    var next: nat

    function View(): System
      reads this
    {
      System(mobile, owner, terminal, controller, sidecars, next)
    }

    /** What holds between any two callbacks. */
    ghost predicate Valid()
      reads this
    {
      Inv(View())
    }

    constructor (mobile: bool)
      ensures Valid() && View() == Initial(mobile)
    {
      InitialInv(mobile);
      this.mobile := mobile;
      owner, terminal, controller, sidecars, next := Nobody, false, A.Initial, map[], 0;
    }

    method SelectAddon(a: Answers)
      modifies this`owner, this`controller
      ensures View() == StartAddon(old(View()), a)
    {
      hide A.OnStart;
      if !owner.Nobody? { return; }
      if !a.addonLoads { return; }
      owner := Addon(Active);
      controller := A.OnStart(controller, a.addonConfig, a.timer);
    }

    method SelectSidecar(a: Answers)
      modifies this`owner, this`next, this`sidecars
      ensures View() == StartSidecar(old(View()), a)
    {
      hide S.Create;
      if !owner.Nobody? { return; }
      var launch := Refused;
      if a.spawned { launch := Spawned(S.Create(a.setup, a.spawnConfirmed, a.os)); }
      sidecars := sidecars[next := launch];
      owner := Sidecar(next, Active);
      next := next + 1;
    }

    method Start(choice: Choice, a: Answers)
      modifies this
      ensures View() == OnStart(old(View()), choice, a)
    {
      hide StartAddon, StartSidecar;
      if choice.InvalidChoice? || terminal { return; }
      if mobile {
        if choice.SidecarChoice? { return; }
        SelectAddon(a);
        return;
      }
      if choice.AddonChoice? {
        SelectAddon(a);
        return;
      }
      SelectSidecar(a);
    }

    method Stop(os: S.Os)
      modifies this
      ensures View() == OnStop(old(View()), os)
    {
      hide A.OnStop, S.OnStop;
      if terminal { return; }
      match owner
      case Nobody =>
      case Addon(status) =>
        if !status.Active? { return; }
        owner := Addon(Stopping);
        controller := A.OnStop(controller, controller.generation);
      case Sidecar(id, status) =>
        if !status.Active? { return; }
        owner := Sidecar(id, Stopping);
        if id in sidecars && sidecars[id].Spawned? {
          sidecars := sidecars[id := Spawned(S.OnStop(sidecars[id].process, os))];
        }
    }

    /** The lifecycle observer. */
    method Notice(emission: A.Emission)
      modifies this`owner, this`terminal
      ensures View() == Observe(old(View()), emission)
    {
      if !owner.Addon? { return; }
      if emission.EmitFailed? {
        terminal := true;
        owner := Addon(Failed);
      } else if emission.EmitStopped? && owner.status.Active? {
        owner := Nobody;
      }
    }

    method AfterSidecarStopped(id: nat)
      requires id in sidecars
      modifies this`owner, this`terminal
      ensures View() == OnSidecarStopped(old(View()), id)
    {
      if owner != Sidecar(id, Active) { return; }
      if sidecars[id].Spawned? && sidecars[id].process.stopped.Rejected? {
        terminal := true;
        owner := Sidecar(id, Failed);
      } else {
        owner := Nobody;
      }
    }

    method AfterOwnerStopped()
      requires StopOver(View())
      modifies this`owner, this`terminal
      ensures View() == OnOwnerStopped(old(View()))
    {
      if StopFailed(View()) { terminal := true; } else { owner := Nobody; }
    }

    /** A step of the addon controller, with what its observer hears. */
    method StepAddon(call: A.Event)
      requires A.Enabled(controller, call)
      modifies this
      ensures View() == OnAddon(old(View()), call)
    {
      hide A.Apply, A.Emits, A.Enabled, Observe;
      var emission := A.Emits(controller, call);
      controller := A.Apply(controller, call);
      Notice(emission);
    }

    /** One public call, one step of a component or one callback of a settled promise. */
    method Handle(e: Event)
      requires Valid() && Enabled(View(), e)
      modifies this
      ensures Valid() && View() == Apply(old(View()), e)
      ensures Promised(old(View()), e, View())
    {
      Keeps(View(), e);
      hide Inv, Promised, OnStart, OnStop, OnAddon, OnSidecarStopped, OnOwnerStopped, S.Apply;
      match e {
        case Start(choice, a) => Start(choice, a);
        case Stop(os) => Stop(os);
        case OfAddon(call) => StepAddon(call);
        case OfSidecar(id, event, parse) =>
          sidecars := sidecars[id := Spawned(S.Apply(sidecars[id].process, event, parse))];
        case AddonStartFailed => Stop(S.Os(true, true));
        case SidecarStartFailed(id, os) => if owner == Sidecar(id, Active) { Stop(os); }
        case SidecarStopped(id) => AfterSidecarStopped(id);
        case OwnerStopped => AfterOwnerStopped();
      }
    }
  }
}
