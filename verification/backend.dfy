/** The backend selection (lib/backend.js) composed with the addon controller and the sidecars
    it starts. Public calls do not re-enter it; promise callbacks run as steps of their own, in
    any order once their promise has settled. */
module Backend {
  import opened Optional
  import A = AddonController
  import S = Sidecar

  datatype OwnerStatus = Active | Stopping | Failed

  datatype Owner = Nobody | Addon(status: OwnerStatus) | Sidecar(id: nat, status: OwnerStatus)

  datatype Choice = Unspecified | AddonChoice | SidecarChoice | InvalidChoice

  /** What starting a sidecar did: options or spawn were refused, or a process runs. */
  datatype Launch = Refused | Spawned(process: S.State)

  datatype System = System(
    mobile: bool,
    owner: Owner,
    terminal: bool,
    controller: A.State,
    sidecars: map<nat, Launch>,
    next: nat)

  /** What the environment answers to a start: whether the addon loads, its validated options
      and timer, and how the sidecar process comes up. */
  datatype Answers = Answers(addonLoads: bool, addonConfig: Option<nat>, timer: A.Timer,
                             spawned: bool, setup: S.Setup, spawnConfirmed: bool, os: S.Os)

  datatype Event =
    | Start(choice: Choice, answers: Answers)
    | Stop(os: S.Os)
    | OfAddon(call: A.Event)
    | OfSidecar(id: nat, event: S.Event, parse: string -> Option<int>)
    | AddonStartFailed
    | SidecarStartFailed(id: nat, os: S.Os)
    | SidecarStopped(id: nat)
    | OwnerStopped

  function Initial(mobile: bool): System {
    System(mobile, Nobody, false, A.Initial, map[], 0)
  }

  predicate HasProcess(s: System, id: nat) {
    id in s.sidecars && s.sidecars[id].Spawned?
  }

  /** The promise that the owner's stop waits for has settled. */
  predicate StopOver(s: System) {
    match s.owner
    case Nobody => false
    case Addon(status) => !status.Active? && (s.controller.status.Stopped? || s.controller.status.Failed?)
    case Sidecar(id, status) =>
      !status.Active? && id in s.sidecars
      && (s.sidecars[id].Refused? || s.sidecars[id].process.stop.Fulfilled? || s.sidecars[id].process.stop.Rejected?)
  }

  predicate StopFailed(s: System)
    requires StopOver(s)
  {
    match s.owner
    case Addon(_) => s.controller.status.Failed?
    case Sidecar(id, _) => s.sidecars[id].Spawned? && s.sidecars[id].process.stop.Rejected?
  }

  predicate Enabled(s: System, e: Event) {
    match e
    case OfAddon(call) => !call.Start? && A.Enabled(s.controller, call)
    case OfSidecar(id, event, _) => HasProcess(s, id) && S.Enabled(s.sidecars[id].process, event)
    case AddonStartFailed => s.owner.Addon?
    case SidecarStartFailed(id, _) => id in s.sidecars
        && (s.sidecars[id].Refused? || s.sidecars[id].process.start.Rejected?)
    case SidecarStopped(id) =>
      id in s.sidecars && (s.sidecars[id].Refused? || s.sidecars[id].process.stopped.Fulfilled?
          || s.sidecars[id].process.stopped.Rejected?)
    case OwnerStopped => StopOver(s)
    case _ => true
  }

  // ---------------------------------------------------------------- public calls

  function StartAddon(s: System, a: Answers): System {
    if !s.owner.Nobody? || !a.addonLoads then s
    else s.(owner := Addon(Active), controller := A.OnStart(s.controller, a.addonConfig, a.timer))
  }

  function StartSidecar(s: System, a: Answers): System {
    if !s.owner.Nobody? then s
    else s.(owner := Sidecar(s.next, Active), next := s.next + 1,
            sidecars := s.sidecars[s.next := if a.spawned then Spawned(S.Create(a.setup, a.spawnConfirmed, a.os))
                else Refused])
  }

  function OnStart(s: System, choice: Choice, a: Answers): System {
    if choice.InvalidChoice? || s.terminal then s
    else if s.mobile then (if choice.SidecarChoice? then s else StartAddon(s, a))
    else if choice.AddonChoice? then StartAddon(s, a)
    else StartSidecar(s, a)
  }

  function OnStop(s: System, os: S.Os): System {
    if s.terminal then s
    else
      match s.owner
      case Nobody => s
      case Addon(status) =>
        if status.Active? then
          s.(owner := Addon(Stopping), controller := A.OnStop(s.controller, s.controller.generation))
        else s
      case Sidecar(id, status) =>
        if !status.Active? then s
        else if HasProcess(s, id) then
          s.(owner := Sidecar(id, Stopping),
              sidecars := s.sidecars[id := Spawned(S.OnStop(s.sidecars[id].process, os))])
        else s.(owner := Sidecar(id, Stopping))
  }

  // ---------------------------------------------------------------- callbacks

  /** The lifecycle observer of the addon's owner. */
  function Observe(s: System, emission: A.Emission): System {
    if !s.owner.Addon? then s
    else
      match emission
      case Silent => s
      case EmitFailed => s.(terminal := true, owner := Addon(Failed))
      case EmitStopped(_) => if s.owner.status.Active? then s.(owner := Nobody) else s
  }

  function OnAddon(s: System, e: A.Event): System
    requires A.Enabled(s.controller, e)
  {
    Observe(s.(controller := A.Apply(s.controller, e)), A.Emits(s.controller, e))
  }

  function OnSidecarStopped(s: System, id: nat): System
    requires id in s.sidecars
  {
    if s.owner != Sidecar(id, Active) then s
    else if s.sidecars[id].Spawned? && s.sidecars[id].process.stopped.Rejected? then
        s.(terminal := true, owner := Sidecar(id, Failed))
    else s.(owner := Nobody)
  }

  function OnOwnerStopped(s: System): System
    requires StopOver(s)
  {
    if StopFailed(s) then s.(terminal := true) else s.(owner := Nobody)
  }

  function Apply(s: System, e: Event): System
    requires Enabled(s, e)
  {
    match e
    case Start(choice, a) => OnStart(s, choice, a)
    case Stop(os) => OnStop(s, os)
    case OfAddon(call) => OnAddon(s, call)
    case OfSidecar(id, event, parse) =>
      s.(sidecars := s.sidecars[id := Spawned(S.Apply(s.sidecars[id].process, event, parse))])
    case AddonStartFailed => OnStop(s, S.Os(true, true))
    case SidecarStartFailed(id, os) => if s.owner == Sidecar(id, Active) then OnStop(s, os) else s
    case SidecarStopped(id) => OnSidecarStopped(s, id)
    case OwnerStopped => OnOwnerStopped(s)
  }

  predicate Feasible(s: System, run: seq<Event>)
    decreases |run|
  {
    run == [] || (Enabled(s, run[0]) && Feasible(Apply(s, run[0]), run[1..]))
  }

  function Exec(s: System, run: seq<Event>): System
    requires Feasible(s, run)
    decreases |run|
  {
    if run == [] then s else Exec(Apply(s, run[0]), run[1..])
  }
}
