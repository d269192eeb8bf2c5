# bare-arti lifecycle model

bare-arti runs one embedded Tor worker for many callers. Between a caller and the worker
stand several state machines: the Rust service controller with its supervisor, reaper and
worker threads, the C ABI and the Bare bridge, the JavaScript addon controller, the sidecar
process, the backend selection and the reference-counted ownership. This project models each
of them and proves what every run keeps, whatever the order of calls, callbacks, timers and
thread steps. Five data cores complete it: relay ports and their serialisation, the SOCKS
accept loop, the SOCKS5 request parser (RFC 1928), the prebuild provenance verifier and the
cargo argument wrapper.

`dafny verify dfyconfig.toml` checks everything.

## How the model is built

A protocol is a state (`State`, `Sys`, `World` or `System`), a predicate `Enabled` saying
which steps can happen, a function `Apply` for their effect, and `Feasible`/`Exec` for runs.
A state is `Reachable` when some run from the initial state ends in it; the main results are
about all reachable states, or about all runs that continue one. What the environment decides
(worker results, settlements of promises, spawn failures, answers of the operating system,
scheduling) comes with the step, so every outcome is covered.

Where the source updates fields in place, a class has methods with the source's own control
flow. Its `Valid()` is the module's invariant, and the method that runs one event to its end
(`Handle`, or the critical section itself) keeps it, equals the step of the protocol, and states
the promise the class is for:

| file | source | content |
|---|---|---|
| `service_core.dfy` | `src/service.rs` | critical sections as functions; `Controller`, `Monitor`, `Dispatcher` classes |
| `service_worker.dfy` | `src/service.rs` | the production worker |
| `service_protocol.dfy` | `src/service.rs` | callers, supervisors, gate, reapers, workers and dispatcher, interleaved |
| `service_parts.dfy`, `service_place.dfy`, `service_custody.dfy`, `service_outcome.dfy`, `service_signals.dfy`, `service_order.dfy`, `service_progress.dfy` | `src/service.rs` | the invariants: thread-local parts, where each generation stands, where each completion is, outcomes, cancel signals, queue order, progress |
| `service_delivery.dfy`, `sums.dfy` | `src/service.rs` | the bound on runs without new calls, and what is left when they end |
| `service_theorems.dfy` | `src/service.rs` | the results over all runs |
| `service_answers.dfy`, `service_endings.dfy`, `service_handovers.dfy`, `service_worker_runs.dfy` | `src/service.rs` | what calls are answered, how generations end and who is told, what the threads hand to each other, how a worker exits |
| `service_stale.dfy`, `service_ports.dfy`, `service_runs.dfy` | `src/service.rs` | stops that get ahead of starts without being held, the port a start is told, and the runs that break a promise |
| `bridge.dfy`, `bridge_safety.dfy`, `bridge_theorems.dfy`, `bridge_teardown.dfy`, `bridge_admission.dfy`, `bridge_answers.dfy`, `bridge_objects.dfy` | `binding.c` | realms and requests, invariants, results, progress and teardown as a whole, which calls are admitted, what results and teardown do, lock regions as methods |
| `abi_requests.dfy` | `addon/src/lib.rs` | the request record behind the ABI |
| `ownership.dfy`, `ownership_proofs.dfy`, `ownership_theorems.dfy`, `ownership_safety.dfy`, `ownership_answers.dfy`, `ownership_object.dfy` | `lib/ownership.js` | owners, leases and handles, with re-entrant backend calls |
| `addon_controller*.dfy`, `sidecar*.dfy`, `backend*.dfy` | `lib/addon-controller.js`, `lib/sidecar.js`, `lib/backend.js` | the two backends and their selection, composed |
| `optional.dfy`, `text.dfy` | shared | a value that may be absent; the first newline of a text |
| `relay_ports.dfy`, `accept_loop.dfy`, `socks5.dfy`, `provenance.dfy`, `cargo_wrapper.dfy` | see the table | data cores |

A module named `…Answers` says what each event does in every reachable state, in terms of what a
caller sees and not of the step's own definition; the runs that need a memory (how a generation
ended, which options it was given, which leases were issued, what a realm was told) carry it
beside the run.

In the service protocol a state is `excused` once the mutex was poisoned or a custom spawner
ran its task and then panicked.

Some promises are false of the code. Each is stated with the exact condition under which it
holds, and with a run that breaks it:

- The starts that a generation gathers are queued before its stops in every run, unless one of two
  steps is taken (`ServiceStale.StopGetsAheadExactly`, `StopsStayBehind`). A thread other than the
  generation's supervisor drains its held stops while that supervisor still has a gathered start in
  its list: only the recovery of a poisoned mutex and a spawner that fails after it ran its closure
  do so, the start had been told Running and the controller is Failed
  (`ServiceTheorems.OrderBreaksExactly`, `OvertakenStartsRan`; the run: `PoisonReordersDelivery`).
  Or a stop is called after the generation was retired, while some thread still has the start: it
  is stale, is queued at once, and the start has failed; that takes neither poisoning nor a panic
  (`ServiceStale.StalePassesExactly`, `PassedStartsFail`; the run: `ServiceRuns.StaleStopHappens`).
- A completion releases the ABI's record of its own generation only, unless a start that failed
  arrives after its stop, or after such a release of itself, while another generation is active
  and no stop of that one is pending (`AbiRequests.ForeignReleaseExactly`; the run:
  `RobberyHappens`, after which a generation runs that nobody can stop). A start is safe from
  it exactly if no earlier accepted start has yet to call back (`NoForeignRelease`,
  `StartIsSafeExactly`); lib/addon-controller.js does start then
  (`AddonControllerProofs.StartsOverlap`).
- Every request of the bridge is freed exactly once, unless a later start of its realm is installed
  over it while its callback is owed (`BridgeTheorems.LostExactly`, `BridgeTeardown.EveryRequestFreed`;
  the run: `LossHappens`). Such a request is never freed, its promise never settles, and its realm
  never finishes (`LostForever`); callers that wait for the result of an accepted start lose none
  (`PatientLosesNothing`).
- A Failed controller keeps every unjoined worker, unless a generation ended with its worker still
  in its slot while the mutex was poisoned, or while the state was no longer its own; finish_worker
  can then still use the empty quarantine of a Failed state (`ServiceTheorems.WorkerLostExactly`; the
  run: `ServiceRuns.PoisonLosesWorker`).
- Deferred realm teardown finishes, unless it begins after the native completion of a stop and
  before its delivery to JavaScript, or after the realm has lost a request (`BridgeTeardown.TeardownOutcome`, `MissedNeverFinishes`,
  `BridgeTheorems.MissedExactly`; the run: `MissHappens`).
- Every owner keeps its options snapshot and a backend that is not stopping, unless startBackend
  calls back, before it returns, with a request that fails to validate while nobody owns the
  backend, or takes its last owner away (`OwnershipSafety.SafetyLostExactly`, `OwnerMeansBackend`,
  `BreachOrphansOwner`; the runs: `ReentrantStartLosesSnapshot`, `ReentrantReleaseOrphansStart`).
  Leases are always safe.
- A quiet ABI record that was not robbed is free for a new start exactly when nothing runs, unless
  the controller has failed: a stop that it refuses leaves the record stranded when the only owed
  start failed during that stop call, and not otherwise
  (`AbiRequests.RefusedStopStrands`; the run: `StrandedHappens`), and a failed controller would
  refuse every later start anyway (`StrandedMeansFailed`, `ServiceTheorems.FailedRefuses`).
- The cargo wrapper passes its arguments on through a file of lines, which returns them exactly
  when none contains a newline (`CargoWrapper.FileKeepsArguments`, `Wrap`).

## Model

| member | source | states |
|---|---|---|
| `ServiceTheorems.StoppedMeansJoined` | src/service.rs:1260-1316 | in every reachable state, Stopped means that every worker ever spawned has ended and been joined; two workers are never unjoined at once |
| `ServiceTheorems.NewGenerationAfterJoin` | src/service.rs:804-824 | a start that opens a new generation finds every earlier worker joined |
| `ServiceTheorems.MissedJoinFails` | src/service.rs:1006-1048 | a supervisor that did not see the join before its deadline leaves the controller Failed when it finishes, even if the join lands in between |
| `ServiceTheorems.DeadlineFails` | src/service.rs:493-514 | once the wait for the join has ended by its deadline, the generation ends Failed in every continuation in which its supervisor does not panic |
| `ServiceTheorems.NoOrphanedWorker` | src/service.rs:941-949 | a live worker whose supervisor has retired its generation has been cancelled |
| `ServiceTheorems.NoWedgedWorker` | src/service.rs:193-283 | a worker blocked in its ready send waits only for a supervisor that is before the gate, and that supervisor goes on of itself, without a panic: it performs its list, and then takes the step that leaves this point |
| `ServiceTheorems.EveryWorkerEnds` | src/service.rs:961-1243 | under any schedule, without a new call, every run is boundedly long, and at its end every worker ever spawned has ended, with its service shut down exactly once unless it panicked, and its reaper has joined it; except the uncancelled worker of the generation that is Running, waiting in one of its two selects |
| `ServiceTheorems.RestIsReached` | src/service.rs:961-1243 | from every reachable state such an end is reached by letting any thread do what is due, without panics, poisoning or new calls |
| `ServiceTheorems.ShutDownExactlyOnce` | src/service.rs:193-283 | past a successful bind a worker that ends without a panic has shut its SOCKS service down exactly once, and before one never |
| `ServiceWorker.WorkerKeepsOk` | src/service.rs:193-283 | every step of the worker keeps the account of its bind, its service and its shutdown |
| `ServiceWorker.WorkerDescends` | src/service.rs:193-283 | every step of the worker brings it nearer to its end |
| `ServiceWorker.CancelledWorkerMoves` | src/service.rs:193-283 | a cancelled worker waits for nobody except a gate whose slot is full |
| `ServiceTheorems.Conservation` | src/service.rs:775-958 | each accepted completion is in exactly one place: held in the state, in the hand of one thread, or queued once; a refused one is nowhere; Stopped and Failed hold none; also across poisoning and supervisor panics |
| `ServiceTheorems.EveryRunDelivers` | src/service.rs:961-1243 | under any schedule, without a new call all threads together take boundedly many steps, panics and poisoning included, and when none has anything left to do every completion ever accepted has been queued |
| `ServiceTheorems.NoGenerationStuck` | src/service.rs:961-1243 | from every reachable state such an end is reached by letting any thread go on |
| `ServiceDelivery.MeasureDescends` | src/service.rs:193-1243 | every step of every thread except a new call lowers the bound |
| `ServiceTheorems.EveryExitRetires` | src/service.rs:961-1076 | a supervisor that has ended no longer owns the controller's state |
| `ServiceTheorems.FinishNeverStarting` | src/service.rs:1311-1314 | finish_worker never meets its own generation still Starting |
| `ServiceProgress.SupervisorDescends` | src/service.rs:961-1243 | every step of a supervisor lowers its rank, and no step of another thread raises it |
| `ServiceTheorems.CommonOutcome` | src/service.rs:1170-1194 | all start completions of one generation get one event: Running with one non-zero port, or one failure |
| `ServiceTheorems.StopBeatsStart` | src/service.rs:882-904 | once a stop of the current generation is accepted while Starting, no start of it ever hears Running, in any continuation |
| `ServiceTheorems.OrderBreaksExactly` | src/service.rs:1318-1323 | one step breaks the order of a generation if and only if it drains the generation's stops while its supervisor still has a gathered start; only a recoverer or a caller that could not spawn does |
| `ServiceTheorems.StartsBeforeStops` | src/service.rs:1318-1323 | in every run without such a step, excused or not, the starts gathered for a generation are queued before every stop held for it |
| `ServiceTheorems.OvertakenReorders` | src/service.rs:1376-1457 | after such a step the threads need only go on with their lists to queue a stop before a start |
| `ServiceTheorems.RetiredStaysInOrder` | src/service.rs:1318-1323 | a generation retired in order, or before the first excuse, stays in order in every continuation |
| `ServiceTheorems.UnexcusedOrder` | src/service.rs:1318-1323 | without poisoning and with a spawner that keeps its contract every generation is delivered in order |
| `ServiceTheorems.OvertakenStartsRan` | src/service.rs:1376-1457 | a start that its stop overtakes had been told Running, and the controller is Failed |
| `ServiceRuns.PoisonReordersDelivery` | src/service.rs:1376-1457 | with the production gate, a reachable state in which a held stop was queued before a gathered start of its generation |
| `ServiceStale.StopGetsAheadExactly` | src/service.rs:1255-1323 | one step lets a stop of a generation, held or stale, get ahead of a start it gathered if and only if it is such a drain, or the call of a stale stop while some thread still has the start to queue |
| `ServiceStale.StalePassesExactly` | src/service.rs:938-958 | for stale stops alone: the step is exactly the accepted call of a stop of a retired generation while one of its gathered starts is in some thread's hand |
| `ServiceStale.StopsStayBehind` | src/service.rs:1255-1323 | in every run without such a step all stops of a generation, held or stale, are queued after the starts it gathered |
| `ServiceStale.PassedReorders` | src/service.rs:938-958 | after a stale stop has got ahead the threads need only go on with their lists to queue it before the start |
| `ServiceStale.PassedStartsFail` | src/service.rs:1255-1323 | a start that a stale stop passes carries a failure, and the controller is neither poisoned nor Failed |
| `ServiceStale.StoppedNeverRestarts` | src/service.rs:775-863 | once a stop of a generation has been accepted every start of it is refused |
| `ServiceRuns.StaleStopHappens` | src/service.rs:938-958 | a reachable state, neither poisoned nor Failed nor after any panic, in which a stale stop was queued before its failed start and the next generation is Starting |
| `ServicePorts.RunningPortIsBound` | src/service.rs:423-435 | with the production gate a Running state, and every completion ever told Running, names the one port that the worker of its generation bound |
| `ServiceTheorems.GenerationsGrow` | src/service.rs:804-823 | the last generation grows with each fresh start and only then, and is the generation of any Starting, Running or Stopping state |
| `ServiceTheorems.StaleAndFutureStops` | src/service.rs:873-938 | a stop for an older generation is accepted, answered Stopped and changes nothing; a stop for a newer one is refused |
| `ServiceTheorems.StopRefusedExactly` | src/service.rs:865-938 | a stop is refused if and only if the controller is poisoned or Failed or the generation has not begun, with the code of that reason; refusing one that has begun leaves it Failed |
| `ServiceAnswers.StartRefusedExactly` | src/service.rs:775-800 | a start is refused if and only if the controller is poisoned, Failed or Stopping, or its options differ in any part from those of the generation that is Starting or Running, or its generation cannot begin; each with its own code, and a refusal changes nothing else unless it finds the mutex poisoned |
| `ServiceAnswers.StartAnswers` | src/service.rs:775-863 | an accepted start of a Running service is told its port, of a Starting one waits with the others, and of a Stopped controller begins a new generation with its own options |
| `ServiceAnswers.OptionsHonoured` | src/service.rs:789-820 | in every run each accepted start has exactly the options of its generation |
| `ServiceAnswers.ServedAsAsked` | src/service.rs:789-830 | in every run a start whose completion was queued, whatever it hears, was given to a generation with exactly the options it asked for |
| `ServiceAnswers.StopAnswers` | src/service.rs:865-958 | an accepted stop of an older generation is told Stopped at once; the first of the current one makes it Stopping, to be cancelled, asked to stop and, from Starting, woken; a later one waits with it |
| `ServiceAnswers.WakeReachesGate` | src/service.rs:946-948 | a wake puts a cancellation into an empty slot that the gate still reads, and does nothing else |
| `ServiceAnswers.DecideAnswers` | src/service.rs:1077-1243 | a generation that is still Starting becomes Running with the reported non-zero port and takes all its starts, or Stopping for the reason that belongs to the report; unless it runs its worker is cancelled |
| `ServiceEndings.FinishEnds` | src/service.rs:1255-1323 | at its end a generation leaves the controller Failed if and only if nobody was stopping it, its stop was for a shutdown failure, it had been told Running and its worker ended with a fault, or that end is a shutdown failure; otherwise Stopped |
| `ServiceEndings.CreationFailureEnds` | src/service.rs:1478-1527 | a generation whose worker or reaper could not be created leaves the controller Stopped, or Failed with that error and the worker quarantined if it was terminal |
| `ServiceEndings.SpawnFailureEnds` | src/service.rs:826-858 | a supervisor that could not be spawned leaves the controller Failed with the spawner's error |
| `ServiceEndings.StartsHearWhy` | src/service.rs:1255-1527 | the starts an ending takes out of the state hear the error of Failed, or, when the controller is Stopped, the reason of the stop or the creation error |
| `ServiceEndings.EverybodyHearsTheEnding` | src/service.rs:1255-1527 | over every run, with the ending of each generation recorded as it happens: each held stop in the queue hears Stopped exactly if its generation ended in Stopped and the error of Failed otherwise, and each gathered start in the queue hears Running, the error of Failed, or the failure of a generation that ended |
| `ServiceWorkerRuns.ExitTellsTheStory` | src/service.rs:193-283 | over every run of a worker that does not panic: it exits with what went wrong first and has told the gate exactly that, or told it its port and exits with what its shutdown yields, and with a fault if the service ended by itself; it exits clean if and only if it served, was told to stop and shut down without a fault |
| `ServiceHandovers.TruthIsTold` | src/service.rs:1006-1031 | in every reachable state what the reaper carries, the monitor stores and the supervisor finishes with is the worker's own exit, or the deadline; and a fault in the ready channel is a cancellation, the worker's own report, or its end |
| `ServiceHandovers.ReaperTellsGate` | src/service.rs:1023-1031 | the end of a worker wakes a gate that still waits, with the worker's own error |
| `ServiceHandovers.SupervisorSpawned` | src/service.rs:826-858 | what each outcome of the spawner leaves: a supervisor that runs exactly if its closure ran, and a caller that gives up with the spawner's error or Shutdown |
| `ServiceHandovers.GivesUp` | src/service.rs:1459-1476 | a caller that gives up cancels, stops and wakes a generation that is still Starting, and nothing else |
| `ServiceHandovers.CreationAnswers` | src/service.rs:974-1048 | a factory that fails leaves no worker and a failure that is not terminal, a reaper that cannot be spawned a cancelled worker and one that is |
| `ServiceHandovers.PanicAnswers` | src/service.rs:1059-1062 | a panic of the supervisor is caught: the worker is cancelled and the monitor asked to stop |
| `ServiceHandovers.TransitionAnswers` | src/service.rs:1529-1560 | then a Starting or Running generation is Stopping for the reason Shutdown, with its starts; one that was being stopped stays so |
| `ServiceHandovers.PanicIsFinal` | src/service.rs:1059-1075 | after a panic in a supervisor whose generation is Starting or Running, in every continuation the controller is Stopping it for a shutdown failure or has Failed, and never Stopped again |
| `ServiceHandovers.RecoveryAnswers` | src/service.rs:1376-1457 | whoever finds the mutex poisoned leaves the controller Failed, keeps an earlier failure, cancels and stops the generation that had the state, wakes its gate if it was Starting, and tells everybody held, starts first |
| `ServiceTheorems.FailedRefuses` | src/service.rs:775-800 | a poisoned or Failed controller refuses every call and is Failed afterwards |
| `ServiceTheorems.FailedForever` | src/service.rs:1304-1310 | Failed is absorbing, keeps its error and never drops a quarantined worker owner |
| `ServiceTheorems.WorkerLostExactly` | src/service.rs:1250-1316 | a step loses an unjoined worker if and only if it ends its generation with the worker still in its slot while the mutex is poisoned, or while the state is no longer the generation's; finish_worker can then still use the empty quarantine of a Failed state |
| `ServiceTheorems.FailedAccountsForWorkers` | src/service.rs:1029-1048 | in every Failed state an unjoined worker that was not lost is in quarantine, with its reaper, or with a supervisor that has not ended |
| `ServiceTheorems.FailedKeepsWorkers` | src/service.rs:1029-1048 | without poisoning and with a spawner that keeps its contract, Failed keeps every unjoined worker in quarantine or with its reaper |
| `ServiceRuns.PoisonLosesWorker` | src/service.rs:1376-1457 | a reachable state in which poisoning has lost the quarantine of an unjoined worker |
| `ServicePlace.PlaceKept` | src/service.rs:775-1243 | every step keeps the relation between the state, each generation's worker handle, its supervisor and its starter |
| `ServiceCustody.CustodyKept` | src/service.rs:1250-1324 | every step keeps the custody of completions |
| `ServiceOrder.OrderKept` | src/service.rs:1318-1323 | every step, excused or not, keeps who can hold what: stops only of retired generations, and the current generation's starts only with its supervisor |
| `ServiceTheorems.ReachableSound` | src/service.rs:775-1324 | every reachable state meets what the methods of `Controller` require and keep |
| `ServiceCore.Controller.Start` | src/service.rs:775-863 | keeps the state sound; the completion enters the state exactly when it is gathered or opens a generation, and the last generation grows exactly with the latter; while Starting or Running it is refused with a conflict exactly if its options differ |
| `ServiceCore.Controller.Stop` | src/service.rs:865-958 | keeps the state sound; the completion enters the state exactly when the generation owns it |
| `ServiceCore.Controller.MarkRunning` | src/service.rs:1170-1194 | either all gathered starts leave the state for the caller to queue, or nothing changes |
| `ServiceCore.Controller.StopAfterStartup` | src/service.rs:1196-1243 | a failed startup becomes Stopping and keeps every completion it holds |
| `ServiceCore.Controller.TransitionToStopping` | src/service.rs:1529-1560 | Starting or Running of this generation becomes Stopping and keeps every completion it holds |
| `ServiceCore.Controller.FinishWorker` | src/service.rs:1250-1324 | either nothing is taken out of the state, or every held completion is queued, starts before stops; the stops of a generation that was being stopped hear Stopped exactly if the controller is Stopped, and its starts the error of Failed or the reason of the stop |
| `ServiceCore.Controller.FinishCreationFailure` | src/service.rs:1478-1527 | the same for a generation that never had a supervised worker, whose starts hear the creation error |
| `ServiceCore.Monitor.WaitRunning` | src/service.rs:477-491 | one turn of the wait: a worker's end is taken before a stop request |
| `ServiceCore.Monitor.WaitStopping` | src/service.rs:493-514 | the join result, or the shutdown error once the deadline passed |
| `ServiceCore.Monitor.AskToStop` | src/service.rs:465-469 | a supervisor that waits while running leaves its wait at its next turn, and a worker's end that is already there is still what either wait learns |
| `ServiceCore.Monitor.WorkerExited` | src/service.rs:471-475 | whichever wait comes next learns this end, before any stop request and before or after its deadline, and it is taken once |
| `ServiceCore.Dispatcher.QueueAll` | src/service.rs:1318-1323 | a list of completions is queued in order with one event |
| `BridgeTheorems.ReferencesAreOutstandingWork` | binding.c:163-200 | a request's reference count is its outstanding or leaked native callback plus its outstanding finalizer, and it is freed exactly once, when both are gone |
| `BridgeTheorems.PendingCountsLiveRequests` | binding.c:163-184 | a realm's pending count is the number of its requests not yet freed |
| `BridgeTheorems.ReleasedOnce` | binding.c:276-403 | the thread-safe function is released at most once, by the abort or by the native completion, and always before the request is freed |
| `BridgeTheorems.NoUseAfterFree` | binding.c:163-448 | no step of either thread touches a freed request or realm |
| `BridgeTheorems.NoDuplicateResult` | binding.c:276-331 | the native callback finds its request active exactly when the request is not lost, which a stop never is, and always not completed |
| `BridgeTheorems.LostExactly` | binding.c:511-548 | one step loses a request if and only if it installs a start over it while its native callback is owed |
| `BridgeTheorems.LostForever` | binding.c:276-295 | a lost request is never freed, its promise never settles, and its realm keeps it pending and never finishes, in any continuation |
| `BridgeTheorems.PatientLosesNothing` | binding.c:511-548 | in every run whose callers do not start while an accepted start's result is owed no request is lost |
| `BridgeTheorems.LossHappens` | binding.c:276-295 | a reachable state, without teardown, in which a request has been lost and leaked |
| `BridgeTheorems.AbortedNeverSettles` | binding.c:219-273 | an aborted request's promise is never settled in any later run |
| `BridgeTheorems.SettledOnce` | binding.c:219-273 | every promise settles at most once, and only after a native completion that delivered it |
| `BridgeAdmission.AdmitsExactly` | binding.c:515-606 | told only from the calls a realm has made and the results delivered to it: before teardown an idle realm admits a start if and only if nothing it started is up, so again after a failed or refused start and after a stop, and the stop of exactly the generation that is up and not yet being stopped |
| `BridgeAdmission.DeliveryAnswers` | binding.c:219-273 | a delivery takes its request out of the realm and settles its promise once unless it was aborted; a failed start without a stop, and any stop, leave nothing started, and a successful start leaves its generation |
| `BridgeAnswers.ResultAnswers` | binding.c:276-331 | a native result is recorded as it came, queued and its function released unless the request was aborted, and ends a realm in teardown if it is a stop; for a lost request only the callback is over |
| `BridgeAnswers.DeliversWhatCame` | binding.c:276-331 | in every continuation the outcome of a request is the one its native callback brought |
| `BridgeTheorems.OneOwner` | binding.c:636-659 | at most one realm has not finished its teardown, and it owns the library |
| `BridgeTheorems.FinishedOnce` | binding.c:126-146 | teardown finishes at most once, only when exiting, terminal and nothing is pending, and ownership is dropped in the same critical section |
| `BridgeTheorems.MissedExactly` | binding.c:421-448 | teardown misses its terminal event exactly when it begins between the native completion of a stop and its delivery |
| `BridgeAnswers.TeardownAborts` | binding.c:421-437 | in every continuation teardown has aborted both requests that it found installed before it goes on, and decides about its own native stop by the generation and the stop that it found |
| `BridgeAnswers.StopForTeardownAnswers` | binding.c:439-446 | teardown stops the service itself exactly if a generation was up and no stop under way |
| `BridgeAnswers.TeardownStopEnds` | binding.c:405-446 | that stop leaves a realm that is over, and either end of it is followed by a check whether the realm can finish |
| `BridgeAnswers.FinishAnswers` | binding.c:126-146 | a realm gives its teardown handle and the ownership back exactly when it is exiting, over and without pending requests |
| `BridgeAnswers.FreeAnswers` | binding.c:163-195 | whoever drops the last reference frees the request once: the realm forgets it, counts one less, and is asked to look whether it can finish |
| `BridgeTeardown.TeardownOutcome` | binding.c:421-448 | from its first step on a realm's teardown takes boundedly many steps in any run, whatever other realms do, and when none is left it has finished if and only if it did not begin between the native completion of the realm's stop and its delivery, nor after a request of the realm was lost |
| `BridgeTeardown.RankDrops` | binding.c:126-448 | every step of a realm but a new call, teardown included, and every step of the native thread on its requests lowers one number |
| `BridgeTeardown.EveryRequestFreed` | binding.c:163-448 | in any run without a new call, torn down or not, a realm and the native thread on its requests take boundedly many steps, whatever other realms do, and when none is left a request of the realm has been freed exactly once if and only if it is not lost, and then its function was released exactly once and its promise settled exactly once unless it was aborted |
| `BridgeTeardown.PatientFreesAll` | binding.c:163-448 | with patient callers a realm that has no step left has freed every request |
| `BridgeTheorems.TeardownFinishesUnlessMissed` | binding.c:302-304 | a realm in teardown with no step left has finished if and only if it did not miss that event and lost no request |
| `BridgeTeardown.MissedNeverFinishes` | binding.c:421-448 | a realm that missed it never finishes and keeps the ownership, in any run |
| `BridgeTheorems.MissHappens` | binding.c:421-448 | such a realm is reachable |
| `BridgeTheorems.RestFreesRequests` | binding.c:163-331 | a realm that has no begun step left, nor the native thread on its requests, is idle, each of its requests is freed exactly once or lost and leaked, and nothing is pending if and only if none is lost |
| `BridgeSafety.InvKept` | binding.c:126-448 | every step keeps counts, pointers, program counters and teardown progress together |
| `BridgeSafety.CallbackFindsRequest` | binding.c:280-295 | an outstanding stop's request is installed in the owning realm, and an outstanding start's is exactly when no later start was installed over it |
| `BridgeObjects.RealmObject.ReleaseLast` | binding.c:168-183 | the realm forgets the request, counts one less, and is asked to finish if it is exiting and the native side dropped it |
| `BridgeObjects.RealmObject.OnJsResult` | binding.c:219-273 | a delivery settles the promise once, unless aborted, both records stay consistent, and a failed start without a stop, or any stop, frees the realm |
| `BridgeObjects.RealmObject.EnterTeardown` | binding.c:421-434 | equals the protocol's first teardown step, and hands over exactly the requests and the generation that the step plans to abort and stop |
| `BridgeObjects.RequestObject.AbortOnce` | binding.c:380-392 | after an abort the function has been released once, by whichever of abort and completion came first |
| `BridgeObjects.RequestObject.Reject` | binding.c:395-403 | a request whose native call was refused keeps one reference, for its finalizer, and its promise is never settled by it |
| `BridgeObjects.RequestObject.Report` | binding.c:296-327 | the native callback of a known request completes it, releases its function at most once in all, and queues a delivery unless it was aborted |
| `BridgeObjects.Library.FinishIfReady` | binding.c:126-146 | teardown completes at most once, and the library is given back in the same region, exactly then |
| `BridgeObjects.Library.OnNativeResult` | binding.c:276-331 | equals the protocol's native result, and keeps the books of a request that the owner points at |
| `AbiRequests.OwedIsActive` | addon/src/lib.rs:192-298 | at most one stop callback is owed, to the active generation; a start callback is owed to the active generation, or to one that lost the record to its stop or to a start of another generation |
| `AbiRequests.ForeignReleaseExactly` | addon/src/lib.rs:232-286 | a stop releases its own generation; a start releases another one if and only if it failed, that one is active with no stop pending, and its own generation had lost the record before, to its stop or to such a release |
| `AbiRequests.NoForeignRelease` | addon/src/lib.rs:232-286 | if no start is entered while an accepted one has yet to call back, a completion releases its own generation or none, in whatever order completions arrive, and at most one start is owed |
| `AbiRequests.StartIsSafeExactly` | addon/src/lib.rs:220-238 | a start admitted into the free record keeps it in every continuation up to the next start, but for its own failure or stop, if and only if no start of another generation is owed |
| `AbiRequests.RobberyHappens` | addon/src/lib.rs:232-238 | a reachable quiet record of a working controller that is free while generation 2 runs, so that it cannot be stopped and another start is admitted |
| `AbiRequests.FreeExactlyWhenQuiet` | addon/src/lib.rs:192-298 | with such a caller and a working controller a quiet record admits a start if and only if nothing runs, and what runs can be stopped |
| `AbiRequests.FreeWhenQuiet` | addon/src/lib.rs:192-298 | with any caller, while the controller has not failed, a quiet record holds a running generation, which can be stopped, or is free; a generation that runs without the record has been robbed of it, and if none was a start is admitted exactly when nothing runs |
| `AbiRequests.RefusedStopStrands` | addon/src/lib.rs:261-298 | a refused stop leaves the record stranded only if a start of its generation failed while the stop call was executing, or it found it stranded; and it does if that start was the only one owed |
| `AbiRequests.StrandedMeansFailed` | addon/src/lib.rs:192-298 | a stranded record means a failed controller: no call is accepted in any continuation, and if nothing is owed the record stays as it is |
| `AbiRequests.StrandedHappens` | addon/src/lib.rs:261-298 | a reachable stranded record |
| `AbiRequests.Requests.TryStart` | addon/src/lib.rs:220-230 | a start is admitted only into a free record, and otherwise changes nothing |
| `AbiRequests.Requests.TryStop` | addon/src/lib.rs:269-277 | a stop is admitted exactly when its generation is active and no stop callback is owed |
| `AbiRequests.Requests.StartRejected` | addon/src/lib.rs:249-255 | a refused start always frees the record again |
| `AbiRequests.Requests.StopRejected` | addon/src/lib.rs:288-296 | a refused stop takes back its own reservation and leaves the active generation |
| `AbiRequests.Requests.OnStart` | addon/src/lib.rs:232-238 | for any owed start, in any order: the record changes only if the start failed and no stop is pending, and only a generation that had lost its own record takes another's |
| `AbiRequests.Requests.OnStop` | addon/src/lib.rs:279-286 | the stop completion always finds its own generation and frees the record |
| `OwnershipTheorems.StopOnlyWithoutOwners` | lib/ownership.js:106-140 | stopBackend is called only with zero owners and never overlaps itself, also with re-entrant calls |
| `OwnershipTheorems.StartNeverWhileStopping` | lib/ownership.js:67-81 | startBackend is never called while a stop is in progress, after a failed one, or inside itself |
| `OwnershipTheorems.LeaseMeansBackend` | lib/ownership.js:142-196 | a live lease means a recorded backend that is not being stopped |
| `OwnershipAnswers.LiveLeasesExactly` | lib/ownership.js:142-196 | in every run the live leases are exactly those issued by valid resolutions of acquisitions and not released since |
| `OwnershipAnswers.AcquisitionAnswers` | lib/ownership.js:181-196 | an acquisition that gets a valid service gets one new lease and stays one owner; any other settlement gives none and is one owner less |
| `OwnershipAnswers.LegacyAnswers` | lib/ownership.js:213-256 | a valid service keeps the legacy owner as it is; without one the attempt is over, if it is still current, and no other owner changes |
| `OwnershipAnswers.FailedStartIsForgotten` | lib/ownership.js:83-97 | when the backend's start fails and nobody is left its operation and snapshot are forgotten without a stop |
| `OwnershipAnswers.StopSettledAnswers` | lib/ownership.js:120-140 | a stop that succeeds forgets the generation and lets requests in again, one that fails is final |
| `OwnershipAnswers.AcquireAnswers` | lib/ownership.js:142-166 | an acquire is turned away by a failed stop, invalid options or a stop in progress, and otherwise counts from then on and enters the backend unless a start is being entered |
| `OwnershipAnswers.StartAnswers` | lib/ownership.js:198-231 | the same for start, which leaves the leases alone |
| `OwnershipAnswers.ReturnAnswers` | lib/ownership.js:67-81 | when startBackend returns, the first operation of the generation is recorded, and only the first start becomes the legacy owner |
| `OwnershipAnswers.ReleaseAnswers` | lib/ownership.js:168-180 | releasing a live lease takes exactly that one away; releasing any other does nothing |
| `OwnershipAnswers.LegacyStopAnswers` | lib/ownership.js:259-279 | stopping the current legacy service takes exactly that owner away; stopping another changes no owner |
| `OwnershipTheorems.NoOwnersNoBackend` | lib/ownership.js:83-97 | without owners and without a stop in progress no backend is recorded |
| `OwnershipTheorems.LastOwnerStops` | lib/ownership.js:90-140 | when the last owner leaves, stopBackend is called in the same event, if and only if a backend is recorded, no stop is in progress and what happened was not the rejection of the operation that started this backend, however many calls share that operation |
| `OwnershipTheorems.AcquireStarts` | lib/ownership.js:67-81 | startBackend is entered by a valid acquire or start that finds no stop in progress or failed and no start being entered, and by no other event |
| `OwnershipTheorems.TerminalStays` | lib/ownership.js:134-137 | after a failed stop the backend is never called again |
| `OwnershipTheorems.StaleLeaseIsInert` | lib/ownership.js:168-180 | once a lease is gone, releasing it changes nothing in any continuation, over any number of restarts |
| `OwnershipTheorems.StaleServiceIsInert` | lib/ownership.js:266-279 | once a legacy service is outdated, its stop changes no owner and stops nothing in any continuation |
| `OwnershipTheorems.GoneLeaseStaysGone` | lib/ownership.js:168-185 | a released lease never comes back, over any number of restarts |
| `OwnershipTheorems.GoneAttemptStaysGone` | lib/ownership.js:214-256 | an outdated legacy attempt never becomes current again |
| `OwnershipSafety.SafetyLostExactly` | lib/ownership.js:67-279 | an owner or a start being entered loses its snapshot or gets a stopping backend if and only if startBackend calls back with a request that fails to validate while nobody owns the backend, or takes the last owner of a recorded one away |
| `OwnershipSafety.OwnerMeansBackend` | lib/ownership.js:142-256 | the runs in which every owner always has a snapshot and a backend that is not stopping are exactly the runs without such a call; there every owner past its entry also has a recorded backend |
| `OwnershipSafety.CalmRunsAreSafe` | lib/ownership.js:67-81 | a backend that never calls back causes no such call |
| `OwnershipSafety.BreachOrphansOwner` | lib/ownership.js:214-256 | after such a call startBackend need only return, and an owner is left without a snapshot or with a stopping backend |
| `OwnershipSafety.SnapshotFixed` | lib/ownership.js:53-56 | from a safe state the options snapshot stays the same while any owner remains, re-entrant calls or not |
| `OwnershipSafety.ReentrantStartLosesSnapshot` | lib/ownership.js:198-206 | a run with a re-entrant call that clears the snapshot of an owner |
| `OwnershipSafety.ReentrantReleaseOrphansStart` | lib/ownership.js:198-256 | a run with a re-entrant call that leaves a legacy owner with a stopping backend |
| `OwnershipProofs.InvKept` | lib/ownership.js:49-279 | every call, settlement and return of the backend keeps the ownership invariant |
| `OwnershipObject.Owner.Handle` | lib/ownership.js:36-284 | every callback keeps the ownership invariant, equals its event, enters stopBackend only with no owner left and no other stop under way, leaves live leases a backend, and gives every valid resolution of an acquire a lease of its own |
| `AddonControllerProofs.StartsCountUp` | lib/addon-controller.js:187-225 | native starts strictly increase, and each follows the settled stop or refused start of its predecessor |
| `AddonControllerProofs.StopsOnce` | lib/addon-controller.js:151-185 | native stop is called at most once per generation, and only for the current one |
| `AddonControllerProofs.StartsOverlap` | lib/addon-controller.js:126-225 | a reachable state in which the second native start has been called while the first has not settled |
| `AddonControllerProofs.StopIsCurrent` | lib/addon-controller.js:126-149 | finishStop's mismatch branch is never taken, and a rejected stop always fails the controller |
| `AddonControllerProofs.StartupSettlesOnce` | lib/addon-controller.js:220-300 | each startup promise is settled at most once, and is open exactly while its startup or the stop interrupting it lasts |
| `AddonControllerProofs.FulfilledByNativeStart` | lib/addon-controller.js:230-259 | a startup promise is fulfilled only by its own native start, with the valid port that brought |
| `AddonControllerAnswers.StartAnswers` | lib/addon-controller.js:216-300 | a valid start of a stopped controller calls the native start once with the next generation and opens its promise; if no timer can be armed it is stopped at once, and any other start calls nothing |
| `AddonControllerAnswers.StartRepliesExactly` | lib/addon-controller.js:187-218 | in every run a valid start gets the promise of a generation if and only if the controller is stopped, or starts or runs with exactly the configuration that generation was started with; otherwise it is told why |
| `AddonControllerAnswers.ResolvedAnswers` | lib/addon-controller.js:230-259 | a native start of the generation that is starting makes it run, fulfils its promise with the port and calls no native stop, if and only if the port is from 1 to 65535; otherwise it is stopped for Bootstrap; a late one changes nothing |
| `AddonControllerAnswers.RejectedAnswers` | lib/addon-controller.js:260-286 | a native start that fails rejects the promise with its documented code, or Bootstrap for any other, and leaves the controller stopped, or failed exactly for a shutdown error |
| `AddonControllerAnswers.StopAnswers` | lib/addon-controller.js:151-185 | a stop of the generation that starts or runs calls the native stop exactly once; any other changes nothing |
| `AddonControllerAnswers.TimerAnswers` | lib/addon-controller.js:290-294 | a startup timer stops its own generation while it starts, for a timeout, and otherwise nothing |
| `AddonControllerAnswers.SettledAnswers` | lib/addon-controller.js:126-149 | when the native stop settles the controller is stopped, or failed if it was rejected, and an interrupted startup is rejected accordingly |
| `AddonControllerProofs.InterruptedStartup` | lib/addon-controller.js:126-173 | an interrupted startup is rejected when the native stop settles, with its first reason or a shutdown error |
| `AddonControllerProofs.FailedForever` | lib/addon-controller.js:122-149 | after a failed shutdown the binding is never called again and no promise changes |
| `AddonControllerProofs.InvKept` | lib/addon-controller.js:126-300 | every call, settlement and timer firing keeps the controller's invariant |
| `AddonControllerObject.Controller.Handle` | lib/addon-controller.js:103-300 | every callback keeps the controller's invariant, equals its step, never settles a promise again, opens one only for the next generation, calls nothing after a failed shutdown, and lets a native start run without a native stop exactly if it brought a port |
| `SidecarProofs.StartSettlesWithStartup` | lib/sidecar.js:175-239 | the start promise is open while starting, fulfilled with a valid port while running, and settled in every final state |
| `SidecarProofs.StoppedMeansExited` | lib/sidecar.js:257-346 | stop and stopped resolve only after a confirmed exit, and reject exactly when the shutdown failed |
| `SidecarProofs.SettledForever` | lib/sidecar.js:169-399 | no handler ever attempts to change a settled promise, and stopped and failed are final |
| `SidecarProofs.TwoKillsTwoWatchdogs` | lib/sidecar.js:296-386 | at most two kills and two watchdogs |
| `SidecarProofs.StoppingProgresses` | lib/sidecar.js:257-386 | a stop in progress always has its exit callback or a watchdog due, and either lowers a rank |
| `SidecarProofs.RankNeverGrows` | lib/sidecar.js:175-399 | no event moves a shutdown back |
| `SidecarProofs.EveryShutdownEnds` | lib/sidecar.js:257-399 | from the stop on at most four exit and watchdog callbacks run, in any run, and when none is due the sidecar has Stopped with its exit confirmed, or Failed, and stop and stopped have settled |
| `SidecarProofs.ChunkingIsIrrelevant` | lib/sidecar.js:218-239 | delivering output in any chunks leaves the same state as delivering it at once |
| `SidecarProofs.PortIsFirstLine` | lib/sidecar.js:218-239 | startup succeeds exactly when the first line of the output is a valid port, and start resolves with it |
| `SidecarAnswers.ShutdownBegins` | lib/sidecar.js:296-354 | the first request of a shutdown is over at once if the exit is confirmed; otherwise the process is killed once and its exit awaited under a watchdog, and if kill, observation or timer are refused the shutdown has failed |
| `SidecarAnswers.LaterRequests` | lib/sidecar.js:296-300 | every later request changes nothing |
| `SidecarAnswers.DataAnswers` | lib/sidecar.js:218-239 | output without a whole line is kept, and a first line that is a port resolves start with it |
| `SidecarAnswers.ExitAnswers` | lib/sidecar.js:175-194 | an exit nobody asked for ends the sidecar at once, one that was asked for is confirmed and unwatched |
| `SidecarAnswers.ExitHandledAnswers` | lib/sidecar.js:257-271 | the end of a shutdown resolves stop and stopped and rejects an interrupted start with its cause, or fails if something else went wrong |
| `SidecarAnswers.WatchdogAnswers` | lib/sidecar.js:356-386 | the first watchdog kills once more and watches again, and everything after it fails the shutdown |
| `SidecarAnswers.ChildErrorAnswers` | lib/sidecar.js:200-294 | an error before the spawn kills nothing and awaits the exit; one during a shutdown makes it fail in the end |
| `SidecarAnswers.SpawnIsRemembered` | lib/sidecar.js:196-198 | the process counts as spawned exactly from its spawn event on |
| `SidecarAnswers.CreateAnswers` | lib/sidecar.js:79-152 | a sidecar is handed out starting under its timer, or already in the shutdown of a process that cannot be observed or timed |
| `SidecarProofs.InvKept` | lib/sidecar.js:154-399 | every event keeps promises, exit and watchdogs consistent |
| `SidecarObject.Process.Handle` | lib/sidecar.js:154-399 | every event keeps the sidecar's invariant, equals its step, and changes neither a settled promise nor a final status |
| `SidecarObject.FirstNewline` | lib/sidecar.js:219-221 | the search for the end of the first line |
| `BackendProofs.OneBackend` | lib/backend.js:105-234 | at most one of the addon and the sidecar processes is not stopped for sure, and it is the owner |
| `BackendProofs.BeginsAfterEnd` | lib/backend.js:236-262 | a backend starts only when nothing is owned, the addon is stopped and the exit of every earlier process was confirmed |
| `BackendProofs.BeginsExactly` | lib/backend.js:236-262 | a start begins a backend if and only if nothing is owned, no shutdown has failed and its choice is available on the platform |
| `BackendProofs.FailureIsFinal` | lib/backend.js:264-288 | once any shutdown has failed no start begins a backend again |
| `BackendProofs.MobileHasNoSidecar` | lib/backend.js:244-254 | on mobile no sidecar is ever started |
| `BackendAnswers.StartAnswers` | lib/backend.js:105-262 | a start that finds nothing owned owns the backend it asked for, with a new generation of the addon or a new process, and every other start changes nothing |
| `BackendAnswers.StopAnswers` | lib/backend.js:264-288 | a stop makes an active owner stopping and stops exactly its component: the addon's generation natively once, the sidecar's process by one more kill unless it was already asked; it does nothing to anybody else |
| `BackendAnswers.OwnerStoppedAnswers` | lib/backend.js:275-294 | the settled stop frees the backend, or leaves it taken for good if the shutdown failed |
| `BackendAnswers.FailedStartAnswers` | lib/backend.js:158-232 | a failed start of the active owner stops it, and the failure of an older start changes nothing |
| `BackendAnswers.SidecarStoppedAnswers` | lib/backend.js:217-227 | the end of a process that nobody stopped frees the backend, or fails it for good |
| `BackendAnswers.AddonAnswers` | lib/backend.js:130-140 | the backend is freed when its active addon has stopped by itself and fails when the addon fails; no other step of the addon reaches the owner |
| `BackendAnswers.SidecarAnswers` | lib/backend.js:169-234 | a step of a process reaches nothing but that process |
| `BackendProofs.EmissionsMatch` | lib/addon-controller.js:103-149 | observers hear of exactly the steps that end a generation |
| `BackendProofs.InvKept` | lib/backend.js:105-294 | every call, callback and component step keeps the exclusion |
| `BackendObject.Selection.Handle` | lib/backend.js:105-294 | every call and callback keeps the exclusion, equals its step, and begins a backend only when nothing is owned, no shutdown has failed and no earlier process may be alive |
| `RelayPorts.NormalizedIsCanonical` | lib/reachable-addresses.js:10-44 | normalisation keeps exactly the given patterns, with strictly increasing ports |
| `RelayPorts.NormalizeIsIdempotent` | lib/reachable-addresses.js:10-44 | normalising again changes nothing |
| `RelayPorts.AcceptedExactly` | lib/reachable-addresses.js:10-33 | a value is accepted if and only if it is omitted or an array of 1 to 64 texts, each an asterisk, a colon and the decimal notation of a port from 1 to 65535 |
| `RelayPorts.MatchMeansSamePorts` | lib/reachable-addresses.js:46-53 | two accepted inputs match exactly when they name the same set of ports |
| `RelayPorts.BothRoutesDeliver` | src/lib.rs:61-75 | the normalised list arrives in Rust unchanged by the ABI and by the environment, and an omitted one as None |
| `RelayPorts.SplitUndoesJoin` | addon/src/lib.rs:56-70 | splitting at commas undoes joining with commas |
| `RelayPorts.NormalizeReachableAddresses` | lib/reachable-addresses.js:10-44 | the loop over the elements, the set and the sort |
| `RelayPorts.MatchingReachableAddresses` | lib/reachable-addresses.js:46-53 | the comparison loop |
| `AcceptLoop.TerminalMeansJoined` | src/lib.rs:174-186 | when the terminal signal is sent every spawned connection has been joined once |
| `AcceptLoop.ClosedBeforeAbort` | src/lib.rs:174-178 | the listener is closed before any task is aborted, and nothing is spawned afterwards |
| `AcceptLoop.ShutdownWins` | src/lib.rs:157-187 | a wake-up that finds the shutdown ready ends the whole task: exactly the peers of earlier wake-ups were admitted, and no later wake-up matters |
| `AcceptLoop.PollAnswers` | src/lib.rs:157-172 | what each wake-up does by what it finds ready: the shutdown first, then a peer, which is always spawned, then a finished connection |
| `AcceptLoop.EveryPeerIsServed` | src/lib.rs:157-172 | while the loop serves, every accepted peer has been spawned once, whatever connections are open |
| `AcceptLoop.ReportsFirstFailure` | src/lib.rs:165-187 | the outcome is the first real failure, and cancellations by the shutdown never count |
| `AcceptLoop.Acceptor.Run` | src/lib.rs:154-187 | the accept and drain loops equal the function the results are about, and end with every spawned connection joined |
| `AcceptLoop.Acceptor.Select` | src/lib.rs:157-172 | one turn of the biased select loses no connection and, if the shutdown is ready, admits none |
| `Socks5.ParsesEveryConnect` | src/lib.rs:255-300 | every CONNECT request of sections 3 to 5 of RFC 1928 is understood, and the bytes after it stay unread |
| `Socks5.AcceptsOnlyConnects` | src/lib.rs:255-300 | what is accepted is a greeting followed by the encoding of the result |
| `Socks5.UnreadBytesDoNotMatter` | src/lib.rs:255-300 | a parse never depends on bytes it has not read |
| `Socks5.RefusalReplies` | src/lib.rs:265-300 | a refused command is answered 0x07, an unknown address type 0x08, exactly then |
| `Socks5.RefusedBytesExactly` | src/lib.rs:255-300 | which request bytes give which refusal: another protocol no answer, 0x07 exactly for a complete header with another version or a command other than CONNECT, 0x08 exactly for an address type other than 1, 3 and 4 |
| `Socks5.Socket.Handle` | src/lib.rs:255-325 | every client that sends a CONNECT request has exactly its destination dialled, exactly its own bytes consumed, and is answered 0x00 or 0x04; any other input gets its refusal |
| `Socks5.Socket.TakeRequest` | src/lib.rs:255-275 | greeting, method selection and request header, read in sequence |
| `Socks5.Socket.TakeAddress` | src/lib.rs:277-300 | the address by its type, and the port |
| `Provenance.AcceptedExactlyWhenSound` | scripts/verify-package-prebuilds.js:59-156 | acceptance if and only if the expected commit is forty lower-case hexadecimal digits, the document names schema 1, that commit, binary interface 2 and the one capability, and entries, distinct paths, files on disk and required sidecars are all right |
| `Provenance.RejectionsExactly` | scripts/verify-package-prebuilds.js:72-143 | a wrong header is rejected for its first fault, and a wrong list for the first fault of its first faulty artifact |
| `Provenance.LayoutRejectionsExactly` | scripts/verify-package-prebuilds.js:143-156 | a faultless list is rejected for a missing sidecar, else for an entry that is no plain file, else for a file that is not declared or missing, and accepted otherwise |
| `Provenance.OrderDoesNotMatter` | scripts/verify-package-prebuilds.js:97-156 | acceptance does not depend on the order of artifacts |
| `Provenance.NeverDuplicateIdentity` | scripts/verify-package-prebuilds.js:123-127 | the duplicate-identity error is never reported |
| `Provenance.SortedComparisonIsSetComparison` | scripts/verify-package-prebuilds.js:145-156 | comparing the sorted lists compares the sets |
| `Provenance.VerifyPackagePrebuilds` | scripts/verify-package-prebuilds.js:59-159 | the verifier's checks and loop in order |
| `CargoWrapper.RewriteIsLocal` | scripts/locked-bin/cargo:17-50 | only the options before the separator are rewritten: targets renamed, --locked added if required and missing |
| `CargoWrapper.RewritesExactly` | scripts/locked-bin/cargo:17-50 | every argument by its place: before the first separator that is no target, each is passed on with the old Android target renamed exactly where an odd number of --target stand before it; then --locked if required and missing; then the rest unchanged |
| `CargoWrapper.RewriteIsIdempotent` | scripts/locked-bin/cargo:17-50 | rewriting twice is rewriting once |
| `CargoWrapper.LockedBeforeSeparator` | scripts/locked-bin/cargo:26-50 | everything after the separator is unchanged, and for build and metadata --locked stands before it |
| `CargoWrapper.FileKeepsArguments` | scripts/locked-bin/cargo:46-55 | the file of lines returns the arguments exactly when none contains a newline |
| `CargoWrapper.RewriteArguments` | scripts/locked-bin/cargo:26-50 | the loop |
| `CargoWrapper.Wrap` | scripts/locked-bin/cargo:15-59 | what the real cargo is called with, for any arguments: the rewritten command line if and only if neither the subcommand nor an argument contains a newline |

## Left out

- ServiceTheorems.StartsBeforeStops: covers completions held in the state; stale stops are `ServiceStale.StopsStayBehind`, and for late joiners, which queue their own Running event inside their call, no order is claimed.
- ServicePorts.RunningPortIsBound: a custom gate may report any port; the other results hold for any gate.
- ServiceTheorems.EveryRunDelivers: a thread that is never scheduled again delivers nothing; a gate and a deadline are events that can happen, and a worker that never ends holds up only its own join.
- ServiceTheorems.EveryWorkerEnds: Tor need not answer in a select that nobody cancels; every other answer of the foreign code (the runtime, the data directory, a service's shutdown) is one that comes.
- ServiceTheorems.Conservation: a supervisor can panic wherever its panic is caught, but not while it queues drained completions, which is a channel send; and a reaper spawner that runs its task and panics afterwards is not modelled, while a supervisor spawner that does so is.
- ServiceTheorems.ShutDownExactlyOnce: a worker that panics is excluded; nothing then promises an orderly shutdown.
- BridgeTheorems.NoDuplicateResult: assumes one callback per accepted native call, which is `ServiceTheorems.Conservation`, in any order. The service, the ABI record and the bridge are three models; no theorem speaks of a run of all three.
- AbiRequests.OwedIsActive: calls come from one thread at a time, as the bridge makes them; completions come in any order with any outcome. That only a failed controller refuses the stop of a started generation is `ServiceTheorems.StopRefusedExactly`, and that a stopped generation is not started again `ServiceStale.StoppedNeverRestarts`.
- OwnershipTheorems.LastOwnerStops: startBackend and stopBackend are arbitrary: any operation, new or returned before, may settle either way at any time. The ownership and the backend selection below it are not composed in one model.
- BackendProofs.OneBackend: backend operations are valid and do not call back into the selection while it is entering; the status of an owner that is still entering is not modelled.
- BackendAnswers.StartAnswers: what a start is told while a backend is owned (a conflict, the promise that is shared, or a rejection after the stop) is not modelled; it changes nothing.
- BridgeAnswers.DeliversWhatCame: of a result only its failure is kept; the port and the message are copied unread.
- SidecarProofs.StoppingProgresses: kill and the timers do not call back before they return; a cleared startup timer does not fire.
- Socks5.Socket.Handle: dialling through Tor is a given predicate and the bidirectional copy after the reply is not modelled.
- Error messages, causes and the ArtiError classes: only codes are kept.
- Arti bootstrap, Tokio, rustls and real sockets are foreign code; their results are arbitrary.
- Data directory preparation, binary lookup, hashing, Git and the assembly scripts are input and output with shallow logic; the provenance verifier takes the file listing and the hash as given.
- lib/registry.js, lib/options.js, option getters with side effects and frozen-object checks are JavaScript object-model detail.
- Diagnostics counters, duplicate-completion hooks and test worker factories are compiled out of the product.
- N-API and libjs internals: thread-safe calls succeed, and a finalizer runs once after the release of its function.
- Wall-clock durations: a timeout is an event that may happen.
- Worker handles, promises and threads are names in the protocols; the classes hold the fields that the lock regions and closures update, not the operating system's objects.
