# PACT flight software: verified model

This project models the control logic of the PACT payload flight software and proves properties of it
in Dafny 4.11. `dafny verify dfyconfig.toml` checks everything.

What is modelled, by component:

- **The SAFE / recovery protocol.** The command router (`CommandRouter.dfy`, over `Routing.dfy`), the
  system-mode authority (`SystemModesApp.dfy`, over `SystemModes.dfy` and `Transitions.dfy`), the fault
  app (`Fault.dfy`, `Watchdog.dfy`) and the payload's motion containment (`PayloadApp.dfy`, over
  `Payload.dfy`). Each is a class over a bus of FIFO queues (`Bus.dfy`) whose drain loops are proved to
  compute a function on values; `AuthorityProofs.dfy`, `AuthorityGrants.dfy`, `FaultOutcomes.dfy`,
  `PayloadProofs.dfy`, `PayloadInhibits.dfy` and `PayloadOutcomes.dfy` say what each of these functions
  guarantees. `Protocol.dfy` puts the four together with each tick taken whole: a run is any order of their
  ticks, uplinked commands, fault reports, mode and sync requests, heartbeats, payload operations and arbitrary
  hardware results. No component sees the whole state; `ProtocolChain.dfy`, `ProtocolIds.dfy`,
  `ProtocolSafety.dfy`, `ProtocolRecords.dfy` and `ProtocolCause.dfy` hold the invariants that relate component
  states to queue contents, and `ProtocolRecovery.dfy` proves that a recovery in which nothing fails succeeds.
  `Stepping.dfy` and `SteppingApp.dfy` specialise them to the fixed schedule of the simulator's cycle, run on
  the four shells over one bus.
- **The same protocol under its threads** (`Phases.dfy`). In flight every app is a thread that takes its
  messages one by one and publishes in the middle of its tick. Here one message taken and dealt with is one
  step, and the steps of the four apps interleave in any way. `PhasesKeep.dfy`, `PhasesSafety.dfy` and
  `PhasesCause.dfy` prove the chain, the ids, the safety statement with its exact condition, and the causes of
  a release; `PhasesRun.dfy` gives the run that meets the exception; `PhasesAtomic.dfy` proves that a router,
  authority or fault tick that nothing interrupts is the tick that `Protocol.dfy` takes whole.
- **The INIT lifecycle executor** (`Lifecycle.dfy`, `LifecycleProofs.dfy`, `LifecycleProgress.dfy`,
  `LifecycleApp.dfy`): locked sections of the control owner interleaved in any way with the completions of one
  worker, what they never do and what they get done.
- **The capture tokens** (`Capture.dfy`, `CaptureFlow.dfy`): the capture loop interleaved in any way with the
  control loop, from the stamp of a vision sample over its dequeue to the graph step later in the same control
  tick.
- **Resource and arithmetic cores**: quota storage (`Storage.dfy`, `StorageOutcomes.dfy`), the budgeted
  downlink (`Downlink.dfy`, `DownlinkClasses.dfy`), the capture cadence (`Imaging.dfy`), upload reassembly
  (`Upload.dfy`).

How to read the model:

- Times, duty factors and intervals are `real`; a float that may be NaN or infinite is `Time`. Clock
  readings are arbitrary and in no order, except where a lemma asks for one clock (`ProtocolRecords.OneClock`,
  `PhasesSafety.Timely`).
- Hash, CRC-32, UUIDs, services, sessions and every hardware result are parameters.
- A queue is a `seq` field of the bus; publishing appends to every subscriber's queue.
- The history a theorem speaks of (`marks`, `era`, `items`, `moments`, `fired`, `Traced`, `History`) is recorded beside the
  state and decides nothing.

Results that are not plain confirmations of the documentation:

- Request ids of the form `cmd-{source}-{seq}` are unambiguous only for non-negative sequences. Ingress
  accepts no others, and the whole recovery argument rests on it (`Naming.CommandRequestIdInjective`,
  `Naming.NegativeSequencesCollide`).
- `store` evicts before it knows that the item fits: a refused item that is no larger than the quota has
  already removed every entry of its own or lower importance (`Storage.RefusalStillEvicts`).
- The downlink's budget holds except that the first non-empty item of a pass is always sent; then it is
  the only one with any bytes (`Downlink.WithinBudget` in `Downlink.DrainExactly`).
- Latched does not always mean SAFE, or on the way to it, when the apps run as threads on arbitrary clocks. If
  the authority grants a recovery after a fault tick has raised a fault and before it consumes, on evidence of
  the tick before, the fault app passes over that recovery and stays latched while the mode is INIT
  (`PhasesRun.SafeOrSoonFails`); that is the only exception (`PhasesSafety.SafeOrSoonExactly`). What rules it out
  is timing alone: the fault app waits one watchdog interval between ticks and the authority trusts evidence for
  one interval and 1e-12 seconds, so fault ticks must start further apart than that
  (`PhasesSafety.TimelyRunsAreSafe`). The wait starts after a tick has ended, so the margin is the time a tick
  takes.
- The check of a vision sample's tokens is made when it is dequeued, and the same control tick may still outdate
  it before the graph step: by a refused stow step, a promoted runtime or a command whose commit is refused
  (`Capture.SteppedExactly`, `Capture.RefusedCommitStepsStaleSample`).

## Model

| member | source | states |
|---|---|---|
| `Naming.CommandRequestIdInjective` | packages/flight/src/flight/system_modes/app.py:297 | the request id of a routed command determines its source and sequence when sequences are non-negative, as ingress guarantees |
| `Naming.NegativeSequencesCollide` | packages/flight/src/flight/system_modes/app.py:297 | without the sign guard two different commands share a request id: a concrete pair |
| `Naming.EntryIdFixesOrder` | packages/flight/src/flight/core/storage.py:164 | an entry id determines order number and item text, whatever the item is called |
| `Naming.PaddedIsWide` | packages/flight/src/flight/core/storage.py:164 | the order number fills at least eight digits |
| `Evidence.NewestOverIsMaximum` | packages/flight/src/flight/payload/app.py:558-575 | over any run of drains the accepted record is a qualifying one of greatest sequence, and is missing only if none qualified |
| `Evidence.HeldIsViewOfNewest` | packages/flight/src/flight/core/command_router.py:115-127 | the fields kept by router and authority are those of the record the payload keeps |
| `Evidence.ConsumersAgree` | packages/flight/src/flight/system_modes/app.py:154-167 | consumers whose drains saw the same qualifying records hold the same evidence, whatever the order, batching and duplication |
| `Transitions.DecideExactly` | packages/flight/src/flight/system_modes/transitions.py:147-170 | exactly which requests are granted, that a grant takes a legal edge, and that recovery is authorised only out of SAFE |
| `Transitions.Successors` | packages/flight/src/flight/system_modes/transitions.py:108-118 | which mode each legal edge can reach |
| `Transitions.ReachesExactly` | packages/flight/src/flight/system_modes/transitions.py:108-170 | mode by mode and for each kind of request, exactly which target is granted, without reference to the table: SET_MODE from IDLE, OPERATE and STOW, the payload from INIT, EXIT_SAFE from SAFE without a fault, SAFE from anywhere |
| `Transitions.RefusedBecause` | packages/flight/src/flight/system_modes/transitions.py:147-170 | which rule a refused request is told |
| `Routing.ArmedMapIsStandingArms` | packages/flight/src/flight/core/routing.py:124-144 | over any command stream the armed map is the set of arms not yet re-armed or attempted, with their times |
| `Routing.DispatchedExactly` | packages/flight/src/flight/core/routing.py:112-152 | a hazardous command is dispatched if and only if it is an EXECUTE on a standing arm inside the window and, unless EXIT_SAFE, the latch is clear on fresh evidence |
| `Routing.ArmsAreSpentOnce` | packages/flight/src/flight/core/routing.py:132-144 | no two dispatches rest on the same ARM |
| `Routing.AnsweredOnce` | packages/flight/src/flight/core/routing.py:112-152 | each command is dispatched unchanged or acknowledged, never both and never neither |
| `Routing.OtherArmsUntouched` | packages/flight/src/flight/core/routing.py:124-144 | a command changes the arm of no other source and no other command |
| `Routing.RoutedExactly` | packages/flight/src/flight/core/routing.py:112-152 | over any stream, for every command: it is dispatched if and only if it has a target other than the core and, if hazardous, executes a standing ARM in the window under a clear latch and timely evidence; otherwise it is acknowledged, positively if and only if it is for the core or arms |
| `CommandRouting.RoutedAreOffered` | packages/flight/src/flight/core/command_router.py:128-150 | one tick decides every queued command in order and routes only those |
| `CommandRouting.TickSendsExactly` | packages/flight/src/flight/core/command_router.py:112-163 | one tick routes, in order, exactly the offers that pass, acknowledges exactly the others, and faults exactly the unroutable ones |
| `CommandRouting.CommandRouter.Tick` | packages/flight/src/flight/core/command_router.py:112-163 | the tick over the bus computes RouterTick: new armed map and evidence, and exactly its routed messages, acks and faults |
| `CommandRouting.CommandRouter.DrainSafety` | packages/flight/src/flight/core/command_router.py:115-127 | the evidence loop computes DrainHeld |
| `SystemModesShell.SystemModesApp.Tick` | packages/flight/src/flight/system_modes/app.py:150-215 | the tick over the bus computes AuthorityTick: state, activations, records and acks |
| `SystemModesShell.SystemModesApp.DrainCommands` | packages/flight/src/flight/system_modes/app.py:195-209 | the look-ahead for SET_MODE SAFE and the command loop decide the batch under one fixed SAFE flag |
| `SystemModesShell.SystemModesApp.Process` | packages/flight/src/flight/system_modes/app.py:311-374 | one request: deny reason, decision, record and activation |
| `AuthorityProofs.TickExtendsChain` | packages/flight/src/flight/system_modes/app.py:150-215 | a tick publishes the next links of the activation chain and after them only copies of the last link |
| `AuthorityProofs.SafeRequestWins` | packages/flight/src/flight/system_modes/app.py:183-209 | a tick that drains a SAFE request anywhere ends in SAFE and publishes no recovery |
| `AuthorityProofs.RecoveryComesFromExit` | packages/flight/src/flight/system_modes/app.py:270-304 | a tick authorises at most one recovery, for an EXIT_SAFE EXECUTE it drained |
| `AuthorityProofs.LeavingSafeIsRecovery` | packages/flight/src/flight/system_modes/transitions.py:154-160 | a chain that starts in SAFE and holds no recovery ends in SAFE |
| `AuthorityProofs.OneRecordPerRequest` | packages/flight/src/flight/system_modes/app.py:339-374 | the requests of a tick are answered one by one by its transition records, and the granted ones name its activations in order |
| `AuthorityProofs.GrantIsAuthorised` | packages/flight/src/flight/system_modes/app.py:226-253 | a grant of anything but SAFE rests on fresh evidence, and out of INIT on the keyed completion request |
| `AuthorityProofs.InitLeftByItsKey` | packages/flight/src/flight/system_modes/app.py:241-252 | a tick leaves INIT for anything but SAFE only on a drained payload request carrying the key of the INIT activation it leaves |
| `AuthorityProofs.EveryCommandAcknowledged` | packages/flight/src/flight/system_modes/app.py:289-309 | each routed command addressed to the authority is acknowledged once, in order, and the activations the commands brought about answer, in order, exactly those acknowledged positively |
| `AuthorityGrants.GrantedExactly` | packages/flight/src/flight/system_modes/app.py:311-374 | the outcome of one request in both directions: granted if and only if mode, kind, target, fresh evidence, latch, faults and completion key allow it, with the next activation in force and one record; denied with one record and nothing else changed |
| `AuthorityGrants.DeniedBecause` | packages/flight/src/flight/system_modes/app.py:226-253 | stale evidence is told first, then a missing completion key, then the SAFE request of the tick |
| `AuthorityGrants.AsksAsCalled` | packages/flight/src/flight/system_modes/app.py:255-304 | a command becomes exactly the request its id and words call for, EXIT_SAFE barred by a SAFE request of its tick |
| `AuthorityGrants.RequestDecidedExactly` | packages/flight/src/flight/system_modes/app.py:184-194 | each subsystem request of a tick is granted exactly under those conditions, on what was decided before it |
| `AuthorityGrants.CommandDecidedExactly` | packages/flight/src/flight/system_modes/app.py:195-209 | each routed command of a tick is granted if and only if the mode it calls for is grantable then; the activation has that very mode and the acknowledgement says which |
| `AuthorityGrants.TickIsItsDecisions` | packages/flight/src/flight/system_modes/app.py:150-215 | a tick is boot, requests, commands and one copy of the activation per matching sync, in that order |
| `AuthorityGrants.DecidesOnTheDrain` | packages/flight/src/flight/system_modes/app.py:153-176 | a fault named by any accepted record of the drain bars recovery, whatever newer records say |
| `Watchdog.CheckHeartbeats` | packages/flight/src/flight/fault/watchdog.py:75-121 | the loop computes Checked and Expired |
| `Watchdog.BuildEntriesWatches` | packages/flight/src/flight/fault/watchdog.py:46-72 | one fresh entry for each distinct name and for nothing else |
| `Watchdog.ReportedExactly` | packages/flight/src/flight/fault/watchdog.py:97-121 | over any run of ticks a subsystem is reported if and only if max_miss ticks since its last heartbeat found it overdue |
| `Watchdog.RoundsAt` | packages/flight/src/flight/fault/app.py:157-177 | each entry evolves by its own heartbeats only |
| `Watchdog.DetectionBound` | packages/flight/src/flight/fault/watchdog.py:97-121 | a silence of one subsystem is never reported at or before one interval, and by every tick later than the interval plus max_miss - 1 periods |
| `Watchdog.DetectedInTime` | packages/flight/src/flight/fault/watchdog.py:97-121 | over any run of ticks at most a period apart, a silence that lasts until max_miss periods past the interval has been reported by some tick by then |
| `Fault.FaultApp.Tick` | packages/flight/src/flight/fault/app.py:137-203 | the tick over the bus computes FaultTick: latch, entries, SAFE requests and published evidence |
| `Fault.FaultApp.ConsumeActivations` | packages/flight/src/flight/fault/app.py:205-235 | the activation loop computes ConsumeAll |
| `Fault.FaultApp.RaiseFault` | packages/flight/src/flight/fault/policy.py:72-88 | a SAFE-triggering code requests SAFE and latches; any other changes nothing |
| `Fault.RaisedExactly` | packages/flight/src/flight/fault/app.py:164-185 | each SAFE-triggering fault is active and asks for SAFE once, the latch names the last of them, and other faults change nothing |
| `Fault.EvidenceIsTrue` | packages/flight/src/flight/fault/app.py:189-202 | the published active faults are exactly the SAFE-triggering codes of the tick, with any of them the latch is set, and a release is announced only with the latch clear |
| `Fault.SilenceIsLatched` | packages/flight/src/flight/fault/app.py:137-203 | over any run of fault ticks at most a period apart, a subsystem silent until max_miss periods past its interval has by then put WATCHDOG_EXPIRE into latched evidence and asked for SAFE |
| `ProtocolChain.RaiseFrames` | packages/flight/src/flight/fault/app.py:164-185 | raising faults sets the latch and requests SAFE together, or does neither |
| `ProtocolChain.ConsumeAdvances` | packages/flight/src/flight/fault/app.py:214-235 | consuming activations never sets the latch, never forgets a spent id and only moves forward |
| `FaultOutcomes.RaisesExactly` | packages/flight/src/flight/fault/policy.py:25-88 | exactly the eighteen listed codes latch, withdraw a release and ask for SAFE, one fault at a time |
| `FaultOutcomes.ConsumesExactly` | packages/flight/src/flight/fault/policy.py:91-127 | a new activation clears the latch and announces its id if and only if it is an unspent recovery from SAFE to INIT in a tick without a fault |
| `FaultOutcomes.PublishesExactly` | packages/flight/src/flight/fault/app.py:157-203 | the evidence of a tick is the next of its session and says what raising, then consuming left |
| `FaultOutcomes.RefusesRecovery` | packages/flight/src/flight/fault/policy.py:91-127 | the exact reasons for which an activation does not authorise a release |
| `PayloadShell.PayloadApp.PollActivations` | packages/flight/src/flight/payload/app.py:489-537 | the poll computes PollActivations of the model: evidence, local faults, activations, release |
| `PayloadShell.PayloadApp.PollSafety` | packages/flight/src/flight/payload/app.py:547-575 | the evidence loop keeps the newest record, contains on every accepted SAFE-latched one and reports any unsafe record |
| `PayloadShell.PayloadApp.PollLocalFaults` | packages/flight/src/flight/payload/app.py:577-605 | containing payload faults and a pending imaging fault contain and mark the drain unsafe |
| `PayloadShell.PayloadApp.TryReleaseContainment` | packages/flight/src/flight/payload/app.py:693-744 | the id is spent before the hardware is judged; the latch opens only if all of it holds |
| `PayloadShell.PayloadApp.ReenterGraph` | packages/flight/src/flight/payload/app.py:628-691 | reentry inhibits, resets stow progress, bumps both revisions and fails closed without a runtime |
| `PayloadShell.PayloadApp.Write` | packages/flight/src/flight/payload/app.py:2317-2394 | the leased rate and torque writes: gates in order and effects of each failure |
| `PayloadShell.PayloadApp.Commit` | packages/flight/src/flight/payload/app.py:1255-1307 | stow arm and pose latch: gates, effects and failures |
| `PayloadShell.PayloadApp.RecordActuatorFailure` | packages/flight/src/flight/payload/app.py:2396-2417 | only a transient failure inside its retry budget leaves motion uncontained |
| `PayloadShell.PayloadApp.NoteReadFailure` | packages/flight/src/flight/payload/app.py:2295-2298 | a failed encoder read contains |
| `PayloadProofs.PollKeeps` | packages/flight/src/flight/payload/app.py:489-537 | a poll releases if and only if every condition of the recovery contract holds of what it drained; the id is then new |
| `PayloadProofs.WriteKeeps` | packages/flight/src/flight/payload/app.py:2317-2394 | a leased write sends at most one command and only while not contained |
| `PayloadProofs.CommitKeeps` | packages/flight/src/flight/payload/app.py:1255-1307 | committing a reference keeps the containment invariant |
| `PayloadProofs.WriteSendsExactly` | packages/flight/src/flight/payload/app.py:2317-2394 | exactly when a leased write reaches the driver |
| `PayloadProofs.CommitSendsExactly` | packages/flight/src/flight/payload/app.py:1266-1307 | exactly when a reference arms the stow drive or latches a pose |
| `PayloadProofs.RetryBudgetIsExact` | packages/flight/src/flight/payload/app.py:2406-2417 | inside one window the transient failures up to the budget leave motion uncontained and one more contains |
| `PayloadProofs.ContainmentOverRuns` | packages/flight/src/flight/payload/app.py:607-625 | over every run: SAFE accepted or SAFE-latched evidence means contained, the generation counts engagements, motion is commanded only while not contained, and no id releases twice |
| `PayloadInhibits.InhibitsOverRuns` | packages/flight/src/flight/payload/app.py:607-626 | over every run each engagement of containment stands beside an inhibit request to the driver, and an inhibit counts as applied if and only if one that the latch asked for was confirmed since the last release |
| `PayloadInhibits.CausesAsk` | packages/flight/src/flight/payload/app.py:547-626 | from every reachable state an operation with a cause to contain asks for an inhibit on behalf of the latch unless one is confirmed |
| `PayloadOutcomes.EvidenceContainsExactly` | packages/flight/src/flight/payload/app.py:547-575 | draining evidence contains if and only if some accepted record is SAFE-latched, and otherwise changes only the record held |
| `PayloadOutcomes.LocalFaultsContainExactly` | packages/flight/src/flight/payload/app.py:577-605 | exactly the six listed codes from the payload, or a pending imaging fault, contain |
| `PayloadOutcomes.ActivatesExactly` | packages/flight/src/flight/payload/app.py:489-525 | a conflict contains and is told, an old activation does nothing, a new one is entered, contained first if it is SAFE |
| `PayloadOutcomes.ReentersExactly` | packages/flight/src/flight/payload/app.py:628-691 | a reentry asks for an inhibit, resets the stow and both revisions, and asks for SAFE exactly if it is to operate with inference and without a runtime |
| `PayloadOutcomes.ReleasesExactly` | packages/flight/src/flight/payload/app.py:526-537 | a poll ends containment if and only if its drains were quiet, the last activation recovers under an unspent id, the newest evidence announces it, and the hardware is fit, each condition written out |
| `PayloadOutcomes.RefusedWriteContainsExactly` | packages/flight/src/flight/payload/app.py:2360-2417 | a leased write refused by the driver leaves the payload contained if and only if the code is not COMM_TIMEOUT, the retry budget is exceeded or the inhibit is unconfirmed |
| `PayloadOutcomes.BlockedWriteExactly` | packages/flight/src/flight/payload/app.py:2317-2350 | a leased write that does not reach the driver: ignored, answered with an inhibit request, or containing, with the code told |
| `PayloadOutcomes.RefusedReferenceContains` | packages/flight/src/flight/payload/app.py:1266-1300 | a stow arm or pose latch refused by the driver always contains and is told |
| `ProtocolChain.TickPublishesLinks` | packages/flight/src/flight/system_modes/app.py:341-373 | what an authority tick publishes are links of the extended chain in rising order |
| `ProtocolChain.StepKeepsChain` | packages/flight/src/flight/core/composition.py:101-115 | under every step activations in flight are links of one chain and reach the fault app in order |
| `ProtocolIds.RoutedUnused` | packages/flight/src/flight/core/command_router.py:128-150 | what the router lets through carries keys that no drained or waiting command carries |
| `ProtocolIds.UplinkKeepsIds` | packages/flight/src/flight/iss_iface/ingress/pipeline.py:131-147 | the ingress sequence guard keeps the keys in flight distinct |
| `ProtocolIds.TickIssuesNewIds` | packages/flight/src/flight/system_modes/app.py:297-304 | no recovery of a run carries the request id of an earlier one |
| `ProtocolIds.RecoveryPasses` | packages/flight/src/flight/fault/policy.py:115-127 | a recovery the fault app has not passed yet is authorised when it comes up without a fault |
| `ProtocolIds.ConsumeReleases` | packages/flight/src/flight/fault/app.py:205-235 | with no fault in the tick an unread recovery in the queue clears the latch |
| `ProtocolIds.StepKeepsIds` | packages/flight/src/flight/fault/app.py:205-235 | under every step the ids spent are those of recoveries already passed |
| `ProtocolSafety.StepKeepsSafe` | packages/flight/src/flight/fault/app.py:164-187 | under every step, each tick taken whole, a set latch finds SAFE active, a SAFE request queued, or an unread recovery queued |
| `ProtocolSafety.SafetyOverRuns` | packages/flight/src/flight/system_modes/app.py:150-215 | the same in every state reachable by whole ticks in any order, with the chain and id invariants: what the simulator cycle rests on |
| `ProtocolSafety.ChainOverRuns` | packages/flight/src/flight/system_modes/app.py:339-373 | over every run activations are numbered 1, 2, 3, ..., each from the mode before, the first SAFE from none, every edge legal |
| `ProtocolSafety.LeavingPublishesRecovery` | packages/flight/src/flight/system_modes/transitions.py:154-160 | a tick that leaves SAFE publishes a recovery the fault app has not read |
| `ProtocolRecords.RecordsOverRuns` | packages/flight/src/flight/system_modes/app.py:339-374 | over every run each request the authority decides has exactly one transition record, numbered 1, 2, 3, ..., and the accepted ones name the activations of the chain in order |
| `ProtocolRecords.EvidenceFollows` | packages/flight/src/flight/fault/app.py:189-202 | over every run on one clock each evidence consumer holds the newest record it has drained, and its queue is all that was published since |
| `ProtocolRecords.ConsumersAgreeOverRuns` | packages/flight/src/flight/core/command_router.py:115-127 | over every run on one clock, whenever the three evidence queues are empty router and authority hold the fields of the record the payload holds, the last one published |
| `ProtocolCause.RouteAllTraced` | packages/flight/src/flight/core/command_router.py:128-150 | the armed map and everything routed follow from the commands offered so far |
| `ProtocolCause.SpentFrom` | packages/flight/src/flight/fault/app.py:218-235 | each id a drain spends is carried by a recovery in it and was not spent before |
| `ProtocolCause.CauseOverRuns` | packages/flight/src/flight/payload/app.py:693-744 | over every run each grant, fault release and containment release in the log has its cause before it |
| `ProtocolCause.ReleaseIsCaused` | packages/flight/src/flight/payload/app.py:693-744 | behind each containment release: the fault release, the SAFE-to-INIT recovery, the dispatched EXIT_SAFE EXECUTE and the ARM it spent in its window |
| `ProtocolCause.ReleasedOncePerRequest` | packages/flight/src/flight/payload/app.py:707-723 | no request id releases containment twice in a run |
| `ProtocolRecovery.RecoverySucceeds` | packages/flight/src/flight/core/composition.py:101-115 | from every reachable state at rest in SAFE an ARM and EXECUTE of EXIT_SAFE, with no fault and every app within its bounds, lead through grant and fault release to the release of the payload, with INIT in force |
| `ProtocolRecovery.PowerUpRests` | packages/flight/src/flight/core/composition.py:101-115 | from power-up one turn of every app leads to such a state at rest in SAFE |
| `ProtocolSafety.EvidenceIsNumbered` | packages/flight/src/flight/fault/app.py:189-202 | over every run the published evidence is numbered 1, 2, 3, ..., so a sequence names one record |
| `PhasesKeep.StepKeeps` | packages/flight/src/flight/core/scheduler.py:89-97 | under every step of the threads, one message at a time, activations in flight are links of one chain and recovery ids are never reused |
| `PhasesSafety.SafeOrSoonExactly` | packages/flight/src/flight/fault/app.py:157-235 | in every state of every run of the threads a set latch finds SAFE active, a SAFE request queued or an unread recovery queued if and only if no recovery granted between a fault tick raising and consuming, unanswered by SAFE since, has been consumed |
| `PhasesSafety.ConsumedExactly` | packages/flight/src/flight/fault/app.py:187-235 | once a fault tick that raised a fault has consumed its queue, the latch is set and finds SAFE active or asked for if and only if the run is not exposed |
| `PhasesRun.SafeOrSoonFails` | packages/flight/src/flight/core/scheduler.py:89-97 | a run of the threads from power-up that ends latched in INIT with no SAFE request queued and no recovery unread |
| `PhasesSafety.TimelyNeverExposes` | packages/flight/src/flight/system_modes/app.py:217-224 | evidence held during a fault tick is too old for a recovery, if fault ticks start more than the interval and its slack apart on one clock |
| `PhasesSafety.TimelyRunsAreSafe` | packages/flight/src/flight/fault/app.py:237-247 | over every interleaving of the threads on one clock, fault ticks that far apart, a set latch finds SAFE active, a SAFE request queued or an unread recovery queued |
| `PhasesSafety.ChainOverPhases` | packages/flight/src/flight/system_modes/app.py:339-373 | over every run of the threads activations are numbered 1, 2, 3, ..., each from the mode before, every edge legal |
| `PhasesCause.CauseOverPhases` | packages/flight/src/flight/payload/app.py:693-744 | over every run of the threads, on any clocks, each grant, fault release and containment release in the log has its cause before it |
| `PhasesCause.ThreadedReleaseIsCaused` | packages/flight/src/flight/payload/app.py:693-744 | behind each containment release of a run of the threads stands the whole chain back to the ARM, and no id releases twice |
| `PhasesAtomic.RouterTickIsAtomic` | packages/flight/src/flight/core/command_router.py:112-163 | the phases of a router tick that nothing interrupts are the tick taken whole |
| `PhasesAtomic.AuthorityTickIsAtomic` | packages/flight/src/flight/system_modes/app.py:150-215 | the phases of an authority tick that nothing interrupts are the tick taken whole |
| `PhasesAtomic.FaultTickIsAtomic` | packages/flight/src/flight/fault/app.py:137-203 | the phases of a fault tick that nothing interrupts are the tick taken whole |
| `Stepping.StaysSafe` | packages/flight/src/flight/system_modes/app.py:183-209 | with no routed command a tick cannot leave SAFE |
| `Stepping.FaultAsksSafe` | packages/flight/src/flight/fault/app.py:164-172 | a SAFE-triggering fault in the queue becomes a SAFE request in the same tick |
| `Stepping.CycleEndsSafe` | packages/sim/src/sim/sil/stepping.py:123-156 | at the end of a cycle latched implies SAFE, and a cycle whose fault tick drained a SAFE-triggering fault ends in SAFE |
| `Stepping.EveryCycleEndsSafe` | packages/sim/src/sim/sil/stepping.py:123-156 | the same after any number of cycles from power-up |
| `SteppingApps.SystemApps.CatchUp` | packages/sim/src/sim/sil/stepping.py:47-71 | the clock loop ticks at every period and lands exactly on the target time |
| `SteppingApps.TicksReach` | packages/sim/src/sim/sil/stepping.py:65-70 | the clock loop terminates |
| `SteppingApps.SystemApps.Sequence` | packages/sim/src/sim/sil/stepping.py:123-156 | the shells on one bus run exactly the schedule of protocol steps |
| `SteppingApps.SystemApps.StepOnce` | packages/sim/src/sim/sil/stepping.py:74-156 | one cycle of the shells: the history it extends, the invariants it keeps, and latched implies SAFE on return |
| `LifecycleShell.LifecycleExecutor.Submit` | packages/flight/src/flight/payload/lifecycle.py:360-384 | the method computes Submit: canonical intents only, a changed token clears the generation |
| `LifecycleShell.LifecycleExecutor.Poll` | packages/flight/src/flight/payload/lifecycle.py:386-444 | the method computes Poll: expiry first, else the mailbox, then one claim |
| `LifecycleShell.LifecycleExecutor.ConsumeCompletion` | packages/flight/src/flight/payload/lifecycle.py:520-589 | one completion: dropped, terminal result, re-arm, refusal or promotion |
| `LifecycleShell.LifecycleExecutor.CompleteClaimedJob` | packages/flight/src/flight/payload/lifecycle.py:635-652 | the slot is freed; the completion is mailed only if not cancelled, not shut down and of the current token |
| `LifecycleShell.LifecycleExecutor.ClearLocked` | packages/flight/src/flight/payload/lifecycle.py:472-481 | clearing cancels the job and drops every generation record |
| `LifecycleShell.LifecycleExecutor.FailLocked` | packages/flight/src/flight/payload/lifecycle.py:483-494 | failing cancels the job, retires what is outstanding and drops the candidate |
| `LifecycleShell.LifecycleExecutor.PollSynchronously` | packages/flight/src/flight/payload/lifecycle.py:427-443 | synchronous mode is a poll followed by one completion |
| `LifecycleProofs.RunsAreProper` | packages/flight/src/flight/payload/lifecycle.py:654-801 | a worker run yields a result or, for VERIFY_INIT only, a verification, and a loaded session with every successful MODEL_LOAD |
| `LifecycleProofs.CompleteKeeps` | packages/flight/src/flight/payload/lifecycle.py:635-652 | mailing keeps the invariant, and the mailbox is empty before it |
| `LifecycleProofs.MailboxNeverOverflows` | packages/flight/src/flight/payload/lifecycle.py:356 | over every run the mailbox holds at most one completion, none while a job runs, so its bound discards nothing |
| `LifecycleProofs.PollKeeps` | packages/flight/src/flight/payload/lifecycle.py:401-444 | a poll reports at most one item, and promotes only while no outstanding intent has reached its deadline |
| `LifecycleProofs.StaleCompletionIgnored` | packages/flight/src/flight/payload/lifecycle.py:537-544 | a completion claimed before a cancellation or failure changes nothing and returns nothing |
| `LifecycleProofs.CancelledJobIsDropped` | packages/flight/src/flight/payload/lifecycle.py:642-652 | a job cancelled by a clear or a failure is never mailed |
| `LifecycleProofs.ReturnedInItsEra` | packages/flight/src/flight/payload/lifecycle.py:472-494 | over every run nothing is returned for a job claimed before a cancellation, token change, failure or shutdown, even if the token is reused |
| `LifecycleProofs.GenerationsAreSound` | packages/flight/src/flight/payload/lifecycle.py:483-494 | over every run a generation resolves each kind at most once, promotes at most once and last, and never both promotes and fails |
| `LifecycleProofs.PromotionIsEarned` | packages/flight/src/flight/payload/lifecycle.py:575-589 | over every run a promotion follows SELFTEST, MODEL_LOAD and HOME successes with evidence in its generation and returns the session loaded there |
| `LifecycleProgress.SubmitsExactly` | packages/flight/src/flight/payload/lifecycle.py:360-384 | a submission registers, in order, exactly the well-named intents whose kind is unused, and starts over under another token |
| `LifecycleProgress.PollFeedsWorker` | packages/flight/src/flight/payload/lifecycle.py:426-444 | after any run a poll under the current token leaves a busy worker its job and hands a free one the oldest outstanding intent, uncancelled, with its issue time, the successes of the generation in order and the loaded session |
| `LifecycleProgress.OverdueFails` | packages/flight/src/flight/payload/lifecycle.py:403-412 | an intent at its deadline is reported failed by the next poll, MODEL_LOAD as a timeout and others as a gimbal fault, and ends the generation |
| `LifecycleProgress.ConsumesExactly` | packages/flight/src/flight/payload/lifecycle.py:520-589 | the outcome of each completion, case by case |
| `LifecycleProgress.WorkerSucceedsExactly` | packages/flight/src/flight/payload/lifecycle.py:654-760 | a prerequisite succeeds if and only if its service answers well, and with what evidence |
| `LifecycleProgress.ServedInTimeIsPromoted` | packages/flight/src/flight/payload/lifecycle.py:386-444 | progress: from any state short of shutdown the four intents submitted under a new token and served within their deadlines end in a poll that returns the loaded session for installation |
| `LifecycleProgress.TakenInTurnIsPromoted` | packages/flight/src/flight/payload/lifecycle.py:386-444 | the same with each effect submitted only when the one before it has been reported, as the INIT graph does |
| `Capture.VisionShell.TakeDue` | packages/flight/src/flight/payload/app.py:1404-1409 | at most one due sample leaves the queue and a stale one is dropped |
| `Capture.VisionShell.Enqueue` | packages/flight/src/flight/payload/app.py:2037-2047 | the locked recheck and append |
| `Capture.VisionShell.Engage` | packages/flight/src/flight/payload/app.py:607-615 | an engagement bumps the generation once |
| `Capture.EqualEndsAreConstant` | packages/flight/src/flight/payload/app.py:2052-2068 | equal tokens at stamp and dequeue mean constant tokens at every moment in between |
| `Capture.TakenUndisturbed` | packages/flight/src/flight/payload/app.py:1404-1409 | over every interleaving a sample taken off the queue saw no change of activation, policy revision, runtime or containment generation since its stamp |
| `Capture.SteppedExactly` | packages/flight/src/flight/payload/app.py:1404-1450 | over every interleaving a sample handed to the graph step saw no such change up to that step if and only if its control tick refused no stow step or inhibit, promoted no runtime and refused no commit |
| `Capture.RefusedCommitStepsStaleSample` | packages/flight/src/flight/payload/app.py:858-874 | a run in which a refused commit contains the actuator and the same tick still steps the graph with the sample |
| `CaptureFlow.QueuesExactly` | packages/flight/src/flight/payload/app.py:2037-2050 | a sample is queued exactly if its context is still that of the installed state, behind the others, the oldest making room |
| `CaptureFlow.DequeuesExactly` | packages/flight/src/flight/payload/app.py:1404-1409 | the oldest sample leaves the queue exactly when due and is taken exactly if its context is the present state |
| `CaptureFlow.OwnerActsExactly` | packages/flight/src/flight/payload/app.py:607-626 | what each action of the control owner does to revision, runtime, generation and latch |
| `CaptureFlow.SampleIsStepped` | packages/flight/src/flight/payload/app.py:1404-1450 | a due sample of the present state reaches the graph step of its tick, with exactly the guards that fired on the way, unless no graph is live or a command took an edge |
| `CaptureFlow.SteppedWasTaken` | packages/flight/src/flight/payload/app.py:1404-1450 | over every run only a sample that was taken is stepped |
| `Storage.StorageService.Store` | packages/flight/src/flight/core/storage.py:137-173 | the method computes Put, and publishes STORAGE_FULL exactly when it refuses |
| `Storage.StorageService.MakeRoom` | packages/flight/src/flight/core/storage.py:324-345 | the eviction loop terminates and computes EvictToFit |
| `Storage.StorageService.FindVictim` | packages/flight/src/flight/core/storage.py:332-339 | the scan finds the entry of greatest key among the evictable ones |
| `Storage.StorageService.Load` | packages/flight/src/flight/core/storage.py:177-200 | the method computes Read |
| `Storage.VictimsAreShortestPrefix` | packages/flight/src/flight/core/storage.py:324-345 | an eviction removes exactly the shortest prefix of the eviction order that makes room, or every evictable entry |
| `Storage.FullExactly` | packages/flight/src/flight/core/storage.py:151-160 | an item is refused if and only if it does not fit beside the strictly more important entries |
| `Storage.RefusalStillEvicts` | packages/flight/src/flight/core/storage.py:156-159 | a refused item no larger than the quota has still cost every evictable entry |
| `Storage.StorageOverRuns` | packages/flight/src/flight/core/storage.py:72-86 | over every run: total is the sum of live sizes within quota, orders are live or dropped, ids unique, live entries read back what was written |
| `Storage.NoOrphanFiles` | packages/flight/src/flight/core/storage.py:340-345 | over every run the products directory holds no file but those of live entries |
| `Storage.DamageIsContained` | packages/flight/src/flight/core/storage.py:177-200 | over every run of requests and outside damage to files: an id not live is refused, a live entry whose own two files are untouched reads back what was written, and with its sidecar untouched a read answers with bytes of the digest written or not at all |
| `StorageOutcomes.LeastAndOldestGoFirst` | packages/flight/src/flight/core/storage.py:324-345 | what is evicted is no more important than the item, goes by falling priority value and then by age, and whatever stays is more important or newer |
| `StorageOutcomes.PutsExactly` | packages/flight/src/flight/core/storage.py:137-173 | the code of a refusal, and the entry, the files and the counters of an admission |
| `StorageOutcomes.ReadsExactly` | packages/flight/src/flight/core/storage.py:177-200 | a read answers with the file exactly if the entry is live and its files are there and match, and otherwise says corrupt |
| `Downlink.DownlinkManager.Tick` | packages/flight/src/flight/core/downlink.py:120-211 | the tick computes TickOf and publishes exactly its items in order |
| `Downlink.DownlinkManager.DrainWithinBudget` | packages/flight/src/flight/core/downlink.py:228-250 | the pass loop computes Drain |
| `Downlink.SortedIsSorted` | packages/flight/src/flight/core/downlink.py:231 | the sorted queue is the pending items by priority, then order |
| `Downlink.DrainExactly` | packages/flight/src/flight/core/downlink.py:228-250 | a pass loses nothing, emits in order from the head, stays within the budget but for one oversized item, and leaves nothing that fits |
| `Downlink.NothingLost` | packages/flight/src/flight/core/downlink.py:194-250 | over every run the items enqueued, numbered 0, 1, 2, ..., are the items emitted together with those pending, and no number is there twice |
| `Downlink.WaitingIsPaidFor` | packages/flight/src/flight/core/downlink.py:228-250 | while an item waits every AOS pass is paid for by an item ahead or a later arrival of higher priority |
| `Downlink.SentWithinRank` | packages/flight/src/flight/core/downlink.py:228-250 | an item of rank k is gone after k + 1 AOS passes plus the number of later higher-priority arrivals |
| `DownlinkClasses.RunEnqueuesMessages` | packages/flight/src/flight/core/downlink.py:120-226 | over every run the items enqueued are, in order, one per drained message, with its own id, body, length and checksum or its entry, in the class of its kind |
| `DownlinkClasses.FaultsGoFirst` | packages/flight/src/flight/core/downlink.py:228-250 | in no pass does housekeeping go out before a fault or an acknowledgement, or an acknowledgement before a fault |
| `DownlinkClasses.EmitsInContact` | packages/flight/src/flight/core/downlink.py:122-123 | a tick emits if and only if the last link state seen is AOS and something is pending |
| `Imaging.CadenceExactly` | packages/flight/src/flight/payload/imaging.py:100-123 | over every run under one context n opportunities plan floor(n * duty) captures and c captures run inference ceil(c / N) times |
| `Imaging.WindowBound` | packages/flight/src/flight/payload/imaging.py:107-122 | a window of length T spends at most floor(T / interval) + 1 opportunities |
| `Imaging.SleepRespectsDeadline` | packages/flight/src/flight/payload/imaging.py:126-163 | the sleep after a plan never passes the armed deadline or the wake bound |
| `Imaging.PlansExactly` | packages/flight/src/flight/payload/imaging.py:100-123 | with acquisition off a plan waits and leaves counts and deadline alone; with it on it waits exactly before the deadline, and otherwise spends one opportunity |
| `Imaging.RefusesExactly` | packages/flight/src/flight/payload/graphs/base.py:476-519 | a plan is refused exactly under a wrong policy or a nonfinite time |
| `Imaging.PlanCounts` | packages/flight/src/flight/payload/imaging.py:100-123 | one plan keeps the counts exact |
| `Imaging.RecordCounts` | packages/flight/src/flight/payload/imaging.py:188-192 | one recorded capture keeps the counts exact |
| `Upload.ModelUploadState.Add` | packages/flight/src/flight/iss_iface/upload.py:63-98 | the method computes AddChunk |
| `Upload.FullMeansAll` | packages/flight/src/flight/iss_iface/upload.py:87-90 | a full key count implies every index is present |
| `Upload.ChunkFits` | packages/flight/src/flight/iss_iface/upload.py:79-98 | a chunk of the bundle is stored, and the covering one completes or is refused by checksum |
| `Upload.StrangerRejected` | packages/flight/src/flight/iss_iface/upload.py:79-85 | a bad index or another header is rejected and leaves the buffer unchanged |
| `Upload.Reassembles` | packages/flight/src/flight/iss_iface/upload.py:79-98 | in any order, with re-sends and rejected chunks between, the bundle completes exactly when every index is covered, with the original bytes |

## Left out

- Sockets, serial links, camera, gimbal and file-system calls, HAL drivers and vendor code: results are parameters and the products directory is a map from flat names to bytes.
- Image preprocessing, detection, geometry, control laws, estimators and orbit models: numerics outside the protocol.
- The inside of the payload graphs: what they emit enters the protocol as arbitrary payload operations and mode requests.
- CCSDS framing, HMAC and command parsing: a command enters the model after every ingress check but the sequence guard, which is modelled.
- Telemetry, audit and log messages, message timestamps and JSON bodies: formatting.
- Texts of reasons and details: a reason is a value of a datatype that distinguishes the cases; a SAFE request's reason text does not carry the fault code.
- Bus overflow policies, heartbeat emission loops, thread start-up and joining: queues are unbounded, and a thread is a sequence of steps.
- Floating-point rounding: reals, with the source's own 1e-12 and 1e-9 slacks kept as constants.
- The sorted tuple of active faults is a set.
- The bounded stow step and the stow switch of the payload: outside the claim about motion commands; in the capture model they are one guard.
- Payload commands, servo integrity and the policy part of a graph outcome: they reach containment only through operations that are modelled.
- PayloadShell.PayloadApp.PollActivations: the containment, actuator and shell records are values held in fields of the class, so aliasing between the original's sub-objects is not captured.
- LifecycleShell.LifecycleExecutor.Poll: a job and its cancel event are one value in the executor's slot, so the event is seen at the end of a worker run and, for MODEL_LOAD, as a parameter between load and warm-up.
- Capture.SteppedExactly: the two loops are a state machine over their locked sections; only the vision queue is also a class.
- Imaging.CadenceExactly: one policy per context, as the policy revision in the context guarantees.
- Upload.Reassembles: covers an upload up to its first completion; a chunk re-sent after it begins a new upload, as in the code.
- Storage.StorageOverRuns: a write that fails half-way, and a new process finding old files, are not modelled.
- ProtocolSafety.SafetyOverRuns: takes each tick whole; PhasesSafety.SafeOrSoonExactly and PhasesSafety.TimelyRunsAreSafe are the statements for the threads.
- ProtocolRecovery.RecoverySucceeds: one order of ticks, each taken whole, with nothing else arriving meanwhile; the safety theorems are for every order.
- LifecycleProgress.ServedInTimeIsPromoted: VERIFY_INIT is submitted behind the prerequisites, as the INIT graph does; other orders are covered by the exact lemmas per poll.
- PhasesSafety.SafeOrSoonExactly: taking a message and all it publishes and changes is one step, as is collecting the routed batch; a switch of threads inside that is not modelled.
- PhasesAtomic.FaultTickIsAtomic: has no counterpart for the payload poll, whose generated request ids are numbered from the start of the operation that publishes them.
- Scheduler restarts, thermal and electrical apps, configuration merging, model-deploy bookkeeping, the telemetry log and the ledgers: single-branch facts.
