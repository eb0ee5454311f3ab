# Cloudrail, modelled and proved in Dafny

Cloudrail is a single-node platform: a control plane keeps durable jobs in SQL tables, and one
agent, which may crash at any moment, carries them out on containers and routes. This project
models its state-changing core and proves what it promises over every run.

`dafny verify dfyconfig.toml` checks everything.

## How it is modelled

* **Tables.** A table is a sequence of rows in creation order and a row's identity is its position,
  so identities are fresh and creation order is step order. One transaction is one atomic step at a
  time `now` of a clock that never goes back. Tokens come from a counter; 0 is the empty token.
* **Functions and classes.** Each transaction is a function on the tables. The classes `Store`,
  `Workspace`, `BuildStore`, `Runner`, `Agent` and the demultiplexer's `Reader` and `Sink` carry
  out the same transactions statement by statement on their fields, and every method is proved
  equal to its function. The promises are lemmas about the functions, over any run.
* **Faults.** A call of the agent may succeed, fail, or fail after it took effect, and before it
  others may use the store. An execution is the sequence of its calls, so a promise about every
  call is a promise about every point at which the agent may crash.

| files | what they hold |
|---|---|
| `common`, `leases` | optional values and results; attempts, tokens, deadlines and backoff |
| `store_model`, `store` | the job store: services, volumes, deployments, actions, cron runs |
| `store_invariant`, `store_runs` | the invariants of the tables and of volumes, clause by clause, and all runs; exclusive volumes |
| `store_history`, `store_promises`, `store_bounds`, `store_progress` | what never changes back; pointers, fencing, keys; bounds; what a request leads to |
| `store_attempts`, `store_exact`, `store_scopes` | which jobs a claim ends and hands out; when each request is accepted; projects and environments |
| `store_backups` | whose volume an action works on, from its request to its end |
| `runner_model`, `runner` | the deployment protocol of the agent with faults, as an automaton and as the code |
| `runner_safety`, `runner_product`, `runner_outcomes` | promises at every call; together with the store; where it ends undisturbed |
| `runner_order`, `runner_failures` | in which order the calls come, whatever fails; what one failing call leads to |
| `reconcile` | one reconciliation pass and its convergence |
| `loop` | whole runs of the agent's loop: passes, work, recoveries, clean-ups, and users beside it |
| `variables_model`, `workspace` | variables, references, database and bucket bindings |
| `variables_graph`, `variables_invariant`, `variables_buckets`, `variables_resolution`, `variables_runs`, `variables_exact` | acyclicity, the invariant, derived variables, what values mean, all runs, when edits are accepted |
| `archive_paths`, `archive_links`, `archive`, `archive_exact`, `archive_tree` | the check of a volume archive, its symlink resolver, what one entry must be, and the tree that the archive unpacks to |
| `builds_model`, `builds_runs`, `builds` | the build queue and its hand-over in two commits |
| `builds_attempts`, `builds_exact`, `builds_reports` | which builds a claim ends and starts; when requests are accepted; where success, image and deployment come from |
| `demux_frames`, `demux` | Docker's multiplexed output |
| `store_examples`, `loop_examples`, `variables_examples`, `builds_examples` | concrete runs that show what the conditions below are for |

## What turned out to hold only under a condition

* **Exclusive volumes** hold over runs in which no accepted settings form takes a derived volume
  from another service. Its upsert can do that (`internal/deployment/operations.go:275-284`).
  `SaveSettingsExactly` and `SharedExactly` say exactly when and what it leads to, and
  `SettingsMoveVolume` is a run that ends with two services queued on one volume. Everything else
  about the tables holds over all runs, such forms included.
* **A claim** fails, and undoes its sweep, exactly when the job it picks has its deadline at this
  very instant: the sweep asks for `deadline<now()` and the attempt for `deadline>now()`
  (`ClaimFailsExactly`, `DeadlineAtTheInstant`).
* **A route** is kept through every deployment of a public service without a volume exactly if it
  has a previous release; without one a failure clears the route (`RouteLostExactly`).
* **The recovery of a job that is over** removes the active container exactly when the activation
  had taken effect: because its acknowledgement was lost, or because the time ran out while the old
  container was being stopped (`RecoveryExactly`, `GivenUpAfterActivation`). Reconciliation then
  starts it again.
* **The agent's loop** keeps a public service without a volume served after every call of every run
  (`LoopKeepsServing`), with two exceptions: such a recovery (`RecoveryHarmsExactly`), and a
  clean-up that removes the failed candidate the service is still routed to (`CleanUpExactly`). The
  latter needs a pass that failed for the service just before (`IdleIteration`), and
  `CleanUpTakesRoute` is a run in which it happens: the agent stops after switching the route, the
  deployment expires, and the pass cannot bring the active release back. The next pass that
  succeeds repairs either (`PassRestores`).
* **One writer for a shared volume** holds at every call of an attempt and its recovery
  (`AttemptHasOneWriter`). An attempt cut off while its candidate runs is followed by a pass that
  starts the active container again, beside the candidate (`PassAddsWriterExactly`,
  `PassBreaksSingleWriter`).
* **A backup or restore** works on the active release's volume. A start or restart is refused when
  the service mounts another volume by then, a backup or restore of a stopped application is not
  (`internal/deployment/workspace.go:393-411`), and the former volume may be another service's by
  then. `ActionHoldsExactly` says exactly when the release holds its volume until the action ends,
  and `BackupOnSharedVolume` is a run in which it does not.
* **Binding a database** takes three transactions. Undisturbed, the variable resolves to the
  connection after each of them, and a crash between them does no harm. With edits in between,
  `LinkDatabaseExactly`, `MarkReferenceExactly` and `BoundVariableExactly` say exactly when the
  second and the third do harm and to which variables.
* **Renaming a variable** keeps every value exactly unless the new name still carries the reference
  row of a binding whose variable was deleted, and the renamed one is a reference that adopts it
  (`RenameKeepsValues`, `RenameAdopts`). Such a row also makes the rename of a reference with a row
  of its own fail on the primary key.
* **Disconnecting a bucket** stops exactly the variables that refer to its six
  (`UnbindBucketExactly`, `ReferredBucketDisconnected`).
* **The hand-over of a build** is recovered after a crash exactly while the build's image is the
  one of the first attempt: a succeeded build may be reported again with another image, and then
  the deployment's key refuses (`HandOverRecovers`, `ReportedAnew`).

## Model

| member | source | states |
|---|---|---|
| Stores.Store.constructor | internal/deployment/store.go:25-40 | an empty store satisfies the invariant |
| Stores.Store.CreateCompute | internal/deployment/store.go:65-101 | the tables become those of the creation transaction at this time; the invariant stays |
| Stores.Store.CreateVolume | internal/deployment/volumes.go:9-21 | adds one free volume under a fresh identity and changes nothing else |
| Stores.Store.CreateDatabase | internal/deployment/operations.go:308-353 | service, managed volume, attachment and first release appear together, or nothing changes |
| Stores.Store.SaveSettings | internal/deployment/operations.go:241-289 | the upsert of the settings form, with its rejections |
| Stores.Store.SaveCronSchedule | internal/deployment/cron.go:27-44 | sets schedule and next occurrence of a cron service, or rejects and changes nothing |
| Stores.Store.Enqueue | internal/deployment/store.go:148-270 | every rejection in the order of the code, the earlier deployment of a repeated key, or one new queued row with its settings snapshot |
| Stores.Store.EnqueueAction | internal/deployment/workspace.go:373-433 | every rejection in the order of the code, or one new waiting action |
| Stores.Store.AttachVolume | internal/deployment/volumes.go:22-84 | every guard in the order of the code, then attachment and settings together |
| Stores.Store.DetachVolume | internal/deployment/volumes.go:86-128 | every guard in the order of the code, then attachment and settings together |
| Stores.Store.Cancel | internal/deployment/reliability.go:42-51 | requests the cancellation of an unfinished deployment and fails one that never started |
| Stores.Store.ExpireWork | internal/deployment/store.go:279-291 | loops over the three tables: exactly the overdue or exhausted unfinished jobs become failed |
| Stores.Store.Claim | internal/deployment/store.go:272-350 | the sweep, then the next action, deployment or cron run with a new attempt; a failure undoes the sweep |
| Stores.Store.ClaimAction | internal/deployment/store.go:292-316 | one attempt is added to the chosen action, or the transaction is undone |
| Stores.Store.ClaimDeployment | internal/deployment/store.go:317-350 | one attempt is added to the chosen deployment and Previous is the running active release, or the transaction is undone |
| Stores.Store.ClaimCron | internal/deployment/store.go:352-406 | the earliest ready run starts; failing that, one run is made for the earliest due schedule and its next occurrence moves on |
| Stores.Store.Report | internal/deployment/store.go:452-519 | token, cancellation and terminal checks in the order of the code; an activation supersedes and moves the pointer |
| Stores.Store.ReportAction | internal/deployment/workspace.go:434-470 | token and status checks in the order of the code; a finished start, stop or restart sets the desired state |
| Stores.Store.ReportCronRun | internal/deployment/store.go:408-451 | terminal status and token checks in the order of the code |
| Leases.SurvivorStarts | internal/deployment/reliability.go:13-26 | a due job that the sweep spared can start unless its deadline is this very instant |
| StoreModel.Prior | internal/deployment/store.go:204-219 | finds the deployment that carries a key, if there is one |
| StoreModel.FirstAction | internal/deployment/store.go:292-293 | the oldest due unfinished action, or proof that there is none |
| StoreModel.FirstDeployment | internal/deployment/store.go:318 | the oldest due deployment with nothing unfinished before it in its service, or proof that there is none |
| StoreModel.EarliestRun | internal/deployment/store.go:352-375 | the due unfinished cron run that was scheduled earliest |
| StoreModel.EarliestService | internal/deployment/store.go:352-375 | the due cron service whose occurrence is earliest |
| StoreInvariant.EmptyInv | internal/deployment/store.go:25-40 | the empty tables satisfy the invariant of the tables and that of volumes |
| StoreInvariant.CreateComputeInv | internal/deployment/store.go:65-101 | keeps the invariant of the tables, and that of volumes if it held |
| StoreInvariant.CreateVolumeInv | internal/deployment/volumes.go:9-21 | keeps the invariant of the tables, and that of volumes if it held |
| StoreInvariant.CreateDatabaseInv | internal/deployment/operations.go:308-353 | keeps the invariant of the tables, and that of volumes if it held |
| StoreInvariant.AttachVolumeInv | internal/deployment/volumes.go:22-84 | keeps both invariants: the stop and busy guards are what makes a new holder safe |
| StoreInvariant.DetachVolumeInv | internal/deployment/volumes.go:86-128 | keeps both invariants: no live release loses its volume |
| StoreInvariant.SaveSettingsInv | internal/deployment/operations.go:241-289 | always keeps the invariant of the tables, and that of volumes unless it is accepted and takes a volume from another service |
| StoreInvariant.EnqueueInv | internal/deployment/store.go:148-270 | keeps both invariants: the snapshot names the volume that is attached now |
| StoreInvariant.EnqueueActionInv | internal/deployment/workspace.go:373-433 | keeps both invariants: a start or restart is refused when the release's volume changed |
| StoreInvariant.SaveCronScheduleInv | internal/deployment/cron.go:27-44 | keeps the invariant of the tables, and that of volumes if it held |
| StoreInvariant.CancelInv | internal/deployment/reliability.go:42-51 | keeps the invariant of the tables, and that of volumes if it held |
| StoreInvariant.SweepInv | internal/deployment/store.go:279-291 | keeps the invariant of the tables, and that of volumes if it held |
| StoreInvariant.ClaimInv | internal/deployment/store.go:272-406 | keeps the invariant of the tables, and that of volumes if it held |
| StoreInvariant.ActivateInv | internal/deployment/store.go:488-504 | keeps both invariants: active rows and active pointers stay two views of one relation |
| StoreInvariant.ReportInv | internal/deployment/store.go:452-519 | keeps the invariant of the tables, and that of volumes if it held |
| StoreInvariant.ReportActionInv | internal/deployment/workspace.go:434-470 | keeps the invariant of the tables, and that of volumes if it held |
| StoreInvariant.ReportCronRunInv | internal/deployment/store.go:408-451 | keeps the invariant of the tables, and that of volumes if it held |
| StoreRuns.RunKeepsInvariant | internal/deployment/store.go:148-519 | every state that any run of all operations reaches satisfies the invariant of the tables |
| StoreRuns.RunKeepsVolumes | internal/deployment/volumes.go:22-128 | and that of volumes, as long as no accepted form takes a volume from another service |
| StoreRuns.ExclusiveVolumes | internal/deployment/volumes.go:22-128 | two live releases that mount one volume belong to one service, in every state reached without a form that takes a volume |
| StoreRuns.SaveSettingsExactly | internal/deployment/operations.go:275-284 | the form leaves two services set to mount one volume exactly when it takes that volume from the other one |
| StoreRuns.SharedExactly | internal/deployment/operations.go:275-284 | after the form, deployments of two services end live on one volume exactly when the form took the one's volume for the other |
| StoreBackups.ActionHoldsExactly | internal/deployment/workspace.go:389-428 | until it ends, an action works on the release that was active at its request; that release holds its volume exactly while its service mounts it, which no live release of another service then does. If the service mounted it at the request (checked before a start or restart, true of a running service, unchecked before the backup or restore of a stopped one) it does so throughout; if not, only its own settings form can change that |
| StoreExamples.BackupOnSharedVolume | internal/deployment/workspace.go:402-411 | a legal run from the empty tables, without a form that takes a volume, after which a backup or restore is accepted for a release whose volume the live release of another service mounts |
| StoreExamples.SettingsMoveVolume | internal/deployment/operations.go:275-284 | a legal run in which two services have a live release on one volume |
| StoreExamples.DeadlineAtTheInstant | internal/deployment/reliability.go:13-26 | a legal run after which a claim at the instant of the deadline fails |
| StoreHistory.RunOnlyMovesForward | internal/deployment/store.go:272-519 | over any run: terminal rows stay (active may become superseded), attempts and tokens only grow, a deadline stays, active pointers only advance |
| StorePromises.PointerStays | internal/deployment/store.go:318 | from its claim until it finishes, a deployment sees one and the same active release |
| StorePromises.ClaimedDeployment | internal/deployment/store.go:317-350 | the claimed deployment is unfinished and carries the new token, and Previous is the active release of that moment |
| StorePromises.ActivationRetiresPrevious | internal/deployment/store.go:488-504 | an accepted activation supersedes exactly the release that was active when the deployment was claimed |
| StorePromises.ClaimIdleExactly | internal/deployment/store.go:272-376 | a claim comes back empty exactly when nothing left by the sweep is ready |
| StorePromises.ClaimOrder | internal/deployment/store.go:292-376 | actions before deployments before cron, and the oldest ready one of its kind |
| StorePromises.StaleTokenRejected | internal/deployment/reliability.go:27-41 | a token older than the latest claim changes nothing in any later state |
| StorePromises.CancelledNeverActivates | internal/deployment/reliability.go:27-51 | after a cancellation request the deployment is never active and no report makes it so |
| StorePromises.DetachUndoesAttach | internal/deployment/volumes.go:22-128 | detaching takes back what attaching did, up to the mount path of a service without volume |
| StorePromises.RepeatedRequest | internal/deployment/store.go:204-219 | a repeated keyed request returns the same deployment in any later state; other content under the key adds nothing |
| StorePromises.StaleJobTokens | internal/deployment/reliability.go:27-41 | nor does a stale token change an action or a cron run |
| StoreProgress.FreshDeploymentIsClaimed | internal/deployment/store.go:148-350 | when nothing else is ready, a new deployment is the next work handed out, with the running active release as Previous |
| StoreProgress.FreshActionIsClaimed | internal/deployment/workspace.go:373-433 | when no other action is ready, a new action is the next work handed out, for the active release |
| StoreProgress.SnapshotIsAttachment | internal/deployment/store.go:164-175 | a new deployment is promised a volume exactly if the volume is attached to its service |
| StoreProgress.CancelPrevails | internal/deployment/reliability.go:42-51 | a cancellation is accepted exactly for an unfinished deployment, which then never becomes active |
| StoreProgress.MadeRun | internal/deployment/store.go:352-390 | a new cron run is for the due occurrence and the active release, and the schedule moves on |
| StoreBounds.ClaimEndsOverdueWork | internal/deployment/store.go:279-291 | a claim leaves every overdue or exhausted job finished |
| StoreBounds.ClaimFailsExactly | internal/deployment/reliability.go:13-26 | a claim fails exactly when the job it picks has its deadline at this very instant |
| StoreBounds.HandOutsBounded | internal/deployment/reliability.go:13-26 | over any run at most three work items are handed out for each job created |
| StoreBounds.CountIsCardinality | internal/deployment/store.go:220-232 | the queue count is the number of unfinished deployments |
| StoreBounds.QueueBounds | internal/deployment/store.go:220-246 | at most ten unfinished deployments and one action per service, never both kinds |
| StoreBounds.CronRunsOrdered | internal/deployment/store.go:352-406 | occurrences of a service strictly increase and at most one run is unfinished |
| StoreBounds.MissedOccurrencesCollapse | internal/deployment/cron.go:15-40 | missed occurrences become one run: every later one is for a time after the claim |
| StoreAttempts.ClaimFinishesExactly | internal/deployment/store.go:279-291 | an accepted claim finishes exactly the unfinished jobs whose deadline is past, or that are due again after three attempts, and keeps the status of every other but the one it starts |
| StoreAttempts.ActionIsHandedOut | internal/deployment/store.go:292-316 | the oldest unfinished action that is due, has an attempt left and time, is handed out with one more attempt, unless its time ends this instant |
| StoreAttempts.DeploymentIsHandedOut | internal/deployment/store.go:317-350 | when it is no action's turn, so is the oldest such deployment with nothing older of its service left |
| StoreAttempts.RunIsHandedOut | internal/deployment/store.go:352-375 | when it is no deployment's turn either, so is the cron run that was scheduled first |
| StoreAttempts.AbandonedGetsThree | internal/deployment/reliability.go:13-26 | a deployment that nobody reports on is handed out three times, 5 and 10 seconds after the last time or later, and then fails |
| StoreExactly.EnqueueExactly | internal/deployment/store.go:148-246 | a request adds a deployment exactly under the stated conditions on service, release, key and queue; a repeated key gets the earlier one exactly for the same content |
| StoreExactly.EnqueuedExactly | internal/deployment/store.go:164-270 | the row that is added carries the settings of the service and the port asked for |
| StoreExactly.CancelExactly | internal/deployment/reliability.go:42-51 | accepted exactly for an unfinished deployment, which fails at once exactly if it was never handed out |
| StoreExactly.ReportExactly | internal/deployment/store.go:452-519 | when a report on a deployment counts, and that it is stored as it was made |
| StoreExactly.EnqueueActionExactly | internal/deployment/workspace.go:373-433 | when an action is accepted, kind by kind |
| StoreExactly.ReportActionExactly | internal/deployment/workspace.go:434-470 | when a report on an action counts, that success and failure are not mixed up, and which state the service is left in |
| StoreExactly.ReportRunExactly | internal/deployment/store.go:408-451 | the same for a cron run |
| StoreExactly.ServiceReadyExactly | internal/deployment/store.go:356 | when a cron service is due |
| StoreExactly.AttachExactly | internal/deployment/volumes.go:22-84 | a volume can be attached exactly if it is free and the service a stopped, idle application of its project and environment without another one |
| StoreExactly.DetachExactly | internal/deployment/volumes.go:86-128 | and detached exactly while its service is stopped and idle |
| StoreExactly.FormExactly | internal/deployment/operations.go:241-289 | when the settings form is accepted and what it leaves mounted |
| StoreExactly.CreatedExactly | internal/deployment/store.go:65-94 | an application and a volume come alone, under fresh identities |
| StoreExactly.CreateDatabaseExactly | internal/deployment/operations.go:308-400 | accepted exactly for a template; service, managed volume at the engine's data path, attachment and the queued release of the engine at its port |
| StoreExactly.SaveCronScheduleExactly | internal/deployment/cron.go:27-44 | a schedule is accepted exactly for a cron service and a well-formed schedule |
| StoreScopes.VolumesStayInPlace | internal/deployment/volumes.go:22-84 | over every run, forms included: what a service mounts belongs to its project and environment, and a database keeps its own volume |
| Runners.Runner.constructor | internal/agent/runner.go:32-41 | the trace starts empty in the given world |
| Runners.Runner.Make | internal/agent/runner.go:15-31 | one call succeeds, fails, or fails after its effect, and others may use the store before it |
| Runners.Runner.Do | internal/agent/runner.go:121-233 | one call at a point of the protocol leaves the whole predicted trace unchanged |
| Runners.Runner.FailWithLogs | internal/agent/runner.go:81-120 | appends exactly the trace of the failure path |
| Runners.Runner.FreeVolume | internal/agent/runner.go:82-95 | frees a shared volume and brings Previous back before the route |
| Runners.Runner.DoOrFail | internal/agent/runner.go:128-135 | a failure takes the failure path unless the job's own time is over |
| Runners.Runner.PreDeployFirst | internal/agent/runner.go:136-162 | the one-shot command and its clean-up, then on or back |
| Runners.Runner.ActivateCron | internal/agent/runner.go:166-177 | route removed, activation reported, Previous removed |
| Runners.Runner.Replace | internal/agent/runner.go:178-205 | the candidate starts, is checked and takes over |
| Runners.Runner.SwitchOver | internal/agent/runner.go:206-232 | route, verification, activation and only then Previous is stopped |
| Runners.Runner.Run | internal/agent/runner.go:121-233 | appends exactly the trace of the protocol, whatever calls fail |
| Runners.Runner.RecoverCancellation | internal/agent/reconcile.go:65-67 | appends exactly the trace of the failure path |
| Runners.Runner.Work | cmd/agent/main.go:86-111 | one job of the agent's loop: the deployment and, if the job is over, its recovery |
| RunnerSafety.SingleWriter | internal/agent/runner.go:82-95 | the two containers of a volume deployment never run together at any call, on the way forward and back |
| RunnerSafety.TrafficIsServed | internal/agent/runner.go:121-233 | replacing a release of a public service without a volume, the service is routed and the routed container runs after every call, whatever fails |
| RunnerSafety.RouteLeadsToRunning | internal/agent/runner.go:96-107 | without a volume a route never leads to a container that does not run |
| RunnerOutcomes.RouteLostExactly | internal/agent/runner.go:96-107 | the route can be lost exactly when there is no previous release to lead it back to |
| RunnerSafety.OldOutlivesActivation | internal/agent/runner.go:219-231 | the old container is stopped or removed only after the activation was acknowledged |
| RunnerSafety.CandidateOutlivesRestore | internal/agent/runner.go:96-107 | the candidate is removed only after the old route is restored and, when it leads somewhere, verified |
| RunnerProduct.ActiveUntouched | internal/agent/runner.go:121-233 | in every interleaving with lost replies and crashes no call stops or removes the active release's container, except to hand over a shared volume |
| RunnerProduct.ActiveKeepsRunning | internal/agent/runner.go:219-231 | without a volume the container of the release the store calls active runs after every call |
| RunnerProduct.ClaimedJobIsSafe | internal/deployment/store.go:317-350 | both promises hold for every job from its claim on |
| RunnerProduct.ActivatedOnce | internal/deployment/store.go:479-504 | after an accepted activation no later report of it changes anything |
| RunnerProduct.RecoveryExactly | cmd/agent/main.go:106-111 | the recovery of a job that is over can remove the active container exactly when its activation had already taken effect |
| RunnerOutcomes.GivenUpAfterActivation | cmd/agent/main.go:106-111 | a job that is over once its activation is in effect ends with the active container removed |
| RunnerOutcomes.ActiveContainerRemoved | cmd/agent/main.go:106-111 | so it goes for the job of a concrete run |
| Runners.AttemptHasOneWriter | cmd/agent/main.go:86-111 | one writer over the whole attempt, recovery included |
| Runners.AttemptSparesActive | cmd/agent/main.go:86-111 | the whole attempt spares the active container unless it is given up after a committed activation |
| RunnerOutcomes.DeploymentSucceeds | internal/agent/runner.go:121-233 | undisturbed, a claimed deployment ends active, running and routed as its kind demands, with Previous stopped |
| RunnerOutcomes.UndisturbedDeployment | internal/agent/runner.go:121-233 | the same from any point of the way forward, a resumed attempt included |
| RunnerOutcomes.UndisturbedRecovery | internal/agent/runner.go:81-120 | undisturbed, the failure path ends with Previous running and routed, the candidate removed and the failure reported |
| RunnerOrder.ExecutionIsShaped | internal/agent/runner.go:78-233 | whatever fails, the calls of a deployment come in their order, each only after all before it succeeded, up to the first that fails; then the attempt stops, or takes the failure path, whose calls come in order too |
| RunnerOrder.ActivationIsEarned | internal/agent/runner.go:121-233 | a release is reported active only after image, command, container, readiness, route and verification all succeeded, in this order |
| RunnerFailures.OneFailingCallFails | internal/agent/runner.go:121-217 | if just one of these calls fails, the deployment ends failed and removed, its route back where it was, and was never active |
| AgentLoop.LoopKeepsServing | cmd/agent/main.go:80-133 | over every run of the loop, cut off at any call, and of the users beside it: a public service without a volume is routed, and the routed and the active container run, as long as no recovery of it begins with the activation in effect and no clean-up removes the routed container |
| AgentLoop.WorkKeeps | cmd/agent/main.go:84-111 | so it is for one piece of claimed work, whichever service it is for, with its recovery |
| AgentLoop.RecoveryHarmsExactly | cmd/agent/main.go:106-111 | a recovery can leave the service without its active or its routed container exactly when the activation was in effect as it began |
| AgentLoop.CleanUpExactly | cmd/agent/main.go:121-133 | the clean-up keeps the service served exactly unless the routed container is a failed or superseded release that it removes |
| AgentLoop.PassRestores | internal/agent/reconcile.go:11-45 | whatever happened in a run, the next pass in which the calls for the service succeed has it served by its active release |
| AgentLoop.IdleIteration | cmd/agent/main.go:80-133 | in an iteration that finds nothing to do and whose pass succeeded for the service, no clean-up harms it |
| AgentLoop.PassAddsWriterExactly | internal/agent/reconcile.go:11-45 | a pass that succeeds for a released service starts its active container beside another one of the service exactly if that one ran before the pass |
| LoopExamples.PassBreaksSingleWriter | internal/agent/reconcile.go:11-45 | so after every deployment that takes over a shared volume, cut off once its candidate runs, the next pass that succeeds leaves both containers running |
| LoopExamples.CleanUpTakesRoute | cmd/agent/main.go:80-133 | a run from nothing in which the pass fails for a service that is routed to a candidate cut off before its activation: the service is served until the clean-up removes that candidate |
| Reconciliation.Agent.ClearRoute | internal/proxy/routes.go:18-30 | removes the route file, or leaves it on a failure without effect |
| Reconciliation.Agent.SetRoute | internal/agent/runner.go:52-57 | a service that is not public has no route file |
| Reconciliation.Agent.Reconcile | internal/agent/reconcile.go:11-45 | one pass has exactly the effect of settling each service in turn, and returns the services that failed |
| Reconciliation.PassConverges | internal/agent/reconcile.go:11-45 | a service whose calls succeeded ends exactly as the stored state demands, whatever happened to others |
| Reconciliation.OutcomeIsLocal | internal/agent/reconcile.go:22-43 | a service's outcome is what its own calls make of it alone |
| Reconciliation.NoFailures | internal/agent/reconcile.go:39-44 | no failure is returned exactly when every service succeeded |
| Reconciliation.DemandedIsStable | internal/agent/reconcile.go:22-38 | a state as demanded is left as it is |
| Reconciliation.SecondPassChangesNothing | internal/agent/reconcile.go:11-45 | after a pass without failure the next changes nothing |
| Reconciliation.RouteNeedsReadiness | internal/agent/reconcile.go:22-38 | a pass changes the route of a running release only after it started and was ready, and stops a stopped one only after its route is gone |
| Reconciliation.PassTouchesOnlyItems | internal/agent/reconcile.go:11-45 | nothing outside the listed services and their active releases changes |
| Reconciliation.WorkIsDistinct | internal/deployment/reliability.go:54-76 | the work list of a reachable store mentions no service and no release twice |
| Reconciliation.PassRepairs | internal/agent/reconcile.go:11-45 | whatever state failed attempts left, a pass that succeeds for a service brings its active release and route back |
| Reconciliation.ActionReachesRuntime | internal/deployment/workspace.go:434-470 | a reported stop, start or restart reaches the containers with the next pass that succeeds |
| Workspaces.Workspace.AddApp | internal/deployment/store.go:65-101 | one new application |
| Workspaces.Workspace.AddDatabase | internal/deployment/operations.go:308-353 | one new database with the sealed credentials of its template |
| Workspaces.Workspace.ResolveVariable | internal/deployment/workspace.go:46-81 | the result is the recursive resolution, and the set of visited keys is as before whatever the outcome |
| Workspaces.Workspace.ResolveAfresh | internal/deployment/workspace.go:33-40 | resolution from an empty set of visited keys |
| Workspaces.Workspace.Variables | internal/deployment/workspace.go:16-45 | the whole environment, or the error of one variable |
| Workspaces.Workspace.SetVariable | internal/deployment/workspace.go:173-220 | every rejection in the order of the code, or the sealed value and no reference row |
| Workspaces.Workspace.Reachable | internal/deployment/workspace.go:249-258 | the recursive query returns exactly the services reached by one or more references |
| Workspaces.Workspace.SetReference | internal/deployment/workspace.go:222-283 | every rejection in the order of the code, a cycle included, or variable and reference row together |
| Workspaces.Workspace.RenameVariable | internal/deployment/workspace.go:285-340 | every rejection in the order of the code, or the row re-sealed and all reference rows moved |
| Workspaces.Workspace.DeleteVariable | internal/deployment/workspace.go:342-366 | refused for bucket variables and reference targets, else row and reference row go |
| Workspaces.Workspace.BindDatabase | internal/deployment/operations.go:354-408 | three transactions, with any edits of others between them and a crash after any of them; a rejection changes nothing |
| Workspaces.Workspace.LinkDatabase | internal/deployment/operations.go:401-405 | the second transaction: one reference row |
| Workspaces.Workspace.MarkReference | internal/deployment/operations.go:406-407 | the third transaction: the variable, if there, becomes a reference |
| Workspaces.Workspace.Perform | internal/deployment/workspace.go:173-366 | any other request as one transaction |
| Workspaces.Workspace.CreateBucket | internal/deployment/buckets.go:56-73 | one new bucket with credentials sealed for it |
| Workspaces.Workspace.BindBucketVariables | internal/deployment/buckets.go:107-120 | writes the six variables and nothing else |
| Workspaces.Workspace.BindBucket | internal/deployment/buckets.go:122-191 | every rejection in the order of the code, or variables and binding together |
| Workspaces.Workspace.RotateBucketCredentials | internal/deployment/buckets.go:193-248 | the credentials and the variables of all bindings change together |
| Workspaces.Workspace.UnbindBucket | internal/deployment/buckets.go:250-268 | binding and six variables go together |
| ReferenceGraph.AddReference | internal/deployment/workspace.go:249-258 | a reference that passes the cycle check keeps the graph acyclic |
| ReferenceGraph.CycleBreaks | internal/deployment/workspace.go:249-258 | a reference that fails the cycle check would close a cycle |
| ReferenceGraph.AcyclicHasNoCycle | internal/deployment/workspace.go:46-50 | in an acyclic graph no service reaches itself |
| VariableInvariant.SetVariableInv | internal/deployment/workspace.go:173-220 | keeps the invariant: acyclic references from applications only, a value for every variable, at most 64, binding variables intact |
| VariableInvariant.SetReferenceInv | internal/deployment/workspace.go:222-283 | keeps the invariant: acyclic references from applications only, a value for every variable, at most 64, binding variables intact |
| VariableInvariant.RenameVariableInv | internal/deployment/workspace.go:285-340 | keeps the invariant: acyclic references from applications only, a value for every variable, at most 64, binding variables intact |
| VariableInvariant.DeleteVariableInv | internal/deployment/workspace.go:342-366 | keeps the invariant: acyclic references from applications only, a value for every variable, at most 64, binding variables intact |
| VariableInvariant.AddDatabaseInv | internal/deployment/operations.go:338-349 | keeps the invariant: acyclic references from applications only, a value for every variable, at most 64, binding variables intact |
| VariableInvariant.BindDatabaseInv | internal/deployment/operations.go:354-408 | keeps the invariant: acyclic references from applications only, a value for every variable, at most 64, binding variables intact |
| VariableInvariant.LinkDatabaseInv | internal/deployment/operations.go:401-405 | the reference row keeps the invariant unless it starves its variable |
| VariableInvariant.MarkReferenceInv | internal/deployment/operations.go:406-407 | marking the variable keeps the invariant unless it is a bucket's or empty |
| VariableInvariant.FieldNameInjective | internal/deployment/buckets.go:75-84 | a variable name determines its prefix and its suffix |
| BucketBindings.CreateBucketInv | internal/deployment/buckets.go:56-73 | keeps the invariant |
| BucketBindings.BindBucketInv | internal/deployment/buckets.go:122-191 | keeps the invariant: the variables equal the bucket, nobody else's change, at most 64 |
| BucketBindings.RotateBucketCredentialsInv | internal/deployment/buckets.go:193-248 | keeps the invariant: every binding shows the new credentials |
| BucketBindings.WritesAll | internal/deployment/buckets.go:107-120 | the six variables get the bucket's fields and every other variable stays |
| BucketBindings.UnbindUndoesBind | internal/deployment/buckets.go:250-268 | disconnecting takes back exactly what connecting added |
| VariableResolution.ResolutionIsTotal | internal/deployment/workspace.go:46-81 | resolution never reports a cycle and gives every variable a value |
| VariableResolution.VisitingIsNotNeeded | internal/deployment/workspace.go:46-51 | resolution equals plain recursion without the visiting set |
| VariableResolution.EnvironmentExists | internal/deployment/workspace.go:16-45 | every service has an environment |
| VariableResolution.BindingIsCurrent | internal/deployment/buckets.go:75-120 | a binding's variable resolves to the bucket's current field or credential |
| VariableResolution.NothingCrossesPlaces | internal/deployment/workspace.go:239-246 | every value that a service sees was stored for a service of the same project and environment |
| VariableResolution.SetMeans | internal/deployment/workspace.go:173-220 | the set variable, and exactly what resolution leads from to it, however indirectly, now shows the new value; everything else shows what it did |
| VariableResolution.ReferenceMeans | internal/deployment/workspace.go:222-283 | the new reference, and exactly what leads to it, now shows its target's value; everything else shows what it did |
| VariableResolution.DeleteKeepsOthers | internal/deployment/workspace.go:342-366 | a deleted variable is gone and every other keeps its value |
| VariableResolution.RenameKeepsValues | internal/deployment/workspace.go:285-340 | every variable of every service resolves as before, the renamed one under its new name, exactly unless it adopts the reference row that a deleted variable left at the new name |
| VariableResolution.RenameKeepsEnvironments | internal/deployment/workspace.go:285-340 | then other environments are unchanged and the service's own has one key moved |
| VariableResolution.UnbindBucketExactly | internal/deployment/buckets.go:250-268 | disconnecting stops exactly the variables that refer to the six, however indirectly; all others keep their value |
| VariableResolution.LinkDatabaseExactly | internal/deployment/operations.go:401-405 | whatever was edited before, every variable resolves after the reference row exactly unless it starves its variable; then that and exactly its referrers stop |
| VariableResolution.MarkReferenceExactly | internal/deployment/operations.go:406-407 | whatever was edited before, every variable resolves after marking exactly unless the variable is empty; then that and exactly its referrers stop |
| VariableResolution.BoundVariableExactly | internal/deployment/operations.go:401-407 | what the two transactions do to a bucket's variable that took the name: the row changes nothing, marking exactly unless the row leads to another value or the field is empty |
| VariableResolution.BindingIsNeverInterrupted | internal/deployment/operations.go:398-408 | after each of the three transactions the variable resolves to the connection string |
| VariableRuns.EditsKeepInvariant | internal/deployment/workspace.go:173-366 | every run of edits keeps the invariant, the transactions of a binding being edits of their own |
| VariableRuns.BindingIsConsiderate | internal/deployment/operations.go:354-408 | a binding that nobody comes in between is such a run, wherever a crash ends it |
| VariableRuns.ReachableStates | internal/deployment/workspace.go:46-81 | in every reachable state, between the transactions of a binding too: only applications refer, references and bindings stay within a project and environment, no cycle, a value for every variable, at most 64 each, and bindings that mirror their buckets |
| VariableRuns.SecretsStayInPlace | internal/deployment/workspace.go:239-246 | so it is in every reachable state |
| VariableExactly.SetVariableExactly | internal/deployment/workspace.go:173-220 | when a variable can be set |
| VariableExactly.SetReferenceExactly | internal/deployment/workspace.go:222-283 | when a reference can be made |
| VariableExactly.RenameVariableExactly | internal/deployment/workspace.go:285-340 | when a variable can be renamed |
| VariableExactly.DeleteVariableExactly | internal/deployment/workspace.go:342-366 | when a variable can be deleted |
| VariableExactly.BindBucketExactly | internal/deployment/buckets.go:122-191 | when an application can be connected to a bucket |
| VariableExactly.RotateExactly | internal/deployment/buckets.go:193-248 | new credentials are taken exactly for a bucket that is there; only the variables that its bindings occupy change |
| VariableExactly.UnbindExactly | internal/deployment/buckets.go:250-268 | disconnecting takes exactly the six variables away |
| VariableExactly.SealsAreNotInterchangeable | internal/secrets/cipher.go:33-43 | what was sealed for one variable cannot be read, renamed or resolved as another's |
| VariableExactly.BucketSealsAreNotInterchangeable | internal/secrets/cipher.go:33-43 | nor can the credentials of one bucket be used as another's |
| VariableExactly.CreateBucketExactly | internal/deployment/buckets.go:60-98 | a new bucket holds what it was created with, sealed for it alone |
| VariableExactly.BindDatabaseExactly | internal/deployment/operations.go:354-408 | when a database can be bound, and that the name is then a reference to what it offers, with the connection as fallback |
| VariableExactly.AddedExactly | internal/deployment/operations.go:308-353 | a new service brings no variables but those of its template |
| VariableExactly.ConnectionUsesCredentials | internal/deployment/operations.go:373-397 | the connection of a new database is made of the user, password, host, port and database name in its environment |
| VariableExactly.BoundNamesAreIdentifiers | internal/deployment/buckets.go:75-84 | the six names of a binding are names that variables may have |
| VariableExactly.BindingShows | internal/deployment/buckets.go:75-84 | what a connected application sees, name by name |
| VariableExactly.NewDatabaseConnects | internal/deployment/operations.go:375-394 | what a new database's environment gives for its connection, kind by kind |
| VariableExamples.ReferredBucketDisconnected | internal/deployment/buckets.go:250-268 | a run from nothing that ends by disconnecting a bucket: the variable that referred to it showed the bucket before, is still there, and no longer resolves |
| VariableExamples.ReferenceInBetween | internal/deployment/operations.go:398-405 | a run from nothing in which the bound variable is made a reference between the first two transactions of its binding: it shows its value after each step until the second transaction, which leaves it there without a value |
| VariableExamples.EmptiedInBetween | internal/deployment/operations.go:401-407 | a run from nothing in which the bound variable is emptied between the last two transactions: it resolves after each step until the last transaction, which leaves it there without a value |
| VariableExamples.RenameAdopts | internal/deployment/workspace.go:285-340 | a run in which a rename makes a variable show another value |
| Archives.VolumeArchive | scripts/host-recovery.py:61-126 | accepts exactly the acceptable archives and returns their total size |
| Archives.CheckMember | scripts/host-recovery.py:69-74 | accepts exactly the names without parent parts and unsafe characters |
| Archives.CheckEntry | scripts/host-recovery.py:77-92 | accepts exactly the entries that are safe by themselves |
| Archives.ResolveLink | scripts/host-recovery.py:102-125 | the loop computes the splicing resolution and terminates |
| ArchiveLinks.SpliceIsExact | scripts/host-recovery.py:102-125 | a link is accepted exactly when its nested resolution stays inside and needs at most forty expansions |
| ArchiveLinks.SpliceFollowsWalk | scripts/host-recovery.py:124-125 | splicing carries out a nested resolution and goes on with the rest |
| ArchiveLinks.WalkOfSplice | scripts/host-recovery.py:102-125 | every accepted splicing run is a nested resolution |
| ArchiveLinks.WalkIsUnique | scripts/host-recovery.py:102-125 | nested resolution is a function |
| ArchiveLinks.PathStaysInside | scripts/host-recovery.py:95-125 | through accepted links every path without parent parts ends inside |
| Archives.AcceptedStaysInside | scripts/host-recovery.py:61-126 | in an accepted archive every path without parent parts resolves inside the volume |
| Archives.EntriesLandInPlace | scripts/host-recovery.py:95-99 | no entry of an accepted archive is written through a link |
| ArchiveTree.HardLinksAreFiles | scripts/host-recovery.py:99-102 | every hard link of an accepted archive names an archived regular file |
| ArchiveTree.TreeLinksAreArchived | scripts/host-recovery.py:61-102 | while it is unpacked and after, the symbolic links of the tree are those of the archive: no hard link is another name of one |
| ArchiveTree.TreeIsConfined | scripts/host-recovery.py:61-126 | in the unpacked tree every path without parent parts ends inside the volume, and no link target is absolute |
| ArchiveTree.NothingIsWrittenThroughLinks | scripts/host-recovery.py:95-102 | when an entry is unpacked, no directory above it or above its hard link's target is a symbolic link |
| ArchivePaths.SplitJoin | scripts/host-recovery.py:106-125 | a joined path determines its components |
| ArchiveExactly.AcceptableExactly | scripts/host-recovery.py:61-126 | an archive is accepted exactly if every entry passes, no two have one path, no symbolic link is a directory above an entry, every hard link names an archived regular file, and every symbolic link, followed as a file system does, ends inside after at most forty links |
| ArchiveExactly.EntryExactly | scripts/host-recovery.py:61-92 | an entry passes by itself exactly under conditions on the text of its names, the depth its link's target reaches, and its kind |
| ArchiveExactly.NormalFormClimbsExactly | scripts/host-recovery.py:65-67 | the normal form of a path starts with a parent part exactly if some first part of the path leads above its start |
| ArchiveExactly.ComponentsExactly | scripts/host-recovery.py:72 | splitting a path gives exactly the words between its slashes |
| BuildStores.BuildStore.constructor | internal/builds/store.go:13-16 | no builds over a given deployment store |
| BuildStores.BuildStore.SaveSource | internal/builds/store.go:38-45 | the source of a service is replaced |
| BuildStores.BuildStore.Enqueue | internal/builds/store.go:46-92 | every rejection in the order of the code, the earlier build of a repeated key, or one new build |
| BuildStores.BuildStore.Push | internal/builds/store.go:93-139 | a known delivery changes nothing; a new one queues a build for every service that follows the branch, or is undone as a whole |
| BuildStores.BuildStore.Claim | internal/builds/store.go:160-182 | loops over the sweep, then starts the oldest ready build |
| BuildStores.BuildStore.Report | internal/builds/store.go:183-203 | token, status and cancellation conditions of the update |
| BuildStores.BuildStore.Cancel | internal/builds/store.go:204-213 | requests cancellation of an open build and ends a queued one |
| BuildStores.BuildStore.HandOver | internal/builds/store.go:234-238 | the first commit: the deployment is requested under the build's key |
| BuildStores.BuildStore.ReadUnrecorded | internal/builds/store.go:217-233 | the ten oldest succeeded builds without a deployment, in order, with their images |
| BuildStores.BuildStore.HandOverAndRecord | internal/builds/store.go:234-242 | the two commits of one build, with a crash before either of them or a refusal of the first |
| BuildStores.BuildStore.Flush | internal/builds/store.go:216-245 | a flush hands over and records the ten oldest waiting builds in order and nothing else; unless a crash or a refusal stopped it, all of them are recorded |
| BuildModel.Requested | internal/builds/store.go:56-67 | finds the build of a request key, if there is one |
| BuildModel.FirstReady | internal/builds/store.go:169 | the oldest due open build, or proof that there is none |
| BuildRuns.BuildKeyInjective | internal/builds/store.go:235 | two builds never share a key |
| BuildRuns.StepInv | internal/builds/store.go:46-245 | every step keeps the invariant and only moves builds forward |
| BuildRuns.RunInv | internal/builds/store.go:46-245 | so does every run, with crashes and anything else in the store in between |
| BuildRuns.OneDeploymentPerBuild | internal/builds/store.go:215-245 | at most one deployment was ever made for a build, and a recorded one is that one |
| BuildRuns.OneBuildPerDeployment | internal/builds/store.go:235 | no deployment was made for two builds |
| BuildRuns.CancelledNeverSucceeds | internal/builds/store.go:183-213 | a build asked to stop never succeeds and is never handed over |
| BuildRuns.CancelPrevails | internal/builds/store.go:204-213 | a cancellation is accepted exactly for an open build, which then never succeeds |
| BuildRuns.PushReachesEveryFollower | internal/builds/store.go:93-139 | an accepted new delivery leaves every following service with exactly one build of the pushed commit |
| BuildRuns.BoundedBuilds | internal/builds/store.go:68-75 | at most ten open builds per service and three attempts each |
| BuildRuns.RepeatedDelivery | internal/builds/store.go:93-107 | an accepted delivery adds nothing ever again |
| BuildRuns.HandOverRecovers | internal/builds/store.go:215-245 | after a crash between the commits a later flush gets the same deployment back exactly when the image is still the same and the start command valid |
| BuildAttempts.ClaimExactly | internal/builds/store.go:160-182 | a claim ends exactly the open builds that are spent and starts the oldest one that is due with time and attempts left |
| BuildAttempts.AbandonedGetsThree | internal/builds/store.go:160-182 | a build that nobody reports on is started three times and then ends |
| BuildExactly.EnqueueExactly | internal/builds/store.go:46-92 | when a build is queued, and what a repeated key gets |
| BuildExactly.PushExactly | internal/builds/store.go:93-139 | a delivery queues builds of the pushed commit for following services and no others, and changes nothing else |
| BuildExactly.SaveSourceExactly | internal/builds/store.go:38-45 | when a source is saved, and that no other service's source changes |
| BuildExactly.CancelExactly | internal/builds/store.go:204-213 | accepted exactly for an open build, which ends at once if it waits |
| BuildExactly.HandOverExactly | internal/builds/store.go:234-238 | the deployment is of the image read, with port, health path and command of the build |
| BuildExactly.ChosenExactly | internal/builds/store.go:216-226 | a flush takes a build exactly if it succeeded, has no deployment recorded, and fewer than ten older ones wait |
| BuildReports.ReportExactly | internal/builds/store.go:183-203 | when a report counts, and that it is stored as it was made |
| BuildReports.SucceededExactly | internal/builds/store.go:183-203 | over every run: a build has succeeded only if a report in force said so, and its image is that of the last accepted report |
| BuildReports.FailureIsFinal | internal/builds/store.go:183-203 | a failure or cancellation reported in force is final, and such a build never gets a deployment |
| BuildReports.DeployedImagesWereReported | internal/builds/store.go:215-245 | every deployment returned for a build runs an image that a report in force named as its success |
| BuildReports.BuildDeploymentsRunReportedImages | internal/builds/store.go:215-245 | so does every deployment under a build's key, unless somebody asked the store directly for one under that key |
| BuildExamples.ReportedAnew | internal/builds/store.go:183-245 | a run in which a build is reported again with another image before its deployment is recorded: the hand-over is refused |
| Demux.Reader.ReadFull | internal/runtime/docker/backup.go:17-23 | fills the buffer, or tells a clean end from a broken one |
| Demux.Reader.CopyN | internal/runtime/docker/backup.go:34 | copies the bytes that are there and that the output takes, and tells an early end from a failed write |
| Demux.CopyDockerOutput | internal/runtime/docker/backup.go:14-38 | both outputs and the result are those of copying the source into outputs that take no more than they have room for |
| Frames.WriteFailsExactly | internal/runtime/docker/backup.go:14-38 | a write fails exactly when the decoded bytes do not fit the outputs; then one output is full and the other has what came before, and otherwise both have all that was decoded |
| Frames.RoundTrip | internal/runtime/docker/backup.go:14-38 | decoding encoded frames gives the payloads of streams 1 and 2 in order |
| Frames.DecodeEncoded | internal/runtime/docker/backup.go:14-38 | the same in front of any further source |
| Frames.SucceedsOnWholeFrames | internal/runtime/docker/backup.go:14-38 | decoding succeeds exactly on a whole number of frames |
| Frames.TruncationIsAnError | internal/runtime/docker/backup.go:17-23 | a source that breaks off inside a frame is an error, with everything before it written |
| Frames.FirstFrameExactly | internal/runtime/docker/backup.go:24-36 | what the four length bytes say, the limit of eight mebibytes, and which stream goes to which output |
| Frames.LengthOfBigEndian | internal/runtime/docker/backup.go:24 | the four length bytes and the length determine each other |

## Left out

Parameters of the model:

- Validators, template look-ups and the resolution of variables at enqueue are outcomes passed in by the caller; the next occurrence of a cron schedule is a parameter that lies after now, or none.
- Time: PostgreSQL's clock and the agent's or server's own clock are one clock in microseconds; `5*power(2,attempt)::int` never leaves the integers because attempts stop at three.
- Failures of the database or of the network inside a transaction change nothing and are not modelled; transactions are atomic, so races between a guard outside a transaction and the transaction are not.
- Encryption: a sealed value opens only for the purpose it was sealed for; hashing: the content behind a request key is compared itself; random identities and tokens are fresh numbers.
- Go's clock skew, request timeouts and the agent's execution lock appear only as faults and as the fact that one agent reports.

Not modelled:

- Ties: rows with equal times are ordered by their random identity in the code and by creation in the model.
- Names, uniqueness of names, projects, environments, domains, networking and runtime settings, start commands, memory and CPU limits.
- Logs, messages, deployment events and redaction; a report without a status changes only logs. The HTTP handler's own check of stage names (`internal/api/api.go:233-238`).
- RunAction and RunCron, the one-shot runs of the agent, backups and restores beyond their place in the queue: in AgentLoop they touch their own service's containers and route in any way and report, and a start, stop or restart of a service, which takes its route away on purpose, ends what is promised of it until the next pass.
- The clean-up of finished cron runs and one-shot containers, builds between two claims, and metrics.
- WatchCancellation, the polling that ends a job's context: a job may be over at any time.
- The text of each rejection of an archive: the reason returned is not specified, only whether the archive is accepted. Reading the tar format itself.
- ToUpper and TrimSpace on a bucket prefix and on bucket fields: they are taken as already normalised.
- GitHub, registries and the execution of builds; a build's log. Whether a push's signature is right.
- Canvas projection, schedules' syntax, migrations, sessions, certificates, the web interface.

Stated with a condition:

- StoreRuns.ExclusiveVolumes: only over runs in which no accepted settings form takes a volume from another service; StoreRuns.SharedExactly says when it matters.
- StoreProgress.SnapshotIsAttachment: only while no settings form has taken a volume from another service.
- VariableRuns.ReachableStates: only over runs in which no bucket is disconnected while something refers to its variables, and no edit between the transactions of a binding makes the next one do harm; the lemmas named above say exactly when they would.
- VariableResolution.RenameKeepsEnvironments: only when the renamed variable adopts no row; VariableResolution.RenameKeepsValues says that this is exact.
- AgentLoop.LoopKeepsServing: only over runs in which the service stays public and without a volume and is not acted on; AgentLoop.RecoveryHarmsExactly and AgentLoop.CleanUpExactly say exactly what the other two conditions exclude.
- RunnerSafety.SingleWriter: per attempt, recovery included; a pass after an attempt that was cut off breaks it, and AgentLoop.PassAddsWriterExactly says exactly when.
- StoreBackups.ActionHoldsExactly: only over runs in which no accepted settings form takes a volume from another service.
- Demux.Reader.CopyN: what a failed write leaves in the source is not specified; nothing reads it afterwards.
- BuildReports.DeployedImagesWereReported: only over runs in which the image of a hand-over is one that a flush has read from the build; the parameter of the step could otherwise be any text.
