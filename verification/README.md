# InitPad protocols in Dafny

InitPad is a deployment control plane. Its hard part is a handful of protocols that have
to survive lost messages, crashes, stale workers and concurrent replicas. This project
models those protocols and proves what they promise.

How things are modelled:

- A database row is a record. A guarded update (`updateMany` with a `where`) is one atomic
  assignment; a read is an earlier, separate step. Where several replicas or requests race,
  the model is a state machine over events, and theorems are about every run of it.
- Code that changes things step by step is a class with the source's steps as methods. Each
  call that leaves the process meets a *fate* (`Common.Fate`): it succeeds, fails, takes
  effect although it reports a failure, or the process dies before it. A tape of fates is an
  arbitrary input, so a postcondition that allows `Died` holds at every step of a method.
- Tokens are fresh values, hashes and ETags are injective, the cipher is ideal.

The modules:

| file | what it is about |
|---|---|
| `PlatformUpdate.dfy` | the Supervisor's self-update and its recovery |
| `CredentialRotation.dfy` | the two-party rotation of Agent credentials |
| `JobLeases.dfy`, `JobWorker.dfy` | Agent jobs under fenced leases, server and Agent side |
| `Workflow.dfy` | the deployment workflow: rows, transactions, handlers, events |
| `WorkflowSafety.dfy` | what every run of it keeps |
| `WorkflowServing.dfy`, `WorkflowCounterexample.dfy` | when "running" means "serving", and when it does not |
| `AgentJobs.dfy` | the API's handlers as code, refining the workflow |
| `CaddyRoutes.dfy` | the owned route in a configuration that others edit too |
| `GatewayActivation.dfy` | activation and rollback of a gateway route |
| `DockerDeploy.dfy` | candidate publication on Docker |
| `ParkReplace.dfy` | replacing a container in place: Agent and gateway edge |
| `ArtifactFence.dfy` | publication of a build artifact by competing replicas |
| `SecretSweep.dfy`, `MailOutbox.dfy`, `RateLimit.dfy`, `ConcurrencyMap.dfy` | re-encryption, mail, rate limiting, bounded concurrency |

Promises that the code does not keep in full are stated with the exact condition under which
it keeps them, and with a concrete input or run that breaks them:

- A managed environment that is unlocked and marked running is served at its version, unless
  the error handler of a workload projection ran after its route job was claimed, with a
  stale snapshot, or beside another projection of the same job (`CatchIsHarmless`,
  `FalseClaimBreaks`, `LeftoverRouteBreaks`, `RivalBreaks`, `RunningWithoutServing`).
- A lease deadline the Agent records is covered by the stored expiry, unless a renewal reached
  the database with a clock reading older than the lease it replaces (`CoveredIffTimely`,
  `DelayedRenewalBreaksExclusion`); under one clock with requests in order it always is
  (`OneClockExclusion`).
- A repeated completion that differs is refused, unless it is that of a gateway preflight and
  differs in the gateway fingerprint only (`CompletionIsFinal`, `DifferingFingerprintIsAccepted`).
- A platform update can be recovered, unless the file system refused to put the old override
  back, or to remove the new one, and the failure was recorded as the end
  (`RecoverInterruptedUpdate`, `RefusedRenameStrands`, `RefusedRemovalStrands`), or unless the
  helper's own rollback was cut short between override and record (`ApplyPlan`,
  `RefusedCopyAbandons`).
- A gateway rollback spares what serves, unless the route dialed the very workload of the job
  and its upstream was not resolved yet, or its port changes (`RunActive`,
  `FailedRedeployStopsServing`); a failed deactivation that reports the previous route as
  serving restores the route but not the network (`RunInactive`, `RestoredButUnreachable`).
- Replacing a container in place brings the original back, unless it fails before parking or
  the removal of the original takes effect although it fails (`Apply`,
  `FailedStopLosesOriginal`).
- A deployment leaves its candidate name free, unless the published container already matched
  while a candidate was left over (`Deploy`).
- A message is over after eight attempts, unless workers die while sending it
  (`EightAttempts`, `MoreThanEightAttempts`, `CrashesAddAttempts`).

## Model

| member | source | states |
|---|---|---|
| PlatformUpdate.Host.UpdateAndRecover | apps/supervisor/src/updater.ts:369-658 | a helper killed anywhere, recoveries killed anywhere any number of times, then one recovery without faults: it returns, and everything is old, or everything is new and the operation is recorded as succeeded; nothing was switched before the backup was verified and the images pulled (no file operation refused before) |
| PlatformUpdate.Host.ApplyPlan | apps/supervisor/src/updater.ts:472-658 | with any failures, removals included: after the helper returns, throws or dies the update can be completed or undone, exactly unless the fates of its calls show that the rollback leaves the override of one release with the record of the other, or loses the saved override that recovery needs; which override is in place at the end, and whether it succeeds, is read from the calls; a held lock changes nothing |
| PlatformUpdate.Host.RecoverInterruptedUpdate | apps/supervisor/src/updater.ts:369-470 | recovery keeps the installation recoverable exactly unless, read from state and calls, the rename, or for an installation that had no override the removal, that restores the old state fails while the new override is in place and the failure is then recorded; a settled installation is left alone; without faults it returns, and one that returns leaves the installation settled |
| PlatformUpdate.RefusedRenameStrands | apps/supervisor/src/updater.ts:408-463 | recovery run from a concrete state: the refused rename is recorded as a terminal failure with the new override in place, and the installation can not be recovered any more |
| PlatformUpdate.RefusedRemovalStrands | apps/supervisor/src/updater.ts:416-469 | the same for an installation that had no override, when the removal of the new one is refused |
| PlatformUpdate.RefusedCopyAbandons | apps/supervisor/src/updater.ts:472-658 | an update run from a concrete state: the API does not start, the saved override can not be copied back, and the rollback is recorded with the new override in place |
| PlatformUpdate.Host.Undo | apps/supervisor/src/updater.ts:397-457 | undoing restores the descriptor and the API and web containers of the old release, records the terminal operation and removes plan, saved override and lock; a Supervisor that was already switched is started without an override |
| PlatformUpdate.Host.RestoreOverride | apps/supervisor/src/updater.ts:399-421 | the override becomes the old one or stays, exactly as the rename, or the removal of an override that was not there before, succeeds or fails; a missing saved override of a signed installation is refused instead of removing the release definition |
| PlatformUpdate.Host.Install | apps/supervisor/src/updater.ts:487-616 | the steps up to the recorded release: while it can be interrupted the operation stays in flight with the old release recorded, and the override changes only once the backup is verified and all images are pulled |
| PlatformUpdate.Host.InstallOrRollBack | apps/supervisor/src/updater.ts:487-652 | main block and catch block: the new override stays exactly if it was put in place and no rollback takes it away; the update stays recoverable exactly unless override and record end with different releases; success exactly if every call succeeds |
| PlatformUpdate.Host.UnderLock | apps/supervisor/src/updater.ts:472-658 | the same with the lock held; it succeeds exactly if every call does, the three removals at the end included |
| PlatformUpdate.Host.RollBack | apps/supervisor/src/updater.ts:617-652 | rolling back restores override and recorded state exactly as the fates of its calls allow: a failing copy is swallowed, a failing removal ends it; then all three services are restarted with what was there before |
| PlatformUpdate.Host.Prepare | apps/supervisor/src/updater.ts:488-511 | before anything is switched the old override is saved under the operation's own name |
| PlatformUpdate.Host.BackUp | apps/supervisor/src/updater.ts:513-542 | succeeds only with a backup that was read back |
| PlatformUpdate.Host.Pull | apps/supervisor/src/updater.ts:548-550 | succeeds only with all three images pulled |
| PlatformUpdate.Host.SwitchService | apps/supervisor/src/updater.ts:558-598 | one service is recreated from the override in place and becomes ready |
| PlatformUpdate.Host.Finish | apps/supervisor/src/updater.ts:599-616 | records release and success in one write before the saved override is removed; a removal that fails throws with the new release recorded |
| PlatformUpdate.Host.CleanUp | apps/supervisor/src/updater.ts:653-657 | plan, saved override and lock are removed in this order, and the first removal that fails is the last |
| PlatformUpdate.Host.CleanUpAfter | apps/supervisor/src/updater.ts:653-657 | what the last block removes harms exactly an update that still depends on the saved override |
| CredentialRotation.NeverStranded | apps/api/src/agents/agents.service.ts:220-384 | in every run with lost or delayed requests, Agent crashes, lost compare-and-set races and reissued pending credentials, the Agent's disk holds the active credential as its current or previous one, and no identity check of an accepted heartbeat ever fails |
| CredentialRotation.RunKeeps | apps/api/src/agents/agents.service.ts:220-384 | the invariant over server row, Agent disk and memory, and all requests and replies in flight is kept by every event of every run |
| CredentialRotation.ActivationKeeps | apps/api/src/agents/agents.service.ts:239-263 | promoting the pending credential, guarded by the row still holding it, keeps the invariant although the request was identified earlier |
| CredentialRotation.RecordKeeps | apps/api/src/agents/agents.service.ts:239-295 | a heartbeat recorded late, after the row has moved on, is refused or keeps the invariant |
| CredentialRotation.IssueKeeps | apps/api/src/agents/agents.service.ts:310-343 | issuing or reissuing a pending credential never displaces one the Agent may already have saved and can still be asked for |
| CredentialRotation.SaveKeeps | apps/agent/src/credential-rotation.ts:52-64 | saving the next configuration before using it keeps the invariant at the moment of the write |
| CredentialRotation.CrashKeeps | apps/agent/src/runtime.ts:37-83 | losing the Agent's memory at any moment keeps the invariant |
| CredentialRotation.RestartIsReady | apps/agent/src/runtime.ts:37-83 | after any run, a restarted Agent starts from a state in which HeartbeatOnce is guaranteed to work |
| CredentialRotation.AgentRuntime.HeartbeatOnce | apps/agent/src/runtime.ts:37-83 | whatever network and disk do, both configurations keep the active credential; without faults the heartbeat succeeds, with the previous credential if need be, and leaves no previous credential |
| CredentialRotation.AgentRuntime.UsePrevious | apps/agent/src/runtime.ts:55-71 | after a refusal the previous credential is tried, saved and adopted; it is the active one |
| CredentialRotation.AgentRuntime.ReconcileCredentialRotation | apps/agent/src/credential-rotation.ts:30-76 | a rotated credential is saved next to the old one before it is used, and the old one is dropped only after confirmation; without faults it ends with the active credential alone |
| CredentialRotation.AgentRuntime.Confirm | apps/agent/src/credential-rotation.ts:55-65 | a pending credential that was saved is accepted, and then stands alone |
| CredentialRotation.AgentsService.Activate | apps/api/src/agents/agents.service.ts:239-263 | compare-and-set of the pending credential |
| CredentialRotation.AgentsService.IssueRotation | apps/api/src/agents/agents.service.ts:310-343 | compare-and-set of a fresh pending credential, one generation up |
| CredentialRotation.AgentsService.Respond | apps/api/src/agents/agents.service.ts:220-346 | a heartbeat handled without interruption |
| CredentialRotation.HeartbeatIsThreeSteps | apps/api/src/agents/agents.service.ts:220-346 | handled without interruption, a heartbeat is exactly the identify, record and answer steps of the interleaved protocol |
| JobLeases.LeaseExclusion | apps/api/src/agents/agent-job-leases.ts:36-122 | with timely renewals, another claim of a leased job succeeds only at or after every deadline handed out for its token, in every run from an empty table |
| JobLeases.OneClockExclusion | apps/api/src/agents/agent-job-leases.ts:36-122 | under one clock that never goes back, with requests taking effect in the order of their readings: no other claim of a leased job succeeds before a deadline handed out for its token, in every run from an empty table |
| JobLeases.OneClockIsTimely | apps/api/src/agents/agent-job-leases.ts:36-104 | under such a clock every renewal is timely |
| JobLeases.LapsedIsNotRevived | apps/api/src/agents/agent-job-leases.ts:36-122 | under such a clock a lapsed lease is not revived by any run: the job stays as it is, or is cancelled, or belongs to another claim, and its token opens no fence |
| JobLeases.CoveredIffTimely | apps/api/src/agents/agent-job-leases.ts:90-122 | one event keeps every deadline handed out at or below the stored expiry exactly if it is not a renewal older than the lease it replaces |
| JobLeases.DelayedRenewalBreaksExclusion | apps/api/src/agents/agent-job-leases.ts:90-104 | a concrete run: a renewal that was delayed before its write shortens the lease, and the job is claimed again while the Agent believes it holds it |
| JobLeases.SupersededForever | apps/api/src/agents/agent-job-leases.ts:106-122 | with any clock, a token from an earlier attempt never passes a fence of the job again |
| JobLeases.ClaimSupersedes | apps/api/src/agents/agent-job-leases.ts:51-80 | a claim supersedes the token the job was leased under |
| JobLeases.StepAdvances | apps/api/src/agents/agent-job-leases.ts:51-80 | an accepted claim or report moves (attempt, sequence) strictly forward in lexicographic order, nothing else moves it, and a finished job does not change |
| JobLeases.RunAdvances | apps/api/src/agents/agent-jobs.service.ts:487-524 | over every run (attempt, sequence) never falls back and terminal statuses are absorbing |
| JobLeases.CompletionIsFinal | apps/api/src/agents/agent-jobs.service.ts:533-660 | after a completion, whatever happens to the rows, completing again changes nothing and is accepted, with the same outcome, exactly if an authorised caller sends the same report, or, for a gateway preflight, one that differs in the gateway fingerprint only |
| JobLeases.DifferingFingerprintIsAccepted | apps/api/src/agents/agent-jobs.service.ts:533-660 | a concrete repeated report that differs in the gateway fingerprint only and is accepted |
| JobLeases.AgentJobTable.FindCandidate | apps/api/src/agents/agent-job-leases.ts:37-50 | the oldest claimable job, or none if there is none |
| JobLeases.AgentJobTable.ClaimOnce | apps/api/src/agents/agent-job-leases.ts:36-88 | a claim that others may overtake between read and write: empty only if nothing is claimable for this caller, overtaken only if the guard fails on the rows as they are then, and otherwise that guarded write, under a fresh token that passes the fence |
| JobLeases.AgentJobTable.ClaimNext | apps/api/src/agents/agent-jobs.service.ts:384-453 | up to three rounds; a claim it returns holds the lease, it comes back without one only if nothing is claimable or three claims were overtaken, and no job falls back whatever others do |
| JobLeases.AgentJobTable.RenewLease | apps/api/src/agents/agent-job-leases.ts:90-104 | extends exactly an active lease of this token |
| JobLeases.AgentJobTable.ReportProgress | apps/api/src/agents/agent-jobs.service.ts:487-524 | stores exactly a newer report under an active lease; an older one is answered but not stored |
| JobLeases.AgentJobTable.CompleteJob | apps/api/src/agents/agent-jobs.service.ts:533-660 | refuses a gateway fingerprint for any job but a gateway preflight; stores the first completion under an active lease, compares later ones |
| JobWorker.JobExecution.RetryProtocolCall | apps/agent/src/job-worker.ts:153-173 | retries only after trouble, with pauses of 500, 1000 and then 2000 ms; no retry starts at or after the deadline recorded at that time; it gives up only when, right after a reply, the next pause would outlast the lease; the recorded deadline is always one that was granted |
| JobWorker.JobExecution.RenewLeaseLoop | apps/agent/src/job-worker.ts:955-986 | aborts the job if and only if a renewal was refused or not to be had before the deadline; the recorded deadline is the one that the last renewal was answered |
| JobWorker.DeadlineExcludes | apps/agent/src/job-worker.ts:175-183 | both sides together, under one clock: before the deadline that a job execution has recorded, nobody else can claim its job |
| Workflow.FailedPhase | apps/api/src/domain/deployment-operation-state.ts:18-24 | a failure always ends in one of the two phases of failure |
| WorkflowSafety.RunKeeps | apps/api/src/agents/agent-jobs.service.ts:662-1317 | every interleaving of deliveries, Agent reports, replays, failed calls and crashes keeps the invariant, and operations only move forward |
| WorkflowSafety.SettlesExactlyOnce | apps/api/src/agents/agent-jobs.service.ts:828-1317 | an operation is running if and only if the environment names it as active; its phase rank never decreases; once settled it never changes and never holds the environment again |
| WorkflowSafety.SettledReplaysAreIdle | apps/api/src/agents/agent-jobs.service.ts:828-954 | once an operation is settled, no handler or replay of it changes the environment or any operation |
| WorkflowSafety.TeardownRemovesRouteFirst | apps/api/src/agents/agent-jobs.service.ts:998-1045 | the workload job of a managed stop or remove is blocked or cancelled until the route job of that operation succeeded |
| WorkflowSafety.OneJobPerStep | apps/api/src/projects/project-agent-delivery.ts:59-161 | however often an operation is delivered it has at most one job per step |
| WorkflowSafety.FailedRouteCancelsWorkload | apps/api/src/agents/agent-jobs.service.ts:1257-1268 | a failed route step of a teardown cancels the workload job behind it in the same transaction |
| WorkflowSafety.TerminalJobsStay | apps/api/src/agents/agent-jobs.service.ts:828-1317 | a job that is over, in particular a cancelled one, stays as it is in every run |
| WorkflowSafety.LeaseEventsAreLeaseMoves | apps/api/src/agents/agent-job-leases.ts:36-122 | every claim, renewal, report and completion of JobLeases is a lease event of the workflow: the two models fit together |
| WorkflowSafety.FailManagedKeeps | apps/api/src/agents/agent-jobs.service.ts:1203-1297 | recording a failure keeps the invariant |
| WorkflowSafety.QueueRouteKeeps | apps/api/src/targets/gateway-routes.service.ts:206-265 | queueing a route, which cancels queued ones, keeps the invariant and never touches a finished job |
| WorkflowSafety.SettleKeeps | apps/api/src/agents/agent-jobs.service.ts:1299-1317 | ending an operation releases the environment it holds |
| WorkflowServing.RunningMeansServing | apps/api/src/agents/agent-jobs.service.ts:748-1297 | in every run whose executed error handlers were harmless: whenever a managed environment is unlocked and marked running, its route was last observed active at exactly its version |
| WorkflowServing.CatchIsHarmless | apps/api/src/agents/agent-jobs.service.ts:1090-1096 | the error handler of the workload projection keeps the invariant exactly if what it says about the route still holds, the route job it leaves behind cannot replace what serves, and no other projection is about to queue the route |
| WorkflowServing.FalseClaimBreaks | apps/api/src/agents/agent-jobs.service.ts:1203-1291 | an error handler that says the previous revision remains online when it does not breaks the promise at once |
| WorkflowServing.LeftoverRouteBreaks | apps/api/src/agents/agent-jobs.service.ts:1069-1096 | from every state of this kind: a route job that the Agent works on or has finished unobserved, left behind by an error handler that marks the environment running at another version, breaks the promise when it is finished and observed |
| WorkflowServing.RivalBreaks | apps/api/src/agents/agent-jobs.service.ts:1069-1096 | from every state of this kind: another projection of the same job that queues the route after the failure was recorded with another version online breaks the promise once the Agent has published that route |
| WorkflowServing.FailServes | apps/api/src/agents/agent-jobs.service.ts:1225-1291 | a recorded failure keeps the promise exactly if "remains online" is said only when the route still serves the environment's version |
| WorkflowServing.StepKeepsServing | apps/api/src/agents/agent-jobs.service.ts:748-1297 | every harmless step keeps the invariant behind the promise |
| WorkflowServing.WhatIsOver | apps/api/src/agents/agent-jobs.service.ts:956-1183 | what is known when a job of a running operation is over: which jobs exist, that the route has been observed, and that the snapshot is still right about it |
| WorkflowServing.FinishEndsWell | apps/api/src/agents/agent-jobs.service.ts:1110-1183 | ending a workflow with success keeps the promise |
| WorkflowServing.FailEndsWell | apps/api/src/agents/agent-jobs.service.ts:980-997 | every failure other than the error handler's keeps the promise |
| WorkflowServing.ObserveKeepsRoute | apps/api/src/agents/agent-jobs.service.ts:748-810 | observing a finished route job keeps the promise, also when its operation is long over |
| WorkflowServing.QueueKeepsRoute | apps/api/src/targets/gateway-routes.service.ts:206-265 | queueing the running operation's route keeps the promise |
| WorkflowCounterexample.RunningWithoutServing | apps/api/src/agents/agent-jobs.service.ts:1069-1096 | a concrete run from an empty environment: publishing the progress fails once the route job is queued and claimed, the failure is recorded with the old revision online, and the route job then publishes the new one |
| AgentJobs.AgentJobsService.ReplayJob | apps/api/src/agents/agent-jobs.service.ts:642-660 | a completion or replay, whatever fails: its calls, with the fates they meet, take the handler's state machine to its end; it keeps the invariant and moves operations forward only, dies exactly if a call kills the process, and without faults returns |
| AgentJobs.AgentJobsService.Reconcile | apps/api/src/agents/agent-jobs.service.ts:748-826 | what a completion or replay does to the rows is the run of the handler's state machine for the fates its calls meet, in order and in full |
| AgentJobs.AgentJobsService.ReconcileTerminalJob | apps/api/src/agents/agent-jobs.service.ts:812-954 | the same for the projection of a finished job, with or without managed gateway |
| AgentJobs.AgentJobsService.ProjectManagedJob | apps/api/src/agents/agent-jobs.service.ts:956-1183 | the same for all branches of the managed projection |
| AgentJobs.AgentJobsService.ProjectRouteRemoved | apps/api/src/agents/agent-jobs.service.ts:1008-1045 | the same for the route step of a teardown |
| AgentJobs.AgentJobsService.ProjectWorkloadReady | apps/api/src/agents/agent-jobs.service.ts:1047-1098 | the same for the workload step of a deploy or start, including its error handler |
| AgentJobs.AgentJobsService.FailManagedOperation | apps/api/src/agents/agent-jobs.service.ts:1203-1297 | the one transaction that cancels waiting jobs, releases the environment and ends the operation |
| AgentJobs.AgentJobsService.ReconcileGatewayRoute | apps/api/src/agents/agent-jobs.service.ts:748-810 | the guarded write of what a route job did |
| AgentJobs.AgentJobsService.PublishManagedProgress | apps/api/src/agents/agent-jobs.service.ts:1187-1201 | only a running operation moves to verifying |
| AgentJobs.AgentJobsService.FinishOperation | apps/api/src/agents/agent-jobs.service.ts:1299-1317 | releases the environment with its new state and ends the operation |
| AgentJobs.AgentJobsService.ProjectDirectJob | apps/api/src/agents/agent-jobs.service.ts:847-953 | the projection for a target without managed gateway |
| AgentJobs.AgentJobsService.MirrorDeploymentProgress | apps/api/src/agents/agent-jobs.service.ts:662-710 | a progress report is an advance of the workflow: it leaves a running operation in the later one of its phase and the reported one, so a delayed report moves nothing back |
| AgentJobs.AgentJobsService.QueueReconcile | apps/api/src/targets/gateway-routes.service.ts:206-265 | queues the route of an operation once, superseding queued route jobs |
| AgentJobs.AgentJobsService.DeliverOperation | apps/api/src/projects/project-agent-delivery.ts:30-184 | delivery is the run of its handler for the fates its calls meet, to its end; an operation that is over is refused without a change |
| AgentJobs.AgentJobsService.QueueRouteFirst | apps/api/src/projects/project-agent-delivery.ts:130-161 | a teardown queues its route, or takes its workload job back |
| AgentJobs.DriveKeeps | apps/api/src/agents/agent-jobs.service.ts:748-1317 | a driven handler keeps the invariant of all runs, so every method above does |
| CaddyRoutes.CaddyAdminClient.ReconcileRoute | apps/agent/src/caddy-admin.ts:136-180 | at most one own write, which replaces the intent's routes in the very document version it matched; it returns only if the intent was settled at some moment of the call; it tries again after each round that others won, gives up exactly after five of them, and returns if the first other round is quiet; left alone it does what is asked, or refuses an identity bound to another hostname |
| CaddyRoutes.CaddyAdminClient.Attempt | apps/agent/src/caddy-admin.ts:137-177 | one round of read, compare, replace and verify; it has no answer exactly if the document changed between read and write, and then only others have written |
| CaddyRoutes.CaddyAdminClient.Patch | apps/agent/src/caddy-admin.ts:156-169 | a conditional write is accepted only on the document that was read |
| CaddyRoutes.CaddyAdminClient.Verify | apps/agent/src/caddy-admin.ts:171-178 | after a write was sent nothing more is written |
| CaddyRoutes.CaddyAdminClient.ReadRoutes | apps/agent/src/caddy-admin.ts:183-202 | reads the document and its ETag, or fails |
| CaddyRoutes.ReplacementSettles | apps/agent/src/caddy-admin.ts:153-154 | a replacement leaves exactly one requested route or none, keeps every other route in order, and asking again changes nothing |
| CaddyRoutes.ReplacementIsInvisibleToOthers | apps/agent/src/caddy-admin.ts:153-154 | other identities read the same before and after |
| CaddyRoutes.RestoringReadsBack | apps/agent/src/caddy-admin.ts:113-129 | restoring the route that was read before makes it read the same, whatever the document has become |
| CaddyRoutes.ReplacementsCommute | apps/agent/src/caddy-admin.ts:153-154 | reconciliations of distinct identities commute up to the place of their own two routes |
| CaddyRoutes.ReplacementsCommuteForReaders | apps/agent/src/caddy-admin.ts:113-154 | and every identity reads the same in either order |
| CaddyRoutes.ManagedRouteReadsBack | apps/agent/src/caddy-admin.ts:53-95 | hostname and upstream of a published route read back as published |
| GatewayActivation.Gateway.RunActive | apps/agent/src/gateway-route.ts:244-313 | at every step the route dials a running container, unless a rollback has discarded the very container it dials; once the upstream was resolved, a restored route serves; for a workload at home in one network, the number of the first failing call decides: the rollback stops what the restored route dials exactly if that is this workload and the upstream was not resolved yet or the port changes; publication ends, its public health check passed, with the new revision reachable and, after a complete cleanup, alone, and is reached without faults; before the health check passed no other revision is touched |
| GatewayActivation.Gateway.RollbackActivation | apps/agent/src/gateway-route.ts:371-416 | after a rollback the route dials a running container exactly unless the discarded workload is what it dials; with successful calls the previous route is restored, or, without one, the workload discarded and the gateway detached |
| GatewayActivation.FailedRedeployStopsServing | apps/agent/src/gateway-route.ts:244-283 | a job run from a concrete state: deploying again what is serving, with the gateway not to be inspected, reports the route restored and has removed the container it dials |
| GatewayActivation.DiscardIsSeen | apps/agent/src/gateway-network.ts:189-212 | discarding a workload stops what a route dials exactly if that is the workload |
| GatewayActivation.Gateway.TryActivation | apps/agent/src/gateway-route.ts:256-282 | the route is the old one or dials the payload's one workload; success means it is switched, attached and verified; the number of the first failing call decides whether the upstream was known and what the route dials |
| GatewayActivation.Gateway.RunInactive | apps/agent/src/gateway-route.ts:314-345 | never touches a container; it is withdrawn exactly if every call succeeds; which failure is reported as restored is read from the calls, and what it restored is reached exactly if some attached network of the container was not detached before, so always if no network was detached yet |
| GatewayActivation.Gateway.RestoreInactiveRoute | apps/agent/src/gateway-route.ts:347-369 | publishes the previous route again and reports it as serving exactly if that call succeeds; the network is left alone |
| GatewayActivation.RestoredButUnreachable | apps/agent/src/gateway-route.ts:314-369 | a job run from a concrete state: a disconnect that fails late ends with the previous route reported as serving although the gateway does not reach it |
| GatewayActivation.Gateway.Connect | apps/agent/src/gateway-network.ts:71-96 | attaches the gateway to the one owned network of the workload and detaches it from none |
| GatewayActivation.Gateway.Disconnect | apps/agent/src/gateway-network.ts:98-119 | attaches nothing; a network is detached exactly if the call that detaches it was among the successful ones, or failed late; it succeeds exactly if all do |
| GatewayActivation.Gateway.Commit | apps/agent/src/gateway-network.ts:134-160 | removes superseded revisions only; the active one is left, alone if it succeeds |
| GatewayActivation.Gateway.Rollback | apps/agent/src/gateway-network.ts:162-187 | discards exactly the payload's own workload, exactly if it is the only match and the call takes effect |
| GatewayActivation.Gateway.ActiveWorkload | apps/agent/src/gateway-network.ts:207-234 | the container it names is the only one that matches |
| DockerDeploy.DockerLifecycle.Deploy | apps/agent/src/docker-lifecycle.ts:623-749 | however it ends: only its two names are touched, what was published stays until the candidate was found healthy and durable, a collision changes nothing, and another deployment can carry on; without faults it ends deployed exactly from a resumable table |
| DockerDeploy.DockerLifecycle.DeployUntilDone | apps/agent/src/docker-lifecycle.ts:623-749 | any number of deployments that fail or die anywhere, and then one without faults, end as an uninterrupted one would: one matching, running, durable container under the base name, candidate name free |
| DockerDeploy.DockerLifecycle.PrepareCandidate | apps/agent/src/docker-lifecycle.ts:645-716 | only the candidate's row changes; success means a matching, running candidate |
| DockerDeploy.DockerLifecycle.ProbeCandidate | apps/agent/src/docker-lifecycle.ts:717-720 | returns exactly if the candidate was found healthy; one that was not is taken away, if that call takes effect |
| DockerDeploy.DockerLifecycle.Publish | apps/agent/src/docker-lifecycle.ts:721-748 | the healthy candidate becomes durable, then the old container goes, then the name moves; every stop in between can be resumed |
| DockerDeploy.DockerLifecycle.Resume | apps/agent/src/docker-lifecycle.ts:636-641 | a deployment that was done before is started and probed, not replaced |
| DockerDeploy.DockerLifecycle.Current | apps/agent/src/docker-lifecycle.ts:1255-1279 | refuses a foreign container and, for managed slots, another immutable deployment |
| ParkReplace.Docker.Apply | apps/agent/src/agent-update-docker.ts:178-257 | original and replacement never run side by side at any step; it succeeds exactly if every call does, with the replacement alone and checked three times while it ran; read from the first call that fails: with successful rollback calls a failure from the third call on ends with the original running under its own name, unless that call removes it and fails late, and an earlier one ends without it |
| ParkReplace.Docker.ReconcileEdge | apps/agent/src/gateway-edge.ts:126-199 | the same for the gateway edge, and the configuration file is the new one after success and the old one after a failure that went back |
| ParkReplace.Docker.Restore | apps/agent/src/agent-update-docker.ts:246-256 | with successful calls, going back after parking ends with the original under its own name, running, and the old configuration; before parking it removes the original instead |
| ParkReplace.Docker.Replace | apps/agent/src/agent-update-docker.ts:215-257 | the pattern of both uses: success exactly if every call succeeds, and where each failure ends, by the number and fate of the first failing call |
| ParkReplace.Docker.Park | apps/agent/src/agent-update-docker.ts:217-220 | the original is parked and stopped, or still under its name |
| ParkReplace.Docker.Succeed | apps/agent/src/agent-update-docker.ts:221-245 | the replacement starts while the original is stopped, and the original goes last |
| ParkReplace.FailedStopLosesOriginal | apps/agent/src/agent-update-docker.ts:246-248 | an update run from a concrete state: the stop of the original fails, and no container is left afterwards |
| ArtifactFence.GenerationsSettleOnce | apps/api/src/projects/project-artifact-execution-lease.ts:76-136 | in every run of any number of workers, the generations settled by workers strictly increase: none is settled twice |
| ArtifactFence.OnlyTheHolderSettles | apps/api/src/projects/project-artifact-ingestion.ts:244-328 | only the worker that holds the row moves it to available; to failed only that worker, or recovery after the lease lapsed |
| ArtifactFence.StaleForever | apps/api/src/projects/project-artifact-execution-lease.ts:52-60 | a worker that lost the row never changes it again, whatever happens and whenever its writes arrive |
| ArtifactFence.RunKeeps | apps/api/src/projects/project-artifact-execution-lease.ts:76-136 | an object is referenced exactly while the artifact is available; an owner has a lease and is at work |
| ArtifactFence.RecoveryIsNotFooled | apps/api/src/projects/project-artifact-ingestion.ts:89-121 | recovery of a row read earlier does nothing if the row was claimed, settled or renewed since |
| ArtifactFence.ArtifactIngestion.IngestOwned | apps/api/src/projects/project-artifact-ingestion.ts:202-358 | what a worker reports is what it did: stored or rejected means settled by its own write while it held the row, with others interfering before every call; left alone it stores the artifact without faults and records the failure if a call outside the database fails |
| ArtifactFence.ArtifactIngestion.Execute | apps/api/src/projects/project-artifact-execution-lease.ts:39-75 | claim, ingest and release: the same for the whole execution; what it abandons it releases, if that call succeeds |
| ArtifactFence.ArtifactIngestion.Assert | apps/api/src/projects/project-artifact-execution-lease.ts:62-70 | goes on only if the last thing that happened to the row is this worker's renewal, taken while it held a live lease |
| SecretSweep.EncryptedColumn.Sweep | apps/api/src/common/secret-reencryption.service.ts:45-81 | visits every row once, page by page; readable secrets end under the current key with their text unchanged, all others as they were; both counts are right |
| SecretSweep.EncryptedColumn.SweepTwice | apps/api/src/common/secret-reencryption.service.ts:45-81 | a second sweep rewrites nothing and finds the same unreadable values |
| SecretSweep.PreviousKeysCanGo | apps/api/src/common/secret-reencryption.service.ts:73-79 | when a rotating sweep reports nothing unreadable, every value opens with the current key alone to what it always stood for |
| SecretSweep.SecondSweepIsIdle | apps/api/src/common/secret.ts:82-97 | a swept column has nothing to rewrite |
| SecretSweep.EncryptedColumn.VisitPage | apps/api/src/common/secret-reencryption.service.ts:50-68 | one page: every wanted row, in order, none twice |
| SecretSweep.EncryptedColumn.Read | apps/api/src/common/secret-reencryption.service.ts:83-104 | the first hundred wanted rows after the cursor |
| SecretSweep.EncryptedColumn.Visit | apps/api/src/common/secret.ts:82-97 | one value: rewritten, counted as unreadable, or left |
| SecretSweep.EncryptedColumn.Write | apps/api/src/common/secret-reencryption.service.ts:100-105 | compare-and-set on the value that was read |
| MailOutbox.EightAttempts | apps/api/src/mail/mail-delivery.service.ts:129-204 | without crashes a message takes at most eight attempts, the last of which ends it, and at most 1905 seconds of scheduled delays; it has a payload exactly while it is pending or sending |
| MailOutbox.RunKeeps | apps/api/src/mail/mail-delivery.service.ts:129-204 | payload and lock fit the status in every run, crashes included |
| MailOutbox.LostClaimIsHarmless | apps/api/src/mail/mail-delivery.service.ts:171-193 | a worker that lost its claim changes nothing until it claims again |
| MailOutbox.OverIsOver | apps/api/src/mail/mail-delivery.service.ts:171-193 | a message that was sent or has failed stays so, without its payload |
| MailOutbox.CrashesAddAttempts | apps/api/src/mail/mail-delivery.service.ts:129-155 | nothing bounds the attempts when workers die while sending: from a queued message every number of attempts is reached |
| MailOutbox.MoreThanEightAttempts | apps/api/src/mail/mail-delivery.service.ts:129-204 | a queued message takes more than eight attempts exactly if in the run the lock of its eighth goes stale and is claimed |
| MailOutbox.MailDeliveryService.Drain | apps/api/src/mail/mail-delivery.service.ts:121-127 | at one time a drain attempts each due message at most once, and exactly as many as are due or fit one batch; if they fit, none is due afterwards |
| MailOutbox.MailDeliveryService.ClaimNext | apps/api/src/mail/mail-delivery.service.ts:129-155 | claims the claimable row that has waited longest |
| MailOutbox.MailDeliveryService.DeliverMessage | apps/api/src/mail/mail-delivery.service.ts:157-204 | records delivery, the next attempt, or the end |
| RateLimit.RateLimitService.Bounds | apps/api/src/auth/rate-limit.service.ts:19-49 | for nondecreasing request times: at most the limit per window and at most twice the limit in any stretch of a window's length |
| RateLimit.RateLimitService.Consume | apps/api/src/auth/rate-limit.service.ts:19-49 | a request is admitted exactly while its window has admitted fewer than the limit; the wait it returns is the shortest in whole seconds that leads into a later window |
| RateLimit.RateLimitService.Cleanup | apps/api/src/auth/rate-limit.service.ts:63-75 | deleting expired buckets, at any later moment, keeps both bounds |
| RateLimit.IntervalIsTwoWindows | apps/api/src/auth/rate-limit.service.ts:28-29 | a stretch of a window's length meets two windows at most |
| ConcurrencyMap.MapWithConcurrency | apps/api/src/common/concurrency.ts:1-23 | whichever mapping settles next: every place is handed out once, in order, in a run that never has more mappings in flight than the bound; if none rejects every result is at its place |
| ConcurrencyMap.Run.Proceed | apps/api/src/common/concurrency.ts:12-18 | a worker whose mapping settled goes on with the next place |
| ConcurrencyMap.Run.Settle | apps/api/src/common/concurrency.ts:16-16 | a settled mapping writes its result at its own place, and no other |
| ConcurrencyMap.Run.Take | apps/api/src/common/concurrency.ts:13-15 | a place is handed out once |

## Left out

- HTTP, TLS, DNS, Docker sockets, object storage, SMTP and JSON decoding: only the atomic effect and the success or failure of each call is modelled; the ETag and the body of the Caddy document are the exception.
- Controllers, DTO validation, RBAC, sessions, OIDC, logging, audit events and the web application: no protocol of their own.
- `parseGatewayRoutePayload`, `parseProjectPayload` and the other payload parsers, the public health loop and the log demultiplexer: each adds only single-body facts; the models start from a payload that was accepted.
- Messages and reasons of environments and operations, URLs, artifact ids, expiry dates and the 500-character limits: they steer nothing except the phase of a failure, which is modelled on the full text.
- The result of a job and a version are taken to be non-empty strings where the source tests them for truth.
- Diagnostic (`logs`), lifecycle-test, probe and gateway-preflight jobs: their projections are one guarded write each; the comparison of repeated reports ignores their extra fields.
- User cancellation, retirement, and the settling of an operation by the caller of a failed delivery (`failQueuedLifecycle`): they end operations outside the Agent job service. A stop that was queued although queueing reported a failure can leave an environment marked running while its route is being stopped.
- The rows that a projection reads together (job, operation, environment, route) are read at one moment.
- Jobs of several Agents of one target, disabling and re-enrolling an Agent: one Agent with one configuration file is modelled.
- Legacy container and network names in deployments, and orphaned candidates of other revisions: deployments know the base and the candidate name only. Gateway activation does know the legacy names.
- A torn write of a state, override or configuration file: each write, copy, rename and removal is atomic, and one that fails has no effect. Looking whether a file exists does not fail.
- Containers after a recovery that had to replace the Supervisor as well: the saved override is already renamed when it is looked for again, so the Supervisor is started without one; that is what `Undo` states.
- `adoptCurrentRelease`, which leaves an override without recorded images: the update theorems are about signed installations, where the two go together.
- WorkflowServing.RunningMeansServing: assumes, as its callers ensure, that a start operation carries the environment's version, and that only the modelled handlers change environment and route.
- WorkflowServing.CatchIsHarmless: exact for the invariant behind the promise; that a harmful handler breaks the promise itself is proved, for each of the three conditions, when it records the failure with the previous version online.
- JobLeases.OneClockExclusion: the Agent's clock and the server's are one; the Agent's deadline is one that the server handed out. `LeaseExclusion` asks for timely renewals only.
- JobWorker.JobExecution.RetryProtocolCall: pauses last exactly as long as asked for, and another renewal moves the recorded deadline only while a call is under way.
- GatewayActivation.Gateway.RunActive: the reconciliation of the owned route is one step that may fail late; its retry loop is in CaddyRoutes. Other clients do not edit this route. Which failure stops serving is stated for a workload that is in one network, as every activation needs, and for rollbacks whose calls succeed.
- ParkReplace.Docker.ReconcileEdge: whatever is parked from an earlier run is removed first and not restored, as in the source; an edge that already carries the current label is left alone, running or not.
- DockerDeploy.DockerLifecycle.Deploy: containers are addressed by name instead of by id, which is the same while nobody else renames them; network creation is a call that may fail.
- ArtifactFence.ArtifactIngestion.IngestOwned: the object a failed worker deletes is not modelled, so nothing is claimed about an object published again under the same key; the registry capture shares the fence and is not repeated.
- SecretSweep.EncryptedColumn.Sweep: without concurrent writers; the write itself is a compare-and-set.
- MailOutbox.MailDeliveryService.Drain: at one moment, so a message that bounced is not due again within the drain.
- RateLimit.RateLimitService.Consume: one scope and dimension with a fixed limit and window.
- ConcurrencyMap.MapWithConcurrency: after a rejection the caller is told when all workers have stopped, not at once.
