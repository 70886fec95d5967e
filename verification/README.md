# Sentinel Hub: a verified model of its deployment protocol

Sentinel Hub pushes configuration versions to a fleet of agents. This project models, in Dafny, what
happens between the hub and its agents, and proves what can be relied on in every interleaving.

* `HubTypes.dfy`: values shared by all parts, 64-bit arithmetic, hashes.
* `DeploymentPlan.dfy`: how the three strategies cut the target list into batches.
* `RunnerModel.dfy`: a deployment run as a system of atomic steps. Each `deployToInstance` is a small
  program counter; agents, the clock, cancelling clients and the run itself take turns in any order.
* `RunnerSafety.dfy`, `RunnerHistory.dfy`, `RunnerRollback.dfy`, `RunnerTiming.dfy`: the invariants of
  that system. `RunnerTold.dfy`: whose report stands behind a completion. `RunnerTheorems.dfy`: what
  follows for every run. `RunnerRecords.dfy` and `RunnerVerdicts.dfy`: what the records hold and what the
  run makes of them, judgement, rollback and canary, from its history alone. `RunnerReasons.dfy`: why
  goroutines end as they do. `RunnerWitnesses.dfy` builds runs, to show which conditions are exact;
  `RunnerCancel.dfy` says when a cancelled or a completed row can still be overwritten.
* `DeploymentRunner.dfy`: the runner in the shape of its code, with its loops. Every method keeps the
  invariant that all that has happened so far is a run of the step system, so every theorem about runs
  holds of it. Other goroutines act wherever the code blocks or lets go of its lock. How many of their
  steps are watched is a budget, and `Stopped` means that it ran out; no theorem about runs has a bound.
* `InstanceWait.dfy`: the polling loop against a sequence of reports, with leases.
* `Orchestrator.dfy`: registered runners, creation and cancellation of deployments, report routing, and
  recovery after a restart.
* `FleetService.dfy`: sessions, subscriber channels and the path of a status report.
* `AgentState.dfy`, `AgentRecovery.dfy`, `ConfigFile.dfy`: the agent's state file, its crash recovery
  and the steps by which it replaces its configuration file.
* `ConfigHistory.dfy`: configurations and their versions under the create, update, rollback and delete
  handlers, with every store call free to fail.
* `Heartbeat.dfy`, `VersionText.dfy`: the heartbeat exchange, and versions as text and as 32-bit numbers.

Store calls, sends, file operations and fetches can fail; under a context that is done, store calls of
a run do fail. Tokens and content are hashed by an injective function. A clock does not pass the
deadline of a live context: its timer fires first. `dafny verify dfyconfig.toml` checks everything.

## What turned out to be false

* A deployment can be completed without a single event, or with the canary's alone, when the number of
  targets to cut into batches plus the batch size minus 1 does not fit in 64 bits
  (`OverflowCompletesUnsent`, `EveryoneIsSentIff`).
* A cancellation can be lost, exactly under the condition of `CancelLostIff`, and a cancellation can
  replace a completed status, exactly under that of `CompletedLostIff`. After a timeout the failed status
  is never written, since the write uses the dead context (`CancelledStays`).
* An instance record is not final: any report overwrites it. With a target twice in one batch one report
  may stand for both positions (`TwiceMeansUntold`, `EveryoneIsToldIff`).
* Sending to an instance can panic, exactly as `SendPanicsIff` says.
* The configuration file is not always whole. Heartbeats and deployments write it from different
  goroutines through one temporary file and no lock (`OverlapTears`); in turns it is
  (`SerialWritesAreWhole`), and turns are what it takes (`SafeIffTurns`).
* Version numbers are not always 1 to current. An update that changes the content and takes the name of
  another configuration writes its version and then fails on the row, after which the configuration
  accepts no content any more (`HealthIffNotBroken`, `WedgedForever`). A creation whose second insert
  fails leaves a configuration without version 1 (`PreviousVersionIff`).
* A deployment that ended successfully can be reported as failed by the next process of its agent, and one
  that was cut off can go unreported; `EndedIsReportedIff` and `CutOffIsReportedIff` say exactly when.
* A rollback does not last when the instance is assigned to the configuration: heartbeats announce the
  latest version (`RollbackIsUndone`). Registration can hide a stale file (`RegistrationMasksStaleFile`).

## Model

| member | source | states |
|---|---|---|
| `DeploymentPlan.BatchCount` | internal/fleet/runner.go:205 | The 64-bit batch count is the ceiling of n / batch size exactly when n + batch size - 1 is representable; when it is not, no batch is run. |
| `DeploymentPlan.RollingTiles` | internal/fleet/runner.go:220-225 | Consecutive batches touch, are never empty, stay inside the list and are at most the batch size wide. |
| `DeploymentPlan.PlanTiles` | internal/fleet/runner.go:198-347 | For all three strategies every batch is a slice of the targets that starts where the one before ended, and none is wider than the strategy allows. |
| `DeploymentPlan.PlanCovers` | internal/fleet/runner.go:205-225 | The batches reach every target if and only if the batch count did not overflow. |
| `DeploymentPlan.BatchesConcatenateToTargets` | internal/fleet/runner.go:213-225 | The batches, concatenated, are a prefix of the target list, and the whole list if and only if the count did not overflow. |
| `DeploymentPlan.BatchPositions` | internal/fleet/runner.go:321-332 | Every batch is announced with the position one above the number of batches before it, within 1 to its total. |
| `DeploymentPlan.BatchesAre` | internal/fleet/runner.go:161-347 | Every batch of every strategy in full: bounds, numbers, whether it checks the context, rolls back and writes progress, and the wait and health check after it. |
| `DeploymentPlan.WirePositionsIff` | internal/grpc/fleet_service.go:613-614 | Narrowed to 32 bits in the event, both numbers stay within 1 to the total for every batch if and only if the number of batches fits. |
| `DeploymentPlan.CanaryIsProper` | internal/fleet/runner.go:270-277 | For two or more targets the canary is a tenth of the fleet, at least one, and never everyone; without overflow something remains for the rest and all of it is covered. |
| `RunnerTheorems.SafeRun` | internal/fleet/runner.go:103-158 | The invariants of a run hold in every state of every interleaving of goroutines, agents, clock, clients and the run itself. |
| `RunnerTheorems.InFlightBound` | internal/fleet/runner.go:350-378 | At no instant are more instances between being notified and having their deployment return than the widest batch. |
| `RunnerTheorems.InFlightWithinWidth` | internal/fleet/runner.go:213-235 | That width is the batch size, at least 1, for rolling, the larger of that and a tenth of the fleet for canary, the fleet for all-at-once. |
| `RunnerTheorems.BatchesInOrder` | internal/fleet/runner.go:213-257 | An event of a batch is sent only after every member of every earlier batch returned success; it names its target, the deployed version and its batch, and no position gets two. |
| `RunnerTheorems.SentWasDelivered` | internal/fleet/runner.go:397-418 | Every deploy event on record was sent by its own goroutine to an instance that was subscribed. |
| `RunnerTheorems.DeliveredIsSent` | internal/fleet/runner.go:405-418 | Every send that goes through is on record, with its target and the deployed version. |
| `RunnerTheorems.FailurePersists` | internal/fleet/runner.go:235-243 | The first failed batch stays the failed batch for the rest of the run. |
| `RunnerTheorems.BlastRadius` | internal/fleet/runner.go:235-243 | Once a batch has failed, every deploy event ever sent, before or after, went to a target of that batch or an earlier one. |
| `RunnerTheorems.RadiusOfStage` | internal/fleet/runner.go:220-225 | That is the first min(n, (k + 1) * batch size) targets for rolling batch k, and a tenth but at least one for the canary. |
| `RunnerTheorems.CompletedMeansTold` | internal/fleet/runner.go:147-150 | If the row becomes completed and the batches cover the targets, every target was sent its event and its agent reported completion after a reset of its record; when no batch holds a target twice, after its own reset and before its own goroutine returned. |
| `RunnerTheorems.CompletedDeploymentMeansTold` | internal/fleet/runner.go:129-157 | The same for every deployment whose batch count does not overflow and whose batches hold no target twice. |
| `RunnerTheorems.OwnWordRun` | internal/fleet/runner.go:389-446 | In every state of every run, when no batch holds a target twice, a position counts as completed only on the word of its own agent. |
| `RunnerTheorems.CompletedWasJudged` | internal/fleet/runner.go:639-649 | A row that becomes completed was judged in a state where every target had a record with status completed, every batch had succeeded and none had failed. |
| `RunnerTheorems.RollbackExact` | internal/fleet/runner.go:666-724 | A rollback event carries version - 1, goes at most once to an instance whose record had status completed at the snapshot and that was subscribed at the send, and only after a batch that rolls back failed. |
| `RunnerTheorems.PlansRollBackAfterHealth` | internal/fleet/runner.go:265-268 | A failed batch starts a rollback except in all-at-once deployments, which include canaries of fewer than two targets. |
| `RunnerTheorems.NeverRollsBack` | internal/fleet/runner.go:684-688 | No rollback event is ever sent for version 1, by all-at-once, or by a canary of fewer than two targets. |
| `RunnerTheorems.NoRollbackOnceDone` | internal/fleet/runner.go:690-694 | A rollback that begins after the context is done never sends an event. |
| `RunnerTheorems.CancelledStays` | internal/fleet/runner.go:727-765 | Once the run context is done no step of the run changes the row: it stays as it is, in progress after a timeout, or becomes cancelled and stays so. |
| `RunnerTheorems.NothingBeginsOnceDone` | internal/fleet/runner.go:213-218 | Once the context is done no further batch begins, if the remaining ones check it. |
| `RunnerTheorems.NothingSentBeyondOnceDone` | internal/fleet/runner.go:213-218 | After that no target behind the batches already begun ever receives the version. |
| `RunnerTheorems.PlansAreGuarded` | internal/fleet/runner.go:318-323 | Rolling deployments check before every batch, canaries before every batch but the first. |
| `RunnerTheorems.OneDecision` | internal/fleet/runner.go:141-157 | A run decides at most one final status. |
| `RunnerTheorems.ExitedIsFinal` | internal/fleet/runner.go:141-158 | After a run has returned none of its goroutines acts any more. |
| `RunnerTheorems.CompletedTookTime` | internal/fleet/runner.go:249-256 | A run that completes its row took at least the poll of every batch and the pauses between them, inside the deadline. |
| `RunnerTheorems.DefaultTimingsLimitBatches` | internal/fleet/runner.go:84 | With the default timings a completed rolling deployment has at most 19 batches, and a canary at most 17 after the canary. |
| `RunnerRecords.RecordIsLastWord` | internal/fleet/runner.go:389-547 | In every state of every run every record has the status of the last history entry about its instance: in progress after a reset, what was reported after a report, completed or failed after its goroutine returned. |
| `RunnerRecords.CompletedIffSaid` | internal/fleet/runner.go:436-546 | So a record is completed if and only if that last entry is the success of a goroutine or a report of completion, or nothing has been said and it was at the start. |
| `RunnerVerdicts.DecidedByHistory` | internal/fleet/runner.go:139-157 | From the history alone: a run that has not failed decides on completed if and only if every target was last heard of completing; every other run decides on failed, and a run has failed only if a batch did or its context was done. |
| `RunnerVerdicts.CompletedIffLastWords` | internal/fleet/runner.go:147-155 | When the batches reach every target, completed is decided if and only if the last entry about every target is its success or its report of completion. |
| `RunnerVerdicts.SnapshotByHistory` | internal/fleet/runner.go:666-694 | From the history alone: the snapshot of a rollback holds exactly the targets last heard of completing; the run goes on to the previous version with each of them once, and ends at once if there is none or no such version. |
| `RunnerVerdicts.RevertedWasComplete` | internal/fleet/runner.go:671-713 | Whoever is sent a rollback event was last heard of completing when the snapshot was taken. |
| `RunnerVerdicts.EveryoneHasATurn` | internal/fleet/runner.go:697-713 | Once the events of a rollback have been sent, everyone in the snapshot has had a turn, at which its event was sent if it was subscribed and the send went through. |
| `RunnerVerdicts.CompletedGetTheirTurn` | internal/fleet/runner.go:671-713 | The same for every target last heard of completing when the snapshot was taken. |
| `RunnerVerdicts.CheckedByHistory` | internal/fleet/runner.go:652-663 | From the history alone: after a health check the run goes on if and only if the last entry about every target of the batch is a completion; otherwise the batch is the failed one and is rolled back. |
| `RunnerVerdicts.GateWasPassed` | internal/fleet/runner.go:294-306 | A run that has got behind a batch that is checked has passed such a check of it. |
| `RunnerVerdicts.BeyondCanaryOnlyHealthy` | internal/fleet/runner.go:301-310 | In a canary deployment of two or more targets a goroutine behind the canary is started, or its event sent, only after a check at which the last entry about every canary target was a completion. |
| `RunnerVerdicts.CanaryIsJudged` | internal/fleet/runner.go:301-306 | There the check either finds that and goes on to the second batch, or the canary is the failed batch, is rolled back, and no position behind it is ever sent to, before or after. |
| `RunnerReasons.EndsForReason` | internal/fleet/runner.go:397-505 | In every run a goroutine marks its instance completed only after a tick that read status completed, and fails only for its reason: not subscribed, not sent, context done, timeout passed, or a tick that read an expired lease, a failure or a rollback. |
| `RunnerReasons.TickReadsLastWord` | internal/fleet/runner.go:477-488 | What a tick reads is what the last history entry about the instance says. |
| `RunnerReasons.TimesOutInTime` | internal/fleet/runner.go:467-475 | No instance is given up for its timeout sooner than that after its timers were armed. |
| `RunnerReasons.DoneHasCause` | internal/fleet/runner.go:104-115 | The context of a run is done only after a cancellation, a shutdown, or the whole timeout. |
| `RunnerWitnesses.CompletesIffInTime` | internal/fleet/runner.go:105 | From every start a run can complete its row if and only if the timeout covers the polls and pauses of the plan. |
| `RunnerWitnesses.OverflowCompletesUnsent` | internal/fleet/runner.go:205 | For every deployment whose batch count overflows, and which has the time, there is a run that completes the row after sending to the canary and nobody else; for a rolling one, to nobody. |
| `RunnerWitnesses.NothingSentBeyondPlan` | internal/fleet/runner.go:213-225 | No run ever sends to a position that the batches do not reach. |
| `RunnerWitnesses.EveryoneIsSentIff` | internal/fleet/runner.go:205 | For every deployment that has the time: completed runs send to every target if and only if the batch count does not overflow. |
| `RunnerWitnesses.TwiceMeansUntold` | internal/fleet/runner.go:389-446 | With a target twice in one batch, and one poll to spare, there is a completed run in which the agent of one of the two positions did not report between its reset and its return. |
| `RunnerWitnesses.EveryoneIsToldIff` | internal/fleet/runner.go:389-446 | With one poll to spare and batches that cover the targets: in all completed runs every agent reported in its time, if and only if no batch holds a target twice. |
| `RunnerCancel.StuckForever` | internal/fleet/runner.go:727-765 | Once the condition fails, a cancelled row stays cancelled for the rest of the run. |
| `RunnerCancel.WriteIsReached` | internal/fleet/runner.go:124-157 | While it holds, from every control state some continuation writes the row. |
| `RunnerCancel.CancelLostIff` | internal/fleet/runner.go:124-157 | A cancelled row is overwritten in some continuation, now or at any later point, if and only if the context is live, the run has not returned, and a write can be reached before the deadline: the current batch can fail or be left in time, or the current pause ends in time. |
| `RunnerCancel.PlansHaveNoIdlePause` | internal/fleet/runner.go:213-256 | Every batch of every plan that is followed by a pause has members, which is what the condition takes for granted. |
| `RunnerCancel.CompletedAtExit` | internal/fleet/runner.go:147-157 | A row that a run has completed belongs to a run that has returned. |
| `RunnerCancel.CompletedLostIff` | internal/fleet/orchestrator.go:205-221 | A row that a run has completed is overwritten in some continuation if and only if a client that read it while it was active has yet to write. |
| `RunnerTiming.RollingElapsed` | internal/fleet/runner.go:249-256 | A rolling plan of T batches needs T polls of 2 s and T - 1 delays. |
| `RunnerTiming.CanaryElapsed` | internal/fleet/runner.go:293-344 | A canary plan also needs the poll and the validation period of the canary. |
| `InstanceWait.WaitForInstance` | internal/fleet/runner.go:465-507 | Ends within the instance timeout and no later than the context, at a multiple of 2 s with the verdict of the first deciding tick; no tick before that decided anything. |
| `InstanceWait.NewestReportsDecide` | internal/fleet/runner.go:524-544 | Whatever came before, the newest report settles status and lease, the newest terminal one the completion time, the newest with a text the error. |
| `InstanceWait.NewestReportDecides` | internal/fleet/runner.go:477-505 | A tick decides by the newest report: completed ends the wait well, failed or rolled back ends it badly, in progress keeps it going for the lease, anything else keeps it going. |
| `InstanceWait.UnreportedDecides` | internal/fleet/runner.go:389-396 | Until the first report the reset counts as the last word. |
| `InstanceWait.LivelyAgentKeepsLease` | internal/fleet/runner.go:490-495 | An agent whose reports are never more than the lease apart gets no lease error at any tick. |
| `InstanceWait.SilentAfterLastReport` | internal/fleet/runner.go:524-542 | An agent whose last report says in progress counts as silent from that report on. |
| `InstanceWait.SilentVerdict` | internal/fleet/runner.go:490-495 | The lease of a silent agent expires at exactly the ticks more than the lease after its last word. |
| `InstanceWait.SilentAgentIsGivenUp` | internal/fleet/runner.go:465-507 | An instance that goes silent while in progress is given up within the lease plus one tick of its last word. |
| `InstanceWait.SilentForAMinute` | internal/fleet/runner.go:69-72 | With the default lease that is at most 62 seconds. |
| `InstanceWait.WaitWithLease` | internal/fleet/runner.go:389-435 | The wait after a fresh reset has both guarantees and ends within the instance timeout. |
| `Deploying.DeploymentRunner.constructor` | internal/fleet/runner.go:61-100 | Every target starts out pending. |
| `Deploying.DeploymentRunner.Run` | internal/fleet/runner.go:103-158 | Everything that happens during a call is a run of the step system, whatever interferes; seen to the end, it returns nil exactly when it decided on completed. |
| `Deploying.DeploymentRunner.RunAllAtOnce` | internal/fleet/runner.go:161-195 | One batch of all targets, announced as 1 of 1, with no rollback. |
| `Deploying.DeploymentRunner.RunRolling` | internal/fleet/runner.go:198-260 | Refines the batches of the plan one by one, in order. |
| `Deploying.DeploymentRunner.RunBatches` | internal/fleet/runner.go:213-257 | The batch loop deploys exactly the remaining batches of the plan and stops at the first failure. |
| `Deploying.DeploymentRunner.BatchBounds` | internal/fleet/runner.go:220-225 | The loop computes, in 64-bit arithmetic, exactly the bounds and numbers of the batch of the plan. |
| `Deploying.DeploymentRunner.RunCanary` | internal/fleet/runner.go:263-347 | The canary batch, its validation and then the rolling batches behind it; success means that every canary record was completed at the check. |
| `Deploying.DeploymentRunner.ValidateCanary` | internal/fleet/runner.go:293-306 | Succeeds only with every record of the canary completed, and otherwise ends the run. |
| `Deploying.DeploymentRunner.DeployBatch` | internal/fleet/runner.go:350-378 | Starts one goroutine per member, waits for all, succeeds exactly if all did. |
| `Deploying.DeploymentRunner.CountErrors` | internal/fleet/runner.go:367-375 | There are no errors exactly if every member of the batch returned success. |
| `Deploying.DeploymentRunner.DeployToInstance` | internal/fleet/runner.go:381-461 | The step the goroutine takes, for each point it can be at and each branch of its select, which is taken exactly if it is ready. |
| `Deploying.DeploymentRunner.Select` | internal/fleet/runner.go:471-477 | Context, timeout and tick, each taken exactly if it is ready. |
| `Deploying.DeploymentRunner.ResetRecord` | internal/fleet/runner.go:389-396 | The record becomes in progress, started and renewed at this instant, without an end or an error. |
| `Deploying.DeploymentRunner.PollRecord` | internal/fleet/runner.go:477-505 | A tick decides on the record as it is at that instant: expired lease, completed, failed and rolled back each end the loop in their own way, and the rest waits for the next tick. |
| `Deploying.DeploymentRunner.SetInstanceError` | internal/fleet/runner.go:510-520 | The record gets status failed, its time and its reason, and the goroutine returns the error. |
| `Deploying.DeploymentRunner.MarkCompleted` | internal/fleet/runner.go:436-461 | The record gets status completed and its time, and the goroutine returns nil. |
| `Deploying.DeploymentRunner.ReportInstanceStatus` | internal/fleet/runner.go:524-547 | A report sets status and lease of the record of its instance, the end for a final status and the error if it has one, and touches nothing else. |
| `Deploying.DeploymentRunner.Cancel` | internal/fleet/runner.go:576-578 | Cancels the context of the runner, and not yet the context of the run. |
| `Deploying.DeploymentRunner.Pause` | internal/fleet/runner.go:249-256 | Ends by the timer no sooner than the delay, or by the context. |
| `Deploying.DeploymentRunner.CountStatuses` | internal/fleet/runner.go:743-754 | Counts exactly the instances with status completed and those with status failed. |
| `Deploying.DeploymentRunner.UpdateProgress` | internal/fleet/runner.go:742-765 | Progress holds those counts and the batch numbers. |
| `Deploying.DeploymentRunner.CheckBatchHealth` | internal/fleet/runner.go:652-663 | Healthy exactly if every listed instance has a record with status completed. |
| `Deploying.DeploymentRunner.GateOnHealth` | internal/fleet/runner.go:301-306 | The canary goes on exactly if every target of its batch has a record with status completed; otherwise it is the failed batch and is rolled back. |
| `Deploying.DeploymentRunner.DeployedInstances` | internal/fleet/runner.go:669-676 | Lists every instance with status completed once and no other. |
| `Deploying.DeploymentRunner.TakeSnapshot` | internal/fleet/runner.go:669-688 | The same, and the run ends at once if there is none or no previous version. |
| `Deploying.DeploymentRunner.RevertNext` | internal/fleet/runner.go:697-713 | The next instance is sent its event exactly if it is subscribed and the send goes through; either way the loop goes on. |
| `Deploying.DeploymentRunner.RollbackDeployedInstances` | internal/fleet/runner.go:666-724 | A snapshot is taken, and then lookup and events follow as the step system has it, after which the run ends. |
| `Deploying.DeploymentRunner.CheckAllSucceeded` | internal/fleet/runner.go:639-649 | True exactly if every record has status completed. |
| `Deploying.DeploymentRunner.JudgeOutcome` | internal/fleet/runner.go:141-155 | Completed if nothing failed and every record has status completed, and failed otherwise. |
| `Deploying.DeploymentRunner.WriteOutcome` | internal/fleet/runner.go:727-739 | The row becomes the decided status or stays as it was; it changes only while the context is live. |
| `Deploying.RollingBatch` | internal/fleet/runner.go:220-225 | The machine arithmetic of the loop wraps nowhere and gives the bounds of the stage. |
| `Orchestration.RecoveryIsThorough` | internal/fleet/orchestrator.go:398-473 | Recovery turns exactly the pending and in-progress deployments into failed ones, at its time and for the restart, keeping job and configuration, and under them exactly the pending and in-progress instance rows; nothing else changes. |
| `Orchestration.RecoveryIsIdempotent` | internal/fleet/orchestrator.go:398-473 | Recovering twice, whenever, equals recovering once. |
| `Orchestration.PreviousOfDeployedIff` | internal/fleet/orchestrator.go:122-129 | For every deployment that could be created, the lookup of its previous version succeeds at any later time, unless that is the first version of a configuration whose creation broke. |
| `Orchestration.Orchestrator.CreateDeployment` | internal/fleet/orchestrator.go:99-182 | A request for a stored version of a live configuration and for known targets, at least one, gives a pending row with that version, or the current one, and the defaults of strategy, batch size and timings; any other, or a store failure, changes nothing. |
| `Orchestration.Orchestrator.ResolveTargets` | internal/fleet/orchestrator.go:295-324 | The ids given, exactly if all are known, or the instances that match. |
| `Orchestration.Orchestrator.RecoverOrphanedDeployments` | internal/fleet/orchestrator.go:398-473 | With successful store calls exactly those rows become failed, at that time and for the restart; with failures each of them is either so or as it was, and an error is returned only for a failed listing. |
| `Orchestration.Orchestrator.RecoverStatus` | internal/fleet/orchestrator.go:402-464 | One listing and its loop recover exactly the deployments of that status. |
| `Orchestration.Orchestrator.RecoverOne` | internal/fleet/orchestrator.go:421-460 | One deployment becomes failed, and no other, with its pending and in-progress instance rows. |
| `Orchestration.Orchestrator.RecoverInstances` | internal/fleet/orchestrator.go:445-460 | Every pending or in-progress row of the deployment becomes failed at that time, and no other row changes. |
| `Orchestration.Orchestrator.RecoverRow` | internal/fleet/orchestrator.go:446-458 | One such row. |
| `Orchestration.Orchestrator.ReportInstanceStatus` | internal/fleet/orchestrator.go:492-506 | A report reaches the record of its deployment and instance only; under a rollback id it reaches nothing. |
| `Orchestration.Orchestrator.CancelDeployment` | internal/fleet/orchestrator.go:196-225 | Signals the runner if there is one; if the row it reads is active, the row becomes cancelled, whatever others made of it since the read; if it reads a finished row it writes nothing. |
| `Orchestration.Orchestrator.UpdateDeployment` | internal/store/store.go:740-770 | Writes status, progress and times of one row and nothing else. |
| `FleetService.SessionIffIssued` | internal/grpc/fleet_service.go:73-84 | A token is accepted for an instance exactly when it was issued to it and neither dropped nor reissued since: the session map is the replay of its history. |
| `FleetService.MappedIffServing` | internal/grpc/fleet_service.go:406-422 | An instance is served by the channel of its last subscription until that stream exits or the instance deregisters; the exit of an older stream never matters. |
| `FleetService.ChannelsNotShared` | internal/grpc/fleet_service.go:403-411 | No two instances share a channel. |
| `FleetService.ClosedIffTaken` | internal/grpc/fleet_service.go:286-292 | A channel is closed exactly when some step took it from the instance it was serving. |
| `FleetService.MappedChannelsAreOpen` | internal/grpc/fleet_service.go:407-411 | Every mapped channel is open. |
| `FleetService.NoDoubleClose` | internal/grpc/fleet_service.go:407-410 | No channel is closed twice. |
| `FleetService.SendPanicsIff` | internal/grpc/fleet_service.go:561-577 | A send on a looked-up channel panics exactly when its instance subscribed or deregistered in between, its stream not having left before. |
| `FleetService.FleetService.Accepts` | internal/grpc/fleet_service.go:503-510 | Decides exactly the issued tokens. |
| `FleetService.FleetService.Register` | internal/grpc/fleet_service.go:87-178 | Adds a session for a named instance; a refused request adds nothing. |
| `FleetService.FleetService.Deregister` | internal/grpc/fleet_service.go:260-295 | Drops the session, then closes and forgets the channel, without closing a closed one. |
| `FleetService.FleetService.Subscribe` | internal/grpc/fleet_service.go:387-412 | Maps a new open channel and closes the one it replaces, exactly for accepted tokens. |
| `FleetService.FleetService.StreamExit` | internal/grpc/fleet_service.go:414-422 | Removes the channel of this stream and never a newer one. |
| `FleetService.FleetService.BroadcastEvent` | internal/grpc/fleet_service.go:546-558 | Every subscriber with room gets the event once, the others nothing, and no send hits a closed channel. |
| `FleetService.FleetService.Lookup` | internal/grpc/fleet_service.go:562-568 | Finds the serving channel, which is open at that moment. |
| `FleetService.FleetService.Deliver` | internal/grpc/fleet_service.go:570-576 | Panics exactly when another step closed the channel since the lookup; otherwise sends if there is room. |
| `FleetService.FleetService.ReportDeploymentStatus` | internal/grpc/fleet_service.go:501-543 | A report changes at most one record of one runner: the one of its deployment and of the instance its token was issued to. |
| `AgentState.CleanIsInStep` | internal/agent/state.go:89-123 | Until a change is waiting to be written, memory and file have the same content. |
| `AgentState.DirtyIsAccountedFor` | internal/agent/state.go:185-194 | A waiting change is owed by a caller between its change and its save, or the last save failed. |
| `AgentState.QuietStateIsOnDisk` | internal/agent/state.go:137-199 | With any number of concurrent callers, when no save is outstanding and the last one did not fail, the file holds what memory holds. |
| `AgentState.QuietCrashLosesNothing` | internal/agent/state.go:47-86 | A crash at such a moment loses nothing. |
| `AgentState.LastChangeHolds` | internal/agent/state.go:137-199 | Concurrent setters do not lose changes: memory holds the last change of each kind, whatever others change or save. |
| `AgentState.StateManager.Mutate` | internal/agent/state.go:137-199 | Assigns exactly the fields of its change. |
| `AgentState.StateManager.Load` | internal/agent/state.go:47-86 | Reads the file, or starts fresh when it is missing or does not parse. |
| `AgentState.StateManager.Save` | internal/agent/state.go:89-123 | Writes all of memory or leaves the file as it was. |
| `AgentState.StateManager.Set` | internal/agent/state.go:185-194 | A setter with other callers between its two halves; without an error the file is what memory is. |
| `AgentRecovery.RunsAreOneAtATime` | internal/agent/agent.go:378-430 | In every run one deployment is in hand at a time, and memory holds its id from its mark to its clearing. |
| `AgentRecovery.ActiveOnDiskExactly` | internal/agent/agent.go:386-422 | In every run whose saves succeed, with any number of crashes, the file holds the id of a deployment from the save of its mark to its clearing, and nothing but a leftover id otherwise. |
| `AgentRecovery.NothingInHandIsReported` | internal/agent/agent.go:244-249 | In every run, no deployment that is in hand is ever reported as interrupted: a session ends only after its event goroutine has returned to its stream. |
| `AgentRecovery.InterruptedIsReportedFirst` | internal/agent/agent.go:180-186 | In every run, an id found in the file at the start is the first thing reported, as failed, before any session begins; with none found nothing is. |
| `AgentRecovery.ReportedIffInFile` | internal/agent/agent.go:472-492 | The next process begins by reporting a deployment as interrupted if and only if its id was in the file at the crash. |
| `AgentRecovery.FileIsLastSave` | internal/agent/state.go:89-123 | While memory stays, the file is memory once a save has gone through and as it was until then. |
| `AgentRecovery.CutOffIsReportedIff` | internal/agent/agent.go:386-404 | A deployment cut off by a crash after its mark and before its clearing is reported as failed if and only if some save since the mark went through or the file had its id before. |
| `AgentRecovery.EndedIsReportedIff` | internal/agent/agent.go:421-422 | A deployment that ended, even successfully, is reported as failed by the next process if and only if its id had reached the file and no save since its clearing went through before the crash. |
| `AgentRecovery.CrashedDeploymentIsReported` | internal/agent/agent.go:472-508 | With successful saves, what a crash leads to at every point of a deployment: at work it is always reported first; between a change and its save it depends on what a heartbeat saved. |
| `AgentRecovery.LeftoverStaysUntilReported` | internal/agent/agent.go:486-503 | An id found at the start stays in the file, through failed reports, failed saves and crashes, until reported or replaced by the mark of another deployment. |
| `AgentRecovery.Agent.OnDeployment` | internal/agent/agent.go:378-430 | Marks first, then applies, then clears and saves, with heartbeats saving in between; without an error in the last save the file is clear. |
| `AgentRecovery.Agent.SetActiveDeployment` | internal/agent/agent.go:386-391 | Change and save of the active id; without an error the file has it. |
| `AgentRecovery.Agent.ClearActiveDeployment` | internal/agent/agent.go:511-518 | Clearing and save, after success and failure alike. |
| `AgentRecovery.Agent.HandleDeployment` | internal/agent/client.go:550-579 | Exactly two reports: the start, before anything else of the deployment, and at the end its result. |
| `AgentRecovery.Agent.ReportInterruptedDeployment` | internal/agent/agent.go:472-508 | Reports what memory has on record, once, and forgets it exactly if the report went out. |
| `ConfigFile.OverwriteAt` | internal/agent/sentinel.go:77-82 | A write at an offset puts its bytes there, keeps the file outside of them and fills a gap with zeros, as the file system does for writers that share a file. |
| `ConfigFile.PrivateIsKept` | internal/agent/sentinel.go:77-86 | Each step of a writer that is alone keeps the temporary file its own and changes the configuration only by the rename. |
| `ConfigFile.SerialWritesAreWhole` | internal/agent/sentinel.go:60-93 | Wherever crashes cut a run off, if writers take turns the configuration is wholly the last renamed content or the old one. |
| `ConfigFile.OverlapTears` | internal/agent/sentinel.go:77-86 | Writers are not made to take turns: whenever one is at work and another opens the temporary file, some continuation renames an emptied file into place, which is neither the old nor either new content unless one of them was empty. |
| `ConfigFile.OverlapTearsAtOnce` | internal/agent/sentinel.go:77-86 | If the first writer has written everything, its rename alone does it. |
| `ConfigFile.SafeIffTurns` | internal/agent/sentinel.go:77-86 | When writers took turns up to the last step and nothing was empty, the configuration is safe from being lost by their retries if and only if they took turns at that step too. |
| `ConfigFile.SentinelManager.WriteConfig` | internal/agent/sentinel.go:60-93 | Alone, a write without a fault replaces the configuration by the new content and one with a fault leaves it as it was. |
| `ConfigHistory.HistoryIsSound` | internal/api/handlers.go:352-658 | Every history of requests, with any store failures, keeps versions free of gaps, names unique and hashes true to their content. |
| `ConfigHistory.HealthIffNotBroken` | internal/api/handlers.go:481-509 | One request keeps the versions exactly 1 to current if and only if it does not append a version and then fail to write the row. |
| `ConfigHistory.HealthyIffNeverBroken` | internal/api/handlers.go:378-398 | After any history the versions of a configuration are exactly 1 to current if and only if no request broke them. |
| `ConfigHistory.FaultlessHistoriesAreHealthy` | internal/api/handlers.go:378-398 | Without store failures and without updates to a taken name every configuration is healthy. |
| `ConfigHistory.WedgedForever` | internal/api/handlers.go:487-500 | Once a version beyond the current one exists, then however the history goes on its versions never change again and every content update and rollback is refused. |
| `ConfigHistory.FirstVersionIff` | internal/api/handlers.go:384-398 | The first version exists if and only if the creation did not break. |
| `ConfigHistory.VersionsNeverChange` | internal/store/store.go:484-502 | A version, once written, is there with the same content after any further requests. |
| `ConfigHistory.CreateStores` | internal/api/handlers.go:352-405 | A creation answers Ok exactly for a new id, a name nobody has, a content and a store that takes both rows, and then adds a row at version 1 and that content as version 1 and nothing else; every other keeps the versions. |
| `ConfigHistory.UpdateStores` | internal/api/handlers.go:451-519 | An update answers Ok exactly for a live row, a free name, a free version number and a store that takes the writes; then a content sent becomes the version after the current one, with its hash, the row gets the name and that number, and nothing else changes. |
| `ConfigHistory.DeleteStores` | internal/api/handlers.go:522-538 | A deletion marks a live row and changes nothing else, or changes nothing. |
| `ConfigHistory.RollbackAnswers` | internal/api/handlers.go:586-658 | Exactly when a rollback answers each of its responses. |
| `ConfigHistory.ContentHasSource` | internal/api/handlers.go:352-658 | After any history every stored version holds the content of the request that appended it: of the creation, of the update, or of the version a rollback went back to. |
| `ConfigHistory.RollbackAppendsCopy` | internal/api/handlers.go:612-647 | A rollback that succeeds appends a copy of its target as the next version and changes nothing else. |
| `ConfigHistory.PreviousVersionIff` | internal/fleet/runner.go:684-694 | The version before a stored one is found, then and at any later rollback of a deployment, unless it is the first version of a configuration whose creation broke. |
| `ConfigHistory.Handler.CreateConfig` | internal/api/handlers.go:352-405 | The row first, then version 1; with Ok the row is at version 1 and that version has the content sent. |
| `ConfigHistory.Handler.UpdateConfig` | internal/api/handlers.go:451-519 | The version first, then the row; with Ok the content sent is the version after the current one, the row has the name and that number, and nothing else changed. |
| `ConfigHistory.Handler.RollbackConfig` | internal/api/handlers.go:586-658 | Its checks in order; with Ok a copy of the target is the next version and the row is at it. |
| `ConfigHistory.Handler.DeleteConfig` | internal/api/handlers.go:522-538 | With Ok the row is marked and nothing else changed; otherwise nothing did. |
| `VersionText.ScanPrint` | internal/agent/agent.go:393-395 | Scanning a printed 64-bit number gives it back. |
| `VersionText.PrintsDecimals` | internal/grpc/fleet_service.go:230-234 | A printed number is its decimal digits without leading zeros. |
| `VersionText.ScanReadsPrefix` | internal/agent/agent.go:393-395 | Scanning reads the digits in front and leaves what follows, and reads zero when there is none. |
| `VersionText.PrintInjective` | internal/grpc/fleet_service.go:230-234 | Versions with equal texts are equal. |
| `VersionText.FetchedIffFits` | internal/agent/client.go:376-381 | The agent fetches exactly the deployed version, and calls it by the name the hub uses, if and only if it fits in 32 bits. |
| `Heartbeat.Latest` | internal/store/store.go:530-552 | The greatest version of a configuration, if it has any. |
| `Heartbeat.LatestVersion` | internal/store/store.go:530-552 | A scan of the rows finds it. |
| `Heartbeat.ServeHeartbeat` | internal/grpc/fleet_service.go:222-256 | Announces a version exactly if there is one; what it announces can be fetched under that name, and it calls for an update exactly if fetching would change the version or hash the agent claims. |
| `Heartbeat.ServeGetConfig` | internal/grpc/fleet_service.go:318-352 | Asked for a number by its text, answers with that version under the same text, or not at all if there is none; asked for nothing, with the latest. |
| `Heartbeat.AnnouncedCanBeFetched` | internal/grpc/fleet_service.go:322-328 | What a heartbeat announced can be fetched later with the same content, whatever was added since. |
| `Heartbeat.RoundConverges` | internal/agent/agent.go:282-298 | A round that announces an update leaves the agent with the version that was latest when it asked if either application goes through, and unchanged if none does. |
| `Heartbeat.QuietIffLatest` | internal/grpc/fleet_service.go:232-243 | An agent on a version is told of no update if and only if that version is the latest. |
| `Heartbeat.NextRoundIsQuietIff` | internal/grpc/fleet_service.go:227-245 | After a round that went through the next announces nothing if and only if no version was added. |
| `Heartbeat.RollbackIsUndone` | internal/grpc/fleet_service.go:227-245 | An agent that a rollback put on an earlier version of its configuration is put on the latest again by its next round. |
| `Heartbeat.RegistrationMasksStaleFile` | internal/agent/client.go:251-257 | Registering takes over version and hash but no content: no update is announced, and the file is the latest exactly if it was before. |
| `Heartbeat.HistoriesGrow` | internal/store/store.go:484-502 | The tables of a hub only grow over its requests. |
| `Heartbeat.Agent.OnConfigUpdate` | internal/agent/agent.go:346-375 | With no crash in between, file, version and hash change together or not at all. |
| `Heartbeat.Agent.SendHeartbeat` | internal/agent/agent.go:258-299 | One round, with its two applications. |
| `Heartbeat.Agent.Register` | internal/agent/client.go:220-266 | Takes over version and hash, keeps the file. |

## Left out

- Orchestrator.RecoverOrphanedDeployments: the rows also hold progress texts; the failure reason is a flag here.
- FleetService.Register: the metadata of instance rows is not modelled, nor the two store calls that write it apart from their success.
- Agent.OnDeployment: what it fetches and writes is in `Heartbeat` and `ConfigFile`; here only whether it succeeded.
- Instance rows in the store: `persistInstanceStatus` (internal/fleet/runner.go:587-630) copies a record under the lock and writes it after, so rows can lag behind records; no theorem here speaks of them before a restart.
- The update of an instance's current configuration after its deployment (internal/fleet/runner.go:447-453): `Heartbeat` takes the assigned configuration as given, and asks that it stay the same during a round.
- Orchestrator.ResolveTargets: which instances match a label selector is an input; the ids of a request may repeat, as in the code.
- Audit logs, pagination, JSON, HTTP routing, the user and instance handlers: plumbing around single store calls.
- gRPC transport, interceptors, TLS, passwords, tokens of users and node identities: they rest on libraries.
- SQL: tables are maps by key, with the unique constraints of the schema.
- Concurrent requests to the configuration handlers: they are served one after another here.
- The event loop of a stream, keep-alive pings and acknowledgements: they change no state of the hub.
- Finding, signalling and reloading the proxy process, draining (which the agent does not implement), reconnection back-off.
- The backup copy made before a configuration is written, and restoring it: nothing else reads it.
- Heartbeat.Agent.OnConfigUpdate: its writes are one step here; a crash between them is the subject of `AgentRecovery` and `ConfigFile`.
- Error texts of the hub are constructors; only texts sent by agents are strings.
- InstanceWait.WaitForInstance: ticks and timeouts are taken at their exact instants. In `RunnerModel` a due tick may be taken at any later instant.
- RunnerTheorems.CompletedTookTime: the clock does not pass the deadline of a live context, so a timer that fires late is not modelled.
- AgentRecovery.Agent.HandleDeployment: stopping the agent is a crash as far as the model goes, since the process ends; acknowledgements are not modelled.
- AgentRecovery keeps only the active deployment id of the agent's state; the other fields are in `AgentState`.
