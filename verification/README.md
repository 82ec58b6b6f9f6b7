# Conductor, verified

A Dafny model of Conductor, a command-line orchestrator that runs jobs on rented GPU pods, and
proofs of what its lifecycle promises. A run is a list of jobs with dependencies; each job is
provisioned, deployed, launched, watched, synced and torn down, and may lose its pod, fail, or
be interrupted on the way. The world outside (provider, SSH, clock, file sync) is a parameter:
oracles and scripts of answers, so that every theorem holds whatever the world answers.

`dafny verify dfyconfig.toml` checks the whole project.

## How it is organised

Each operation exists twice: as a function on values, which says what it does, and as a method
on the records `PodState` and `RunState`, written in the steps of the original and proved to do
just that. Properties of runs are lemmas about the functions.

- `Base`, `State`: statuses, jobs, the run, the cost log, and the calls made to the world.
- `DependencyGraph`, `Validator`: the pre-flight check, a depth-first search that may leave
  stale gray names behind.
- `Ledger`: accrual, retry resets, the deduplicated stop log.
- `Propagation`, `Scheduler`, `Scan`: spreading a failure, and which pending jobs may start.
- `Provisioner`, `ProvisionPod`: the passes over the candidate list and the verified teardown.
- `JobSteps`, `MonitorJob`, `JobTick`: every operation on one job; its facts are in `JobFacts`.
  `Decisions` and `PipelineDecisions` say what each comes to from the configuration and the
  answers alone, and `Attention` that every job gets its step.
- `Lifecycle`, `WholeRun`, `RunLoop`: ticks, start phases, teardown, the loop, and a run from its
  reconciliation to its end. `RunFacts` proves what every run keeps; `Progress`,
  `CheckedStart`, `Waiting`, `BudgetStop`, `Recovery`, `Confirmation`, `Timers`, `Results`,
  `Releases`, `RegistryTruth`, `Billing` and `Shutdown` prove the rest.
- `ParallelStart`, `StartTerminates`, `StartAgrees`: the start phase as threads, interleaved
  arbitrarily.
- `PodNames`, `Reconcile`, `CrashSafety`: what survives the death of the orchestrator.
- `Commands`, `Sessions`: retries and manual teardowns, and the account over a run's whole life.
- `Registry`, `RegistryTrace`, `SaveState`, `MuteStdout`: the registry and the locks.
  `Backoff`: the two retry loops.

Where a claim one would expect fails, there is the input that shows it and the exact condition
under which it holds. A failed job can leave its pod without a termination request
(`Releases`); a timer can count the idleness of a pod that is gone (`Timers`); a new pod can
inherit confirmations (`Confirmation`); the registry can say "terminated" of a pod that may
still run (`RegistryTruth`); a pod can end up with a job that is over (`Reconcile`); an
interrupt teardown can leave a pending job behind a failed one (`Shutdown`); an adopted job can
run ahead of its dependencies (`Reconcile`).

Assumptions: one orchestrator per state file at a time; the state file is replaced atomically
and the locks exclude each other; times and costs are real numbers; the provider never
hands out an empty instance id. A name "job" in a call is the job it was made for.

Where the code and its documentation differ, the model follows the code. Examples: the
registry is told "terminated" after a pipeline fault whatever the teardown answered; whether
a kept-alive pod is reused is decided before its existence is known; a dependent of a job whose
sync failed is neither started nor skipped; a graceful shutdown fails jobs without skipping
their dependents.

## Model

| member | source | states |
|---|---|---|
| Validator.CheckDependencies | src/conductor/validator.py:140-169 | there is a cycle error exactly when the graph restricted to configured names has a cycle; no error at all exactly when moreover every dependency is configured; without a cycle the order in which names turned black lists every job after its dependencies |
| Validator.CycleSearch.Dfs | src/conductor/validator.py:153-165 | the coloured search terminates (fewer white names), blackens its node and everything it needs or reports a genuine cycle, and stays correct with gray names left over from a search that returned early |
| Validator.FindCycles | src/conductor/validator.py:148-169 | every reported edge is an edge between configured names, and a report means a cycle exists |
| Validator.FindUnknown | src/conductor/validator.py:141-146 | one error per dependency on an unconfigured name, in configuration order |
| Validator.NoUnknownErrors | src/conductor/validator.py:141-146 | no such error exactly when every dependency is configured |
| DependencyGraph.TopologicalOrderExcludesCycles | src/conductor/validator.py:148-169 | a dependencies-first listing excludes cycles, so the accepted configurations are acyclic, which the scheduler relies on |
| Ledger.AccrueCost | src/conductor/state.py:60-76 | in plain arithmetic: a started job with a rate, finished or not, costs the larger of what it cost and its hours up to now, or up to its finish, times the rate; any other keeps its cost; the spend rises by the same amount and nothing else changes |
| Ledger.ResetJobForRetry | src/conductor/state.py:176-198 | every field a retry resets, and the pod fields it keeps on request |
| Ledger.FinishJobClock | src/conductor/monitor.py:953-957 | the finish time is set once, and only for a started job |
| Billing.AccruedIs | src/conductor/state.py:60-76 | accrual in hours and rates, with no function of the accrual in the statement |
| Ledger.RecordPodStopped | src/conductor/state.py:225-232 | a stop event is appended exactly when the log has none for the pod, or there is no pod id; and says whether it was |
| Ledger.AccrualIsMaximum | src/conductor/state.py:60-76 | for fixed start, rate and finish, any sequence of clock readings leaves the larger of the old cost and the cost at the latest reading |
| Ledger.AccrualIndependentOfTicks | src/conductor/state.py:60-76 | the split of an interval into ticks does not matter |
| Ledger.NothingPastFinish | src/conductor/state.py:60-76 | nothing is added past the finish time |
| Ledger.LedgerConserved | src/conductor/state.py:60-76 | over any mix of accruals, re-billings and resets, spend minus counters changes by exactly what the resets drop |
| Ledger.RecordStopKeepsUnique | src/conductor/state.py:217-232 | at most one stop event per non-empty pod id |
| Propagation.PropagateFailure | src/conductor/monitor.py:1019-1025 | terminates on every graph, cyclic ones included, and skips exactly the pending jobs reachable from the failed one through pending jobs |
| Propagation.PropagatedIsClosed | src/conductor/monitor.py:1019-1025 | afterwards no pending job depends on the failed job or on one it skipped |
| Propagation.ProgressComplete | src/conductor/monitor.py:1019-1025 | the recursive, in-place spread reaches the whole reachable set |
| Scan.GetStatus | src/conductor/state.py:169-173 | the status of the first job of that name |
| Scan.CheckDepsMet | src/conductor/monitor.py:1003-1008 | true exactly when every dependency is present and completed |
| Scan.CheckDepsFailed | src/conductor/monitor.py:1011-1016 | true exactly when some dependency is present and failed or skipped |
| Scan.ScanJobs | src/conductor/monitor.py:459-480 | the scan of a start phase on the records equals its specification |
| Scan.ScanResult | src/conductor/monitor.py:459-480 | after the scan no configured pending job depends on a failed or skipped one, the ready list is exactly the configured pending jobs whose dependencies completed, and skips are the only changes |
| Scheduler.SettleKeepsClosed | src/conductor/monitor.py:1019-1025 | a job's outcome, with its failure spread, keeps the list closed under failure |
| Scheduler.SettleKeepsDepSafe | src/conductor/monitor.py:1003-1008 | and keeps every active or completed job's dependencies completed |
| Scheduler.SettleKeepsJustified | src/conductor/monitor.py:1019-1025 | every newly skipped job has a dependency that failed, was skipped or could not be synced |
| ParallelStart.EveryScheduleAgrees | src/conductor/monitor.py:485-501 | every interleaving of the pipeline threads, at the granularity of single status reads and writes, ends in the same statuses; no ready job is skipped by another's failure |
| ParallelStart.SequentialAgrees | src/conductor/monitor.py:485-501 | running the pipelines one after the other, in any order, gives those statuses too |
| StartTerminates.StepsAreBounded | src/conductor/monitor.py:485-501 | under every schedule at all the unfinished pipeline threads take no more steps than a number known beforehand: no interleaving goes on for ever |
| StartTerminates.StepFalls | src/conductor/monitor.py:485-501 | every step of an unfinished thread lowers that number, a finished thread changes nothing |
| StartTerminates.FairSchedulesAgree | src/conductor/monitor.py:485-501 | every fair schedule of enough rounds runs all pipelines to their end and leaves the one status map |
| StartAgrees.PipelineJobOnly | src/conductor/monitor.py:504-639 | a pipeline, resuming or not, has an effect on its job that depends on nothing but the job and the world's answers |
| StartAgrees.ParallelStartAgrees | src/conductor/monitor.py:449-501 | every complete interleaving of the pipelines leaves the statuses of the sequential start phase that the rest of the model uses |
| StartAgrees.FairStartAgrees | src/conductor/monitor.py:449-501 | and every fair schedule of enough rounds is complete, so the parallel start phase always ends, with those statuses |
| Provisioner.ProvisioningWalk | src/conductor/provisioner.py:161-204 | candidates are tried in lexicographic (pass, candidate) order without gaps; only the last attempt is decisive and it decides the outcome; another pass only after a lack of capacity; each pass begun counts one attempt |
| Provisioner.InstancesAccountedFor | src/conductor/provisioner.py:48-83 | whatever pod the job had: at every exit each instance this call created is the one in hand, which the job tracks, or was released once, never both, and none was created while an earlier one was owed; a walk that gives up has none in hand |
| Provisioner.EntryPodKeptExactlyWhenNone | src/conductor/provisioner.py:133-139 | entered with a pod, the walk can drop it unreleased; it never does exactly when there is no pod or no candidate |
| ProvisionPod.ProvisionPod | src/conductor/provisioner.py:112-204 | provisioning on the records refines the walk |
| ProvisionPod.WalkCandidates | src/conductor/provisioner.py:161-204 | the nested pass and candidate loops refine the walk |
| ProvisionPod.TryCandidate | src/conductor/provisioner.py:48-83 | one attempt: record, announce, wait, release or keep |
| ProvisionPod.TeardownPod | src/conductor/provisioner.py:282-318 | true exactly when one of three terminate calls succeeded and a gone answer came no later than the first poll past the deadline; how many terminate calls were made |
| MonitorJob.FinishJob | src/conductor/monitor.py:875-950 | on the records: sync-failed, with the pod kept, exactly when the results are wanted on a pod, the teardown is not forced, the sync failed, and a failed job's pod is to be kept on failure; otherwise the outcome intended; the final cost, the stop event, the calls |
| MonitorJob.FinalSync | src/conductor/monitor.py:969-987 | true without sync paths, false without an address, otherwise the sync's answer |
| MonitorJob.LaunchJob | src/conductor/monitor.py:642-670 | running with its pid, or failed with the pod's teardown requested |
| MonitorJob.ProvisionDeployLaunch | src/conductor/monitor.py:504-639 | the whole pipeline of a job with every way it can fail or be interrupted, a release that cannot be recorded included |
| MonitorJob.SpotRecover | src/conductor/monitor.py:821-869 | fails the job without attempts left; otherwise releases the dead pod, waits and provisions again |
| Decisions.FinishDecides | src/conductor/monitor.py:875-950 | the exact condition for sync-failed and for keeping the pod; what is called, logged and told to the registry |
| Decisions.RecoverDecides | src/conductor/monitor.py:821-869 | fails without a call when the attempts are used up; otherwise terminates the dead pod, logs its stop, waits, and provisions from nothing unless interrupted |
| Decisions.BackoffDoubles | src/conductor/monitor.py:849-851 | the wait is the base at the first attempt and doubles with each |
| PipelineDecisions.RunsExactlyWhen | src/conductor/monitor.py:504-670 | a pipeline leaves its job running exactly when it gets a pod, nothing raises or stops it, the deploy succeeds and the launch yields a pid; with which pod, address and pid |
| PipelineDecisions.ResumeDecides | src/conductor/monitor.py:604-622 | a resumed pod takes the provider's address; without an address or an answer the job fails and gives up the pod |
| PipelineDecisions.ProvisioningGives | src/conductor/provisioner.py:161-204 | the pod given is that of the last attempt, reachable, at its price or the fixed rate |
| PipelineDecisions.AttemptRecords | src/conductor/provisioner.py:48-83 | an instance is recorded as soon as it is created, at its price or the fixed rate, and its start logged; an unverified release is logged as orphaned; a released pod is forgotten with its address |
| JobTick.PodGoneConfirmed | src/conductor/monitor.py:404-420 | counts gone answers; unknown neither counts nor resets; confirmed exactly at the needed number |
| JobTick.TickJob | src/conductor/monitor.py:301-401 | one tick of a running job in all its branches |
| JobTick.HandleExit | src/conductor/monitor.py:423-446 | the code is recorded; with 0 the job is completed or sync-failed and nothing spreads, with any other it is failed or sync-failed and that spreads |
| Decisions.CompletesExactlyWhen | src/conductor/monitor.py:318-401 | a tick completes the job exactly when, within its budget and with an address, the process exited with 0, or is gone and its live pod has been idle too long; and the sync succeeded, is not wanted, or there is no pod |
| Decisions.SyncFailsExactlyWhen | src/conductor/monitor.py:875-905 | and leaves it sync-failed exactly when it found an end whose results are wanted and the sync on its pod failed |
| Decisions.OtherCodeFails | src/conductor/monitor.py:423-446 | an exit with any other code fails the job or leaves it sync-failed, and spreads |
| Decisions.OverspentFails | src/conductor/monitor.py:310-316 | a job over its own budget fails, its pod's termination requested whatever the sync answers |
| Decisions.RunningGoesOn | src/conductor/monitor.py:322-351 | a process that runs drops all suspicion; an idle GPU starts the stall timer, a busy one stops it; a sync that is due is noted |
| Decisions.SilentGoesOn | src/conductor/monitor.py:374-401 | nobody answers and the pod is there: without a pid the job is launched, otherwise it takes the provider's address |
| Decisions.GoneGoesOn | src/conductor/monitor.py:353-401 | the provider does not vouch for the pod: nothing, a confirmation counted, or recovery at the number needed |
| JobTick.ResumeJob | src/conductor/monitor.py:696-722 | a job persisted mid-flight: retry later, drop a pod that is gone, or continue on it |
| PipelineDecisions.ResumptionDecides | src/conductor/monitor.py:696-722 | it is billed first; a pod that is gone is dropped with its address and pid, and the registry told |
| JobTick.MonitorStep | src/conductor/monitor.py:254-275 | the step of one active job; or an exception, transient, fatal or a shutdown, after as much of the tick as had been written by then |
| PipelineDecisions.ExceptionDecides | src/conductor/monitor.py:254-299 | a transient error or a shutdown leaves status and pod as they were, billed; any other exception fails the job as a failed finish would, and spreads |
| Decisions.PartOfTick | src/conductor/monitor.py:301-401 | an exception leaves the record as the tick had it by then: what is missing is only what a tick that goes on writes later |
| RunLoop.MonitorPass | src/conductor/monitor.py:248-275 | the monitor's pass over the jobs: cut short exactly by a shutdown at a configured job under way; every such job up to there becomes what its own step makes of it, and any other is as it was, or newly skipped while its dependencies were not complete |
| Attention.PassAttends | src/conductor/monitor.py:248-275 | a pass comes to every configured job under way, until a shutdown ends it, and leaves all others alone |
| Attention.MidFlightIsResumed | src/conductor/monitor.py:248-264 | a job persisted mid-flight is billed, and running or failed after the next pass that comes to it, unless its pipeline was told to stop or nobody can tell whether its pod is there |
| Attention.FailedEndLeavesNoDependents | src/conductor/monitor.py:423-446 | after the pass that sees an exit with another code than 0, or a stall, no pending job depends on it |
| RunLoop.StartUnblockedJobs | src/conductor/monitor.py:449-501 | the start phase on the records: exactly the configured pending jobs whose dependencies are completed become what their own pipelines make of them; nothing under a shutdown |
| Attention.StartAttends | src/conductor/monitor.py:449-501 | a start phase runs the pipeline of every pending job that is due, and of no other |
| RunLoop.TickRun | src/conductor/monitor.py:240-278 | one tick: the pass, then the start phase; a tick cut short, or shut down before its start phase, starts no pending job |
| Attention.TickStarts | src/conductor/monitor.py:240-278 | which jobs a tick starts: none after a shutdown, otherwise exactly those due after the pass |
| RunLoop.TeardownAll | src/conductor/monitor.py:1035-1052 | the forced teardown of everything live |
| RunLoop.CheckAllDone | src/conductor/monitor.py:1031-1032 | true exactly when every job is completed, failed, skipped or sync-failed |
| RunLoop.MonitorLoop | src/conductor/monitor.py:110-125 | the loop with its shutdown and budget exits, a shutdown while it sleeps included, and what had been spent at each sleep |
| RunLoop.RunLifecycle | src/conductor/monitor.py:99-144 | a whole run: reconcile, start, loop, then the interrupt teardown or the crash handler. Every instance listed alive under its names and tracked by no job is registered or asked to terminate before any is created; what each way of ending leaves; outcomes are final, skips justified, spend and counters in step, stop events unique, and the list closed under failure exactly unless a shutdown opened it |
| WholeRun.RunOverlooksNone | src/conductor/monitor.py:99-144 | in a run, every untracked instance listed alive under its names is registered or asked to terminate before the first is created; and a run stopped before its start phase leaves each the pod of its job or asked to terminate, if gone answers are truthful |
| WholeRun.RunEndsWell | src/conductor/monitor.py:99-144 | by itself a run ends only with every job over; stopped by the budget, with nothing live; by a shutdown that tears down, with nothing under way; by an exception, with no live pod of a job that asks for a teardown |
| RunLoop.HandleCrash | src/conductor/monitor.py:186-221 | does nothing if no live pod belongs to a job that asks for a teardown, and leaves no such pod live |
| WholeRun.WholeRunKeeps | src/conductor/monitor.py:99-144 | the same for every script of the world, on values |
| WholeRun.GracefulKeeps | src/conductor/monitor.py:1055-1096 | an interrupt teardown keeps outcomes, justified skips, the ledger and the order of the dependencies |
| JobFacts.ProvisionFacts | src/conductor/provisioner.py:112-204 | provisioning leaves cost, confirmations and finish time alone, fails exactly on exhaustion or a rejected key, and raises the attempts unless exhausted |
| JobFacts.PipelineFacts | src/conductor/monitor.py:548-639 | a pipeline never touches cost, confirmations or stop events, spreads exactly a failure, ends running or failed unless told to stop, and from no pod fails or counts an attempt |
| JobFacts.FinishFacts | src/conductor/monitor.py:875-950 | finishing books the spend on the job, keeps one stop event per pod, spreads exactly an intended failure, and ends in the intended status or sync-failed |
| JobFacts.TickFacts | src/conductor/monitor.py:301-401 | a tick makes only lawful status changes |
| JobFacts.MonitorFacts | src/conductor/monitor.py:254-299 | so does the monitor's whole treatment of a job, whatever is raised and however far the tick had come |
| RunFacts.EveryRunKeeps | src/conductor/monitor.py:103-125 | for every script of answers and at every tick boundary: no configured pending job depends on a failed or skipped one, skips justified, outcomes final, spend and counters in step; dependency order and one stop per pod kept if they held |
| RunFacts.StartKeeps | src/conductor/monitor.py:449-501 | a start phase keeps the invariants, leaves finished jobs alone and closes the list under failure even where it was open |
| RunFacts.TickKeeps | src/conductor/monitor.py:240-278 | a tick keeps the invariants and touches no finished or sync-failed job: no field, no call |
| RunFacts.LoopKeeps | src/conductor/monitor.py:110-125 | so does the loop, except for the budget stop |
| Progress.NoDeadlock | src/conductor/monitor.py:449-501 | if the dependency check accepts, a start phase without shutdown ends with all jobs over, or some job under way, or every pending job waiting through pending jobs for a sync-failed one |
| Progress.TickNoDeadlock | src/conductor/monitor.py:240-278 | the same after every tick |
| Progress.OrderRanks | src/conductor/validator.py:148-169 | the order found by the dependency check ranks jobs above their dependencies |
| CheckedStart.CheckAndStart | src/conductor/cli.py:368-418 | nothing starts on a rejected configuration; on an accepted one, a start phase that is not interrupted cannot leave the configured jobs stuck, in whatever state they were loaded |
| Waiting.NeitherMetNorFailed | src/conductor/monitor.py:1003-1016 | a job with a sync-failed dependency is never ready, and is skipped exactly for the sake of another dependency |
| Waiting.WaitsForever | src/conductor/monitor.py:110-125 | so a dependent never starts however long the loop runs, and the loop does not end by itself while it is pending; only the budget stop ends the wait |
| BudgetStop.SleepsOnlyWithinBudget | src/conductor/monitor.py:118-125 | whenever the loop sleeps the budget is off or not reached; at the stop the overshoot is less than what was spent since the check before |
| BudgetStop.TeardownClears | src/conductor/monitor.py:1035-1052 | after the teardown no configured job is live or sync-failed, and each that was, and had a pod, has its termination requested and its stop logged |
| BudgetStop.BudgetStopClears | src/conductor/monitor.py:118-122 | a run stopped by the budget has nothing live left |
| BudgetStop.LoopEnds | src/conductor/monitor.py:110-125 | the loop ends by itself only when every job is over, by a shutdown only where one is requested, by the budget only where it is reached |
| Recovery.BoundedRecovery | src/conductor/monitor.py:821-869 | in a run without shutdown a job is re-provisioned at most max(0, maximum - attempts at the start) times |
| Recovery.BackoffBounded | src/conductor/monitor.py:849-851 | each wait is at most base * 2^(maximum - 2) |
| Confirmation.CounterCountsGone | src/conductor/monitor.py:360-420 | over every trace of the monitor's steps on an active job, recoveries, interruptions, resumptions and exceptions included, the counter is the number of gone answers since the pod was last seen alive or replaced, on top of what the trace began with |
| Confirmation.RecoveryNeedsConfirmations | src/conductor/monitor.py:360-420 | after every such trace, recovery starts exactly when a gone answer brings that number to the confirmations needed |
| Confirmation.TickSign | src/conductor/monitor.py:301-401 | what each observation does to the counter, and when recovery starts |
| Confirmation.NewPodInheritsCount | src/conductor/monitor.py:765-793 | a pod given by reconciliation starts from the count of the pod it replaces: exactly that many confirmations fewer are needed |
| Confirmation.OneGoneCanSuffice | src/conductor/monitor.py:782-793 | so a single gone answer can start a recovery of the new pod |
| Results.ResultsNotLost | src/conductor/monitor.py:423-437 | from the tick that finds a job's end on, completed, or failed with its pod to be kept on failure, the pod is terminated only after a final sync that succeeded; otherwise it is kept and the job untouched, the budget stop excepted |
| Results.UnwantedIsReleased | src/conductor/monitor.py:885-920 | a failure whose pod is not to be kept requests its termination, whatever the sync answers |
| Shutdown.GracefulShutdown | src/conductor/monitor.py:1055-1096 | the interrupt teardown on the records |
| Shutdown.GracefulFacts | src/conductor/monitor.py:1055-1096 | every configured job under way fails, every other keeps every field; the ledger and the stop log stay sound |
| Shutdown.InterruptAsks | src/conductor/monitor.py:1055-1096 | results are fetched from a running job that can be reached; the pod is terminated unless kept alive, and its stop logged |
| Shutdown.ShutdownClosure | src/conductor/monitor.py:1055-1096 | the shutdown does not spread failures: the list stays closed under failure exactly when it was closed and nobody pending waits for an interrupted job |
| Shutdown.ShutdownCanOpen | src/conductor/monitor.py:1055-1096 | a concrete run in which the closure is lost |
| PodNames.NameRoundTrip | src/conductor/state.py:102-103 | a pod's name leads back to its job |
| PodNames.NamesAre | src/conductor/state.py:102-103 | the name of a pod, letter by letter |
| PodNames.NameIsItsOwn | src/conductor/monitor.py:737-757 | and only that name does |
| PodNames.RunsDoNotCollide | src/conductor/monitor.py:737-757 | hyphen-free run ids never claim each other's pods, whatever the jobs are called |
| PodNames.UnnamedRunsCanCollide | src/conductor/state.py:102-103 | pods of runs without an id are claimed exactly when the job's name begins with the id and a hyphen |
| Reconcile.ReconcileRunPods | src/conductor/monitor.py:725-797 | reconciliation on the records |
| Reconcile.ReconcileOne | src/conductor/monitor.py:752-796 | one listed instance: ignored, kept, adopted, taken in place of a pod that is gone, or terminated |
| Reconcile.TerminateStray | src/conductor/monitor.py:800-818 | a stray's teardown, registry mark and single stop event, without a cost |
| Reconcile.NoListedPodLost | src/conductor/monitor.py:725-797 | from any state: every instance listed alive under a name of the run is its job's pod or its termination was requested, if gone answers are truthful |
| Reconcile.UntrackedAreDealtWith | src/conductor/monitor.py:725-797 | from any state and whatever is answered: every instance listed alive under a name of the run and tracked by no job gets a registration or a termination request |
| Reconcile.OneDecides | src/conductor/monitor.py:752-818 | one instance case by case: a replaced pod's address and pid are dropped and a running job is to be resumed; an adopting pending job is to be resumed, its clock started; a stray's calls and stop event |
| Reconcile.WellKeptExactlyWhen | src/conductor/monitor.py:725-797 | whatever is listed, every instance of the run ends as the pod of a job that is not over, or with its termination requested, exactly when no configured job that is over referred to a pod beforehand |
| Reconcile.OneWellKept | src/conductor/monitor.py:752-796 | for one instance: exactly unless it carries the name of a job that is over and is, or replaces, that job's pod |
| Reconcile.ReconcileKeepsOutcomes | src/conductor/monitor.py:725-797 | outcomes and the closure under failure are kept, and nobody is skipped |
| Reconcile.OnlyOwnPodsTouched | src/conductor/monitor.py:752-796 | no other instance is terminated; a job's pod changes only to an instance carrying the job's name, of which the registry is told |
| Reconcile.AdoptionInOrder | src/conductor/monitor.py:765-776 | adoption into a pending job ignores dependencies: it keeps the order exactly when they happen to be completed |
| CrashSafety.NoPodLost | src/conductor/monitor.py:574-583 | with crashes allowed between any two steps, after a restart and a successful listing every live instance of the run is its job's pod or its termination was requested |
| CrashSafety.RegistryRemembers | src/conductor/registry.py:86-129 | with other processes writing too, and crashes also in the middle of a change: a pod whose registration was saved is in the registry, once, exactly unless its removal was saved since |
| CrashSafety.RegisteredStay | src/conductor/monitor.py:574-583 | nobody removes records, so every pod whose registration was saved stays |
| Commands.ApplyRetryFlags | src/conductor/cli.py:434-460 | both passes of the retry flags on the records |
| Commands.RetryKeepsPods | src/conductor/cli.py:434-460 | nothing configured stays failed or skipped under --retry-failed, and no pod of a failed or completed job is forgotten |
| Commands.RetryPicks | src/conductor/cli.py:434-460 | exactly the configured jobs that failed or were skipped, or that completed, as asked for, become pending; any other is unchanged |
| Commands.RetryStartsOver | src/conductor/state.py:176-198 | a retried job is as it was made, but for the pod it keeps |
| Commands.RetryKeepsOrder | src/conductor/cli.py:434-460 | retrying keeps the dependency order exactly when completed jobs are not retried or no active job depends on anything |
| Commands.RecordManualTeardown | src/conductor/cli.py:644-670 | a manual teardown on the records |
| Commands.ManualTeardownIdempotent | src/conductor/cli.py:644-670 | repeating it changes no cost, spend, finish time, status or log |
| Commands.ManualTeardownFacts | src/conductor/cli.py:644-670 | it books the cost once, logs one stop and keeps the outcome of a finished job |
| Commands.ManualTeardownTells | src/conductor/cli.py:644-670 | the registry is told exactly what the teardown came to, and the stop logged with it |
| Sessions.EverySessionAccounts | src/conductor/state.py:217-232 | over any sequence of reconciliations, runs, shutdowns, crash teardowns, retries and manual teardowns: one stop event per pod, and spend minus counters changes only by what retries reset |
| Registry.PodList.AddPod | src/conductor/registry.py:107-110 | replaces any record of that id and appends |
| Registry.PodList.UpdatePod | src/conductor/registry.py:113-121 | sets the named fields of the first record of that id, and of no other |
| Registry.PodList.RemovePod | src/conductor/registry.py:124-129 | removes every record of that id and says whether there was one |
| Registry.PodList.ReconcileWithProvider | src/conductor/registry.py:139-168 | terminated and running records follow the provider's definite answers, all others stay |
| Registry.ApplyFacts | src/conductor/registry.py:107-129 | ids stay unique, and exactly the pod an operation adds comes in and the pod it removes goes out |
| Registry.CheckFollows | src/conductor/registry.py:139-168 | each record's status after a check with the provider: terminated when it is gone, running when it is back, otherwise as it was |
| Registry.UpdateSets | src/conductor/registry.py:113-121 | an update sets the status and fields it names and leaves the others |
| Registry.OperationsLinearise | src/conductor/registry.py:86-93 | for any number of threads at lock, load, change, save, unlock granularity, the registry is their operations applied in lock order, each once; a failing operation writes nothing; no add is lost |
| SaveState.FileNeverGoesBack | src/conductor/state.py:126-153 | with snapshot and write under one lock, no field's version in the state file goes backwards, though fields change while they are read |
| SaveState.SaveEnds | src/conductor/state.py:126-153 | whatever runs in between, a save that took the lock and has read every field leaves a file at least as new as every field was when it took it |
| MuteStdout.Mute.Enter | src/conductor/providers/runpod.py:46-53 | the first one in saves the output and installs a sink |
| MuteStdout.Mute.Exit | src/conductor/providers/runpod.py:55-64 | the last one out restores it |
| MuteStdout.RealOutputExactlyWhenEmpty | src/conductor/providers/runpod.py:46-64 | for every interleaving the real output is in place exactly when no thread is inside |
| Backoff.Retry | src/conductor/retry.py:67-81 | calls up to the first success or fatal error, at most the attempts; the result is the last call's; the waits follow the stored-cap schedule |
| Backoff.SshRun | src/conductor/ssh.py:69-85 | the same with the delay capped at use, ended early by a shutdown |
| Backoff.WaitsAre | src/conductor/retry.py:74-80 | each wait is the base doubled with every call, capped, times the jitter |
| Backoff.SchedulesAgree | src/conductor/retry.py:67-80 | the two schedules agree at every wait exactly when the cap is not negative or never bites |
| Backoff.TotalWait | src/conductor/ssh.py:71-85 | total waiting is at most 1.5 times the smaller of base * (2^n - 1) and cap * n, and at least half of n times the first wait |
| Billing.FinishIsFinal | src/conductor/monitor.py:925-935 | a finished job's cost is that of the time up to its finish, and no later clock reading changes it |
| Billing.FinishBills | src/conductor/monitor.py:903-935 | finishing a job, unless its pod is kept for its results, bills the last stretch: the larger of the old cost and the hours up to the finish, or to the last reading if earlier, times the rate; the spend rises with it |
| Billing.InterruptBills | src/conductor/monitor.py:1076-1092 | so does interrupting a started job that has a pod; of any other only the status changes |
| Billing.TeardownByHandBills | src/conductor/cli.py:644-662 | and so does a teardown by hand, unless the pod's stop is on record, when nothing is billed |
| RegistryTrace.ProvisionAnnounces | src/conductor/monitor.py:574-583 | every instance provisioning creates is registered at once, except one whose creation callback raised |
| RegistryTrace.CreatedAreRegistered | src/conductor/monitor.py:574-583 | and is in the registry after whatever calls follow |
| Releases.PipelineLetsGoExactlyWhen | src/conductor/monitor.py:504-639 | whatever the world answers, a pipeline that fails has asked for the termination of the pod the job still refers to, exactly when it continues on a pod, keeps none alive, or the job has none |
| Releases.MonitorLetsGo | src/conductor/monitor.py:254-299 | a step of the monitor that fails a job has asked for its pod's termination, exactly except where finishing raised after an unexpected exception, or the last confirmation came with no attempts left |
| Releases.TickLetsGo | src/conductor/monitor.py:301-401 | the same for one tick: exactly except where recovery gives up |
| Releases.ReuseCanStrand | src/conductor/provisioner.py:133-150 | the exception is real: a kept-alive pod that cannot be confirmed is left by a job without candidates |
| Timers.TimerMarksStretch | src/conductor/monitor.py:328-366 | over every trace of the monitor's steps, recoveries and exceptions included, the stall timer and the idle timer each hold the time at which the idle stretch under way began |
| Timers.ClockNeedsUnbrokenIdling | src/conductor/monitor.py:333-372 | after every such trace an idle reading ends the job, for a stall or as idle, exactly when it comes the timeout or more after the first of the unbroken idle stretch before it |
| Timers.StretchStartIs | src/conductor/monitor.py:333-351 | the start of the idle stretch the readings end in |
| Timers.OwnIdlenessExactlyWhen | src/conductor/monitor.py:856-865 | the stretch is that of the job's present pod exactly when the job has not moved to a new pod since it began |
| Timers.FirstReadingCanEnd | src/conductor/monitor.py:856-865 | a recovery resets neither timer: the first idle reading of the new pod can end the job |
| Timers.NewPodFailsForOldStall | src/conductor/monitor.py:856-865 | a concrete job that is failed for a stall when its new pod is read for the first time |
| RegistryTruth.FinishTellsTruth | src/conductor/monitor.py:922-946 | finishing marks a pod terminated only if it is known to be gone, by a verified teardown or the provider's word |
| RegistryTruth.FinishSaysWhat | src/conductor/monitor.py:922-946 | and always says last what became of the pod |
| RegistryTruth.PipelineTellsTruthExactlyWhen | src/conductor/monitor.py:504-639 | a whole pipeline says terminated only of pods known to be gone, exactly unless it raises with a pod in hand whose teardown is not verified |
| RegistryTruth.PipelineCanLie | src/conductor/monitor.py:533-540 | it happens: a resumed pod that does not answer and whose teardown nobody verifies |
| RegistryTruth.MonitorTellsTruthExactlyWhen | src/conductor/monitor.py:254-299 | the same for every step of the monitor: recovery and dropping a lost pod tell the truth; only the pipeline they start can fail to |
| RegistryTruth.ReconcileTellsTruth | src/conductor/monitor.py:725-797 | reconciling always tells the truth |
| Billing.CostIsMaximumOverPods | src/conductor/provisioner.py:152-160 | after re-provisioning the cost is the larger of the old cost and the new pod's own, their sum exactly when one is zero |

## Left out

- Texts: error messages, log tails, notifications and the status table; a job's `error` field is not modelled.
- Deploying, launching, process checks, GPU readings and file sync are answers of the world, not modelled inside.
- The candidate list is an arbitrary sequence: GPU pricing, catalogs and filters are not modelled.
- JSON, atomic file replacement and `flock` are assumed, as are signal delivery and Python's recursion limit.
- The heartbeat's check for another live orchestrator is not a lock, so mutual exclusion of two starting processes is assumed, not proved.
- The detach on Ctrl-C, which changes nothing, and the second Ctrl-C, which kills the process.
- Exceptions other than those named in the answer types.
- Registry writes of the pipeline are calls in the order made; a write that fails, which the original only logs, is not modelled there. Failing writes are in `Registry` and `CrashSafety`.
- MonitorJob.ProvisionDeployLaunch: assumes that registry writes and saves of the state succeed, except where an answer says that one raised.
- RunLoop.StartUnblockedJobs: runs the ready pipelines one after the other on the records; that their threads may interleave is proved for the statuses, the only fields pipelines share, in `StartAgrees`.
- JobTick.MonitorStep: an exception inside finishing or recovering a job is taken to strike before that began, because what such a call leaves half done depends on the file system.
- RunLoop.RunLifecycle: an exception strikes between ticks, because the handler acts on whatever state it finds, and `WholeRun.CrashedKeeps` covers any.
- Registry.PodList.UpdatePod: a record has fewer descriptive fields than in the original, where each is set the same way.
- Provisioner.InstancesAccountedFor: that a job which had no pod tracks no pod but the one in hand assumes that the provider's ids are not empty, and that no exception left it with a released one.
- ProvisionPod.TeardownPod: assumes that the clock eventually passes the deadline, without which the original would poll forever.
- Merging new jobs into a loaded state, the list of retried names that the command prints, and imperative pods outside a run.
- Floating-point rounding.
