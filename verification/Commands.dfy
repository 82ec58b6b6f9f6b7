/** What the command line does to the state between runs: returning finished jobs to pending,
    and accounting for pods torn down by hand. */
module Commands {
  import opened Base
  import opened State
  import opened Ledger
  import opened Scheduler
  import opened JobSteps
  import opened MonitorJob

  type Configs = map<Name, JobConfig>

  // ---- --retry-failed and --retry-completed ----

  predicate Chosen(j: Job, configs: Configs, failed: bool, completed: bool) {
    j.name in configs && ((failed && j.status == Failed) || (completed && j.status == Completed))
  }

  /** What becomes of one job. A pod that is still referenced stays referenced, except by a
      skipped job. */
  function Retried(j: Job, configs: Configs, failed: bool, completed: bool): Job {
    if Chosen(j, configs, failed, completed) then
      ResetForRetry(j, (j.status == Completed && configs[j.name].keepPodAlive) || HasPod(j))
    else if failed && j.status == Skipped && j.name in configs then ResetForRetry(j, false)
    else j
  }

  function RetriedAll(jobs: seq<Job>, configs: Configs, failed: bool, completed: bool): (r: seq<Job>)
    ensures |r| == |jobs|
    ensures forall i :: 0 <= i < |jobs| ==> r[i] == Retried(jobs[i], configs, failed, completed)
  {
    seq(|jobs|, i requires 0 <= i < |jobs| => Retried(jobs[i], configs, failed, completed))
  }

  /** The first pass: finished jobs. */
  function FirstPass(j: Job, configs: Configs, failed: bool, completed: bool): Job {
    if Chosen(j, configs, failed, completed) then Retried(j, configs, failed, completed) else j
  }

  method ResetIf(job: PodState, configs: Configs, failed: bool, completed: bool)
    modifies job
    ensures job.View() == FirstPass(old(job.View()), configs, failed, completed)
  {
    if job.name in configs && ((failed && job.status == Failed) || (completed && job.status == Completed)) {
      var keep := (job.status == Completed && configs[job.name].keepPodAlive) || NonEmpty(job.podId);
      ResetJobForRetry(job, keep);
    }
  }

  method RetryFinished(state: RunState, configs: Configs, failed: bool, completed: bool)
    requires state.Distinct()
    modifies state.jobs
    ensures forall k :: 0 <= k < |state.jobs| ==>
              state.jobs[k].View() == FirstPass(old(state.jobs[k].View()), configs, failed, completed)
  {
    hide Retried, Chosen;
    for i := 0 to |state.jobs|
      invariant forall k :: 0 <= k < i ==>
                  state.jobs[k].View() == FirstPass(old(state.jobs[k].View()), configs, failed, completed)
      invariant forall k :: i <= k < |state.jobs| ==> state.jobs[k].View() == old(state.jobs[k].View())
    {
      ResetIf(state.jobs[i], configs, failed, completed);
    }
  }

  /** Two passes, as in the original: the finished jobs, then the skipped ones. */
  method ApplyRetryFlags(state: RunState, configs: Configs, failed: bool, completed: bool)
    requires state.Distinct()
    modifies state.jobs
    ensures state.JobViews() == RetriedAll(old(state.JobViews()), configs, failed, completed)
  {
    hide Retried, FirstPass;
    ghost var was := state.JobViews();
    if !failed && !completed {
      RetryNothing(was, configs);
      return;
    }
    RetryFinished(state, configs, failed, completed);
    for i := 0 to |state.jobs|
      invariant forall k :: 0 <= k < i ==> state.jobs[k].View() == Retried(was[k], configs, failed, completed)
      invariant forall k :: i <= k < |state.jobs| ==>
                  state.jobs[k].View() == FirstPass(was[k], configs, failed, completed)
    {
      SecondPass(was[i], configs, failed, completed);
      if failed && state.jobs[i].status == Skipped && state.jobs[i].name in configs {
        ResetJobForRetry(state.jobs[i], false);
      }
    }
  }

  lemma RetryNothing(jobs: seq<Job>, configs: Configs)
    ensures RetriedAll(jobs, configs, false, false) == jobs
  {
  }

  lemma SecondPass(j: Job, configs: Configs, failed: bool, completed: bool)
    ensures var m := FirstPass(j, configs, failed, completed);
      Retried(j, configs, failed, completed) ==
        if failed && m.status == Skipped && m.name in configs then ResetForRetry(m, false) else m
  {
  }

  /** Nothing configured is left failed or skipped by --retry-failed, and no pod that a failed
      or completed job refers to is forgotten. */
  lemma RetryKeepsPods(j: Job, configs: Configs, failed: bool, completed: bool)
    ensures var r := Retried(j, configs, failed, completed);
      && r.name == j.name && r.dependsOn == j.dependsOn
      && (failed && j.name in configs ==> !Bad(r.status))
      && (HasPod(j) && j.status != Skipped ==> r.podId == j.podId && r.rate == j.rate && r.ssh == j.ssh)
      && (r != j ==> r.status == Pending && r.attempts == 0 && r.cost == 0.0 && r.finishedAt == None)
  {
  }

  /** A retry picks exactly the configured jobs that failed or were skipped, or that completed,
      as asked for; any other job stays as it is. */
  lemma RetryPicks(j: Job, configs: Configs, failed: bool, completed: bool)
    ensures var picked := j.name in configs &&
                          ((failed && j.status in {Failed, Skipped}) || (completed && j.status == Completed));
      if picked then Retried(j, configs, failed, completed).status == Pending
      else Retried(j, configs, failed, completed) == j
  {
  }

  /** A retried job is as it was made, but for the pod it keeps. */
  lemma RetryStartsOver(j: Job, keepPod: bool)
    ensures var made := Job(j.name, j.dependsOn, Pending, None, 0.0, None, None, None, None, None, None,
                            0, 0, 0.0, None, None);
      ResetForRetry(j, keepPod) == if keepPod then made.(podId := j.podId, ssh := j.ssh, rate := j.rate) else made
  {
  }

  /** The retry leaves this job active or completed. */
  predicate Stands(j: Job, configs: Configs) {
    Active(j.status) || (j.status == Completed && j.name !in configs)
  }

  /** A retry can leave jobs whose dependencies are pending again. It keeps the order of the
      dependencies exactly when completed jobs are not retried, or no job that stays active or
      completed depends on a configured one. */
  lemma RetryKeepsOrder(jobs: seq<Job>, configs: Configs, failed: bool, completed: bool)
    requires DepSafe(jobs)
    ensures DepSafe(RetriedAll(jobs, configs, failed, completed)) <==>
              !completed ||
              forall i, d :: 0 <= i < |jobs| && Stands(jobs[i], configs) && d in jobs[i].dependsOn ==> d !in configs
  {
    var r := RetriedAll(jobs, configs, failed, completed);
    forall i | 0 <= i < |jobs|
      ensures Active(r[i].status) || r[i].status == Completed <==>
                if completed then Stands(jobs[i], configs) else Active(jobs[i].status) || jobs[i].status == Completed
    {
    }
    forall d ensures IsCompleted(r, d) <==> IsCompleted(jobs, d) && (!completed || d !in configs) {
      CompletedAfterRetry(jobs, configs, failed, completed, d);
    }
    forall i | 0 <= i < |jobs| && (Active(r[i].status) || r[i].status == Completed) ensures r[i] == jobs[i] {
    }
  }

  lemma CompletedAfterRetry(jobs: seq<Job>, configs: Configs, failed: bool, completed: bool, d: Name)
    ensures IsCompleted(RetriedAll(jobs, configs, failed, completed), d)
       <==> IsCompleted(jobs, d) && (!completed || d !in configs)
  {
    var r := RetriedAll(jobs, configs, failed, completed);
    if IsCompleted(jobs, d) && (!completed || d !in configs) {
      var k :| 0 <= k < |jobs| && jobs[k].name == d && jobs[k].status == Completed;
      assert r[k].name == d && r[k].status == Completed;
    }
    if IsCompleted(r, d) {
      var k :| 0 <= k < |r| && r[k].name == d && r[k].status == Completed;
      assert jobs[k].name == d && jobs[k].status == Completed;
    }
  }

  // ---- conductor teardown ----

  datatype ManualAnswers = ManualAnswers(verified: bool, now: real, later: real)

  predicate AlreadyStopped(l: Local) {
    l.job.finishedAt.Some? || StopRecorded(l.log, l.job.podId)
  }

  /** The registry is told; a pod not stopped before is billed to now and its stop logged; a
      job not over fails. */
  function TornDownByHand(l: Local, a: ManualAnswers): Local
    requires l.job.podId.Some?
  {
    var b := if AlreadyStopped(l) then l else Accrue(l.(job := l.job.(finishedAt := Some(a.now))), a.later);
    var c := Called(b, [MarkRegistry(l.job.podId.value, a.verified)]);
    var d := if AlreadyStopped(l) then c else Stopped(c, ManualTeardown(a.verified));
    if Live(l.job.status) || l.job.status == Pending then d.(job := d.job.(status := Failed)) else d
  }

  /** Accounting for the same pod again changes no cost, no time, no outcome and no log. */
  lemma ManualTeardownIdempotent(l: Local, a: ManualAnswers, again: ManualAnswers)
    requires l.job.podId.Some?
    ensures var once := TornDownByHand(l, a);
      var twice := TornDownByHand(once, again);
      && once.job.podId == l.job.podId
      && twice.total == once.total && twice.log == once.log
      && (!AlreadyStopped(l) ==> once.job.finishedAt == Some(a.now) && twice.job == once.job)
      && twice.job.cost == once.job.cost && twice.job.finishedAt == once.job.finishedAt &&
         twice.job.status == once.job.status
  {
  }

  /** It keeps the ledger: the spend moves with the job's cost, one stop event per pod, and a
      job that was over keeps its outcome. */
  lemma ManualTeardownFacts(l: Local, a: ManualAnswers)
    requires l.job.podId.Some?
    ensures var r := TornDownByHand(l, a);
      && r.total - l.total == r.job.cost - l.job.cost && r.job.cost >= l.job.cost
      && (UniqueStops(l.log) ==> UniqueStops(r.log)) && l.log <= r.log
      && (HasPod(l.job) && l.job.finishedAt.None? ==> StopRecorded(r.log, l.job.podId))
      && r.job.status == (if Live(l.job.status) || l.job.status == Pending then Failed else l.job.status)
  {
  }

  /** The registry is told exactly what the teardown came to. */
  lemma ManualTeardownTells(l: Local, a: ManualAnswers)
    requires l.job.podId.Some?
    ensures var r := TornDownByHand(l, a);
      && r.calls == l.calls + [MarkRegistry(l.job.podId.value, a.verified)]
      && r.log == if l.job.finishedAt.Some? then l.log
                  else RecordStop(l.log, l.job.podId, ManualTeardown(a.verified), Some(r.job.cost))
  {
  }

  method RecordManualTeardown(state: RunState, job: PodState, a: ManualAnswers)
    requires job.podId.Some?
    modifies state, job
    ensures Here(state, job) == TornDownByHand(old(Here(state, job)), a)
  {
    hide Accrue, Stopped, StopRecorded;
    var alreadyStopped := job.finishedAt.Some? || StopRecorded(state.log, job.podId);
    ghost var pod := job.podId;
    if !alreadyStopped {
      CloseBilling(state, job, a);
    }
    RecordCall(state, job, MarkRegistry(job.podId.value, a.verified));
    if !alreadyStopped {
      LogStop(state, job, ManualTeardown(a.verified));
    }
    if job.status in {Provisioning, Deploying, Running, SyncFailed, Pending} {
      job.status := Failed;
    }
  }

  method CloseBilling(state: RunState, job: PodState, a: ManualAnswers)
    modifies state`total, job
    ensures var l := old(Here(state, job));
      Here(state, job) == Accrue(l.(job := l.job.(finishedAt := Some(a.now))), a.later)
    ensures job.podId == old(job.podId) && job.status == old(job.status)
  {
    job.finishedAt := Some(a.now);
    UpdateCost(state, job, a.later);
  }
}
