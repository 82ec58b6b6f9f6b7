/** The operations on one job, on the records themselves: finishing, launching, the pipeline,
    recovery and the tick. Each is proved against its specification in JobSteps; the caller
    spreads a failure. */
module MonitorJob {
  import opened Base
  import opened State
  import opened Ledger
  import opened Provisioner
  import opened ProvisionPod
  import opened JobSteps
  import D = Decisions

  ghost function Here(state: RunState, job: PodState): Local
    reads state, job
  {
    Local(job.View(), state.total, state.log, state.calls)
  }

  method RecordCall(state: RunState, job: PodState, c: Call)
    modifies state`calls
    ensures Here(state, job) == Called(old(Here(state, job)), [c])
  {
    state.calls := state.calls + [c];
  }

  method UpdateCost(state: RunState, job: PodState, now: real)
    modifies state`total, job
    ensures Here(state, job) == Accrue(old(Here(state, job)), now)
  {
    var _ := AccrueCost(state, job, now);
  }

  method LogStop(state: RunState, job: PodState, reason: StopReason)
    modifies state`log
    ensures Here(state, job) == Stopped(old(Here(state, job)), reason)
  {
    var _ := RecordPodStopped(state, job.podId, reason, Some(job.cost));
  }

  // ---- finishing ----

  method KeepPod(state: RunState, job: PodState)
    requires HasPod(job.View())
    modifies state`calls, job
    ensures var l := old(Here(state, job));
      Here(state, job) == Called(l.(job := l.job.(status := SyncFailed)), [MarkRegistry(l.job.podId.value, false)])
  {
    job.status := SyncFailed;
    RecordCall(state, job, MarkRegistry(job.podId.value, false));
  }

  method FinalSync(state: RunState, job: PodState, cfg: JobConfig, a: FinishAnswers) returns (synced: bool)
    modifies state`calls
    ensures Here(state, job) == AfterSync(old(Here(state, job)), cfg, a)
    ensures synced == Synced(old(Here(state, job)), cfg, a)
  {
    synced := true;
    if cfg.hasSyncPaths {
      synced := job.ssh.Some? && a.synced;
    }
    RecordCall(state, job, State.FinalSync(job.name, synced));
  }

  method ReleaseUnlessKept(state: RunState, job: PodState, cfg: JobConfig, status: Status, a: FinishAnswers)
    returns (tornDown: bool)
    modifies state`calls
    ensures Here(state, job) == AfterRelease(old(Here(state, job)), cfg, status, a)
    ensures tornDown == TornDown(old(Here(state, job)), cfg, status, a)
  {
    tornDown := false;
    var kept := status == Completed && cfg.keepPodAlive;
    if NonEmpty(job.podId) && !kept {
      tornDown := a.tornDown;
      RecordCall(state, job, Teardown(job.name, job.podId.value, tornDown));
    }
  }

  /** The billing clock stops and the outcome is logged. */
  method CloseAccount(state: RunState, job: PodState, status: Status, a: FinishAnswers)
    modifies state, job
    ensures var l := old(Here(state, job));
      var c := Stopped(Accrue(l.(job := l.job.(finishedAt := Some(a.now))), a.later), Finished(status));
      Here(state, job) == c.(job := c.job.(status := status))
    ensures job.podId == old(job.podId)
  {
    job.finishedAt := Some(a.now);
    UpdateCost(state, job, a.later);
    LogStop(state, job, Finished(status));
    job.status := status;
  }

  lemma FinishOutcome(l: Local, cfg: JobConfig, status: Status, force: bool, a: FinishAnswers)
    ensures status in {Completed, Failed} ==>
              Finish(l, cfg, status, force, a).at.job.status ==
                if D.KeptForResults(l, cfg, status, force, a) then SyncFailed else status
  {
    if status in {Completed, Failed} {
      D.FinishDecides(l, cfg, status, force, a);
    }
  }

  /** Final sync, then release the pod and record the outcome; or keep the pod when its
      results could not be fetched. */
  method FinishJob(state: RunState, job: PodState, cfg: JobConfig, status: Status, force: bool, a: FinishAnswers)
    returns (spread: bool)
    modifies state, job
    ensures var o := Finish(old(Here(state, job)), cfg, status, force, a);
      Here(state, job) == o.at && spread == o.spread
    ensures status in {Completed, Failed} ==>
              job.status == if D.KeptForResults(old(Here(state, job)), cfg, status, force, a) then SyncFailed
                else status
  {
    hide AfterSync, AfterRelease, Stopped, Accrue, D.KeptForResults;
    FinishOutcome(Here(state, job), cfg, status, force, a);
    spread := status == Failed;
    var synced := FinalSync(state, job, cfg, a);
    if !synced && !force && NonEmpty(job.podId) && (status != Failed || cfg.keepPodOnFailure) {
      KeepPod(state, job);
      return;
    }
    var tornDown := ReleaseUnlessKept(state, job, cfg, status, a);
    CloseAccount(state, job, status, a);
    if NonEmpty(job.podId) {
      RecordCall(state, job, MarkRegistry(job.podId.value, tornDown));
    }
  }

  // ---- provision, deploy, launch ----

  method MarkFailed(state: RunState, job: PodState, now: real)
    modifies job
    ensures Here(state, job) == Failing(old(Here(state, job)), now)
  {
    job.status := Failed;
    FinishJobClock(job, now);
  }

  /** An exception in the pipeline. */
  method FaultJob(state: RunState, job: PodState, a: PipelineAnswers)
    modifies state`calls, job
    ensures var o := Fault(old(Here(state, job)), a); Here(state, job) == o.at && o.spread
  {
    MarkFailed(state, job, a.now);
    if NonEmpty(job.podId) {
      state.calls := state.calls + [Teardown(job.name, job.podId.value, a.tornDown),
                                    MarkRegistry(job.podId.value, true)];
    }
  }

  method FailJob(state: RunState, job: PodState, tornDown: bool, now: real)
    modifies state`calls, job
    ensures var o := FailAndRelease(old(Here(state, job)), tornDown, now); Here(state, job) == o.at && o.spread
  {
    MarkFailed(state, job, now);
    if NonEmpty(job.podId) {
      RecordCall(state, job, Teardown(job.name, job.podId.value, tornDown));
    }
  }

  method RefreshSsh(state: RunState, job: PodState, address: Option<Endpoint>)
    modifies job
    ensures var l := old(Here(state, job)); Here(state, job) == l.(job := Refreshed(l.job, address))
  {
    if NonEmpty(job.podId) && address.Some? {
      job.ssh := address;
    }
  }

  method SetRunning(state: RunState, job: PodState, pid: Option<int>, now: real)
    requires pid.Some?
    modifies job
    ensures Here(state, job) == Launch(old(Here(state, job)), pid, false, now).at
  {
    job.pid, job.exitCode, job.status := pid, None, Running;
    job.startedAt, job.lastSyncAt := SetOr(job.startedAt, now), Some(now);
  }

  method LaunchJob(state: RunState, job: PodState, pid: Option<int>, tornDown: bool, now: real) returns (spread: bool)
    modifies state`calls, job
    ensures var o := Launch(old(Here(state, job)), pid, tornDown, now); Here(state, job) == o.at && spread == o.spread
  {
    if pid.None? {
      FailJob(state, job, tornDown, now);
      return true;
    }
    SetRunning(state, job, pid, now);
    return false;
  }

  method DeployJob(state: RunState, job: PodState, a: PipelineAnswers) returns (spread: bool)
    modifies state`calls, job
    ensures var o := DeployAndLaunch(old(Here(state, job)), a); Here(state, job) == o.at && spread == o.spread
  {
    if a.stopBeforeDeploy {
      return false;
    }
    job.status := Deploying;
    if a.deploy.DeployRaised? {
      FaultJob(state, job, a);
      return true;
    }
    if a.deploy.DeployFailed? {
      FailJob(state, job, a.tornDown, a.now);
      return true;
    }
    if a.stopBeforeLaunch {
      return false;
    }
    if a.launch.LaunchRaised? {
      FaultJob(state, job, a);
      return true;
    }
    spread := LaunchJob(state, job, a.launch.pid, a.tornDown, a.now);
  }

  method RegisterAndDeploy(state: RunState, job: PodState, a: PipelineAnswers, isNew: bool) returns (spread: bool)
    modifies state`calls, job
    ensures var o := AfterProvisioning(old(Here(state, job)), a, isNew); Here(state, job) == o.at && spread == o.spread
  {
    hide Fault, DeployAndLaunch;
    if a.faultBeforeDeploy {
      FaultJob(state, job, a);
      return true;
    }
    if job.podId.Some? {
      RecordCall(state, job, if isNew then Register(job.podId.value) else MarkRegistry(job.podId.value, false));
    }
    spread := DeployJob(state, job, a);
  }

  /** The pod of an earlier attempt is terminated before it is replaced. */
  method ReleaseOldPod(state: RunState, job: PodState, a: PipelineAnswers)
    modifies state`calls
    ensures Here(state, job) == ReleaseOld(old(Here(state, job)), a)
  {
    if NonEmpty(job.podId) {
      state.calls := state.calls + ([Teardown(job.name, job.podId.value, a.oldTornDown)] +
                                    if a.oldTornDown then [MarkRegistry(job.podId.value, true)] else []);
    }
  }

  method ProvisionOrReuse(state: RunState, job: PodState, cfg: JobConfig, a: PipelineAnswers) returns (end: End)
    modifies state, job
    ensures (Here(state, job), end) == ProvisionStep(old(Here(state, job)), cfg, a)
  {
    hide Provision;
    if cfg.keepPodAlive && NonEmpty(job.podId) && a.reuseExists == Yes {
      RefreshSsh(state, job, a.address);
      return Tracked;
    }
    ghost var w0 := Walk(job.View(), state.log, state.calls, []);
    ghost var w;
    end, w := ProvisionPod.ProvisionPod(state, job, a.oracle, a.candidates, cfg.provisionRetries, cfg.rateOverride, w0);
  }

  method Conclude(state: RunState, job: PodState, end: End, a: PipelineAnswers, isNew: bool) returns (spread: bool)
    modifies state`calls, job
    ensures var o := Provisioned(old(Here(state, job)), end, a, isNew); Here(state, job) == o.at && spread == o.spread
  {
    hide Fault, AfterProvisioning;
    match end
    case Raised =>
      FaultJob(state, job, a);
      spread := true;
    case StoppedEarly =>
      spread := false;
    case KeyFailed =>
      FinishJobClock(job, a.now);
      spread := true;
    case Exhausted =>
      FinishJobClock(job, a.now);
      spread := true;
    case Tracked =>
      spread := RegisterAndDeploy(state, job, a, isNew);
  }

  method AdoptPod(state: RunState, job: PodState, a: PipelineAnswers) returns (spread: bool)
    modifies state`calls, job
    ensures var o := ResumeOnPod(old(Here(state, job)), a); Here(state, job) == o.at && spread == o.spread
  {
    hide Fault, AfterProvisioning;
    job.status := Provisioning;
    RefreshSsh(state, job, a.address);
    if job.ssh.None? || a.wait.Down? {
      FaultJob(state, job, a);
      return true;
    }
    if a.wait.WaitInterrupted? {
      return false;
    }
    spread := RegisterAndDeploy(state, job, a, false);
  }

  /** Provision, deploy and launch; or, resuming, continue on the pod there is. */
  method ProvisionDeployLaunch(state: RunState, job: PodState, cfg: JobConfig, a: PipelineAnswers, resume: bool)
    returns (spread: bool)
    modifies state, job
    ensures var o := Pipeline(old(Here(state, job)), cfg, a, resume); Here(state, job) == o.at && spread == o.spread
  {
    hide ResumeOnPod, ProvisionStep, Provisioned, ReleaseOld;
    if resume && job.podId.Some? {
      spread := AdoptPod(state, job, a);
      return;
    }
    var isReuse := cfg.keepPodAlive && job.podId.Some?;
    if !isReuse {
      ReleaseOldPod(state, job, a);
    }
    var end := ProvisionOrReuse(state, job, cfg, a);
    spread := Conclude(state, job, end, a, !isReuse);
  }

  // ---- recovery ----

  method ReleaseDeadPod(state: RunState, job: PodState, tornDown: bool)
    modifies state`calls, state`log
    ensures Here(state, job) == ReleaseDead(old(Here(state, job)), tornDown)
  {
    if NonEmpty(job.podId) {
      state.calls := state.calls + [Teardown(job.name, job.podId.value, tornDown), MarkRegistry(job.podId.value, true)];
      LogStop(state, job, SpotInterruption);
    }
  }

  method ForgetPod(state: RunState, job: PodState)
    modifies job
    ensures var l := old(Here(state, job)); Here(state, job) == l.(job := Podless(l.job))
  {
    job.podId, job.ssh, job.pid, job.gone := None, None, None, 0;
  }

  method SpotRecover(state: RunState, job: PodState, cfg: JobConfig, a: RecoverAnswers) returns (spread: bool)
    modifies state, job
    ensures var o := Recover(old(Here(state, job)), cfg, a); Here(state, job) == o.at && spread == o.spread
  {
    hide ReleaseDead, Pipeline;
    if job.attempts >= cfg.maxAttempts {
      MarkFailed(state, job, a.pipeline.now);
      return true;
    }
    ReleaseDeadPod(state, job, a.tornDown);
    RecordCall(state, job, Backoff(job.name, BackoffSeconds(cfg, job.attempts)));
    if a.interrupted {
      return false;
    }
    ForgetPod(state, job);
    spread := ProvisionDeployLaunch(state, job, cfg, a.pipeline, false);
  }
}
