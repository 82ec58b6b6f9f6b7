/** One tick of the monitor on one job's record. */
module JobTick {
  import opened Base
  import opened State
  import opened JobSteps
  import opened MonitorJob
  import D = Decisions

  function Counted(gone: int, existence: Tri): int {
    match existence
    case Yes => 0
    case No => gone + 1
    case Unknown => gone
  }

  /** Counts the provider's answers of "gone"; "cannot tell" neither counts nor resets. */
  method PodGoneConfirmed(job: PodState, cfg: JobConfig, existence: Tri) returns (confirmed: bool)
    modifies job
    ensures job.View() == old(job.View()).(gone := Counted(old(job.gone), existence))
    ensures confirmed <==> existence == No && job.gone >= Confirmations(cfg)
  {
    if existence == Unknown {
      return false;
    }
    if existence == Yes {
      job.gone := 0;
      return false;
    }
    job.gone := job.gone + 1;
    var needed := if cfg.recoveryConfirmations > 1 then cfg.recoveryConfirmations else 1;
    return job.gone >= needed;
  }

  method RecoverIfConfirmed(state: RunState, job: PodState, cfg: JobConfig, existence: Tri, a: RecoverAnswers)
    returns (spread: bool)
    requires existence != Yes
    modifies state, job
    ensures var o := TickGone(old(Here(state, job)), cfg, existence, a); Here(state, job) == o.at && spread == o.spread
  {
    hide Recover;
    spread := false;
    var confirmed := PodGoneConfirmed(job, cfg, existence);
    if confirmed {
      spread := SpotRecover(state, job, cfg, a);
    }
  }

  method ClearSuspicion(job: PodState)
    modifies job
    ensures job.View() == old(job.View()).(idleSince := None, gone := 0)
  {
    job.idleSince, job.gone := None, 0;
  }

  method SetStallTimer(job: PodState, cfg: JobConfig, a: TickAnswers)
    modifies job
    ensures var j := old(job.View()); job.View() == j.(stalledSince := StallTimer(j, cfg, a))
  {
    if cfg.stallTimeoutMinutes > 0.0 {
      if a.gpuUtil.Some? && a.gpuUtil.value < cfg.stallThreshold {
        job.stalledSince := if job.stalledSince.None? then Some(a.now) else job.stalledSince;
      } else {
        job.stalledSince := None;
      }
    }
  }

  method SetTimers(job: PodState, cfg: JobConfig, a: TickAnswers)
    modifies job
    ensures var j := old(job.View());
      job.View() == j.(stalledSince := StallTimer(j, cfg, a), lastSyncAt := SyncTimer(j, cfg, a))
  {
    SetStallTimer(job, cfg, a);
    if cfg.hasSyncPaths && IsSet(job.lastSyncAt) {
      var due := (a.now - job.lastSyncAt.value) / 60.0 >= cfg.syncIntervalMinutes;
      job.lastSyncAt := if due then Some(a.now) else job.lastSyncAt;
    }
  }

  method TickRunningJob(state: RunState, job: PodState, cfg: JobConfig, a: TickAnswers) returns (spread: bool)
    modifies state, job
    ensures var o := TickRunning(old(Here(state, job)), cfg, a); Here(state, job) == o.at && spread == o.spread
  {
    hide Finish, StallTimer, SyncTimer;
    spread := false;
    ClearSuspicion(job);
    if cfg.stallTimeoutMinutes > 0.0 && a.gpuUtil.Some? && a.gpuUtil.value < cfg.stallThreshold &&
       job.stalledSince.Some? && (a.now - job.stalledSince.value) / 60.0 >= cfg.stallTimeoutMinutes {
      spread := FinishJob(state, job, cfg, Failed, false, a.finish);
      return;
    }
    SetTimers(job, cfg, a);
  }

  method CheckIdle(state: RunState, job: PodState, cfg: JobConfig, a: TickAnswers) returns (spread: bool)
    requires HasPod(job.View()) && a.existence == Yes
    modifies state, job
    ensures var o := TickVanished(old(Here(state, job)), cfg, a); Here(state, job) == o.at && spread == o.spread
  {
    hide Finish, TickGone;
    spread := false;
    job.gone := 0;
    if job.idleSince.None? {
      job.idleSince := Some(a.now);
    } else if (a.now - job.idleSince.value) / 60.0 >= cfg.idleTimeoutMinutes {
      spread := FinishJob(state, job, cfg, Completed, false, a.finish);
    }
  }

  method TickVanishedJob(state: RunState, job: PodState, cfg: JobConfig, a: TickAnswers) returns (spread: bool)
    modifies state, job
    ensures var o := TickVanished(old(Here(state, job)), cfg, a); Here(state, job) == o.at && spread == o.spread
  {
    hide Finish, TickGone;
    var existence := if NonEmpty(job.podId) then a.existence else No;
    if existence == Yes {
      spread := CheckIdle(state, job, cfg, a);
    } else {
      spread := RecoverIfConfirmed(state, job, cfg, existence, a.recover);
    }
  }

  method TickUnknownJob(state: RunState, job: PodState, cfg: JobConfig, a: TickAnswers) returns (spread: bool)
    modifies state, job
    ensures var o := TickNoAnswer(old(Here(state, job)), cfg, a); Here(state, job) == o.at && spread == o.spread
  {
    hide Launch, TickGone;
    var existence := if NonEmpty(job.podId) then a.existence else Unknown;
    if existence == Yes {
      job.gone := 0;
      if (job.pid.None? || job.pid.value == 0) && job.ssh.Some? {
        spread := LaunchJob(state, job, a.launched, a.launchTornDown, a.now);
        return;
      }
      RefreshSsh(state, job, a.address);
      spread := false;
    } else {
      spread := RecoverIfConfirmed(state, job, cfg, existence, a.recover);
    }
  }

  method HandleExit(state: RunState, job: PodState, cfg: JobConfig, code: int, a: FinishAnswers) returns (spread: bool)
    modifies state, job
    ensures var l := old(Here(state, job));
      var o := Finish(l.(job := l.job.(exitCode := Some(code))), cfg, ExitOutcome(code), false, a);
      Here(state, job) == o.at && spread == o.spread
    ensures job.exitCode == Some(code) && (spread <==> code != 0)
    ensures if code == 0 then job.status in {Completed, SyncFailed} else job.status in {Failed, SyncFailed}
  {
    hide Finish;
    D.ExitFinishes(Here(state, job), cfg, code, a);
    job.exitCode := Some(code);
    spread := FinishJob(state, job, cfg, ExitOutcome(code), false, a);
  }

  method TickJob(state: RunState, job: PodState, cfg: JobConfig, a: TickAnswers) returns (spread: bool)
    modifies state, job
    ensures var o := Tick(old(Here(state, job)), cfg, a); Here(state, job) == o.at && spread == o.spread
  {
    hide Finish, TickRunning, TickVanished, TickNoAnswer, Accrue;
    UpdateCost(state, job, a.accrueAt);
    if cfg.jobBudget > 0.0 && job.cost >= cfg.jobBudget {
      spread := FinishJob(state, job, cfg, Failed, true, a.finish);
      return;
    }
    match Observed(job.View(), a.process) {
      case ExitedWith(code) =>
        spread := HandleExit(state, job, cfg, code, a.finish);
      case StillRunning =>
        spread := TickRunningJob(state, job, cfg, a);
      case Vanished =>
        spread := TickVanishedJob(state, job, cfg, a);
      case NoAnswer =>
        spread := TickUnknownJob(state, job, cfg, a);
    }
  }

  // ---- jobs persisted mid-flight, and exceptions ----

  method DropPod(state: RunState, job: PodState)
    requires HasPod(job.View())
    modifies state`calls, job
    ensures Here(state, job) == LosePod(old(Here(state, job)))
  {
    RecordCall(state, job, MarkRegistry(job.podId.value, true));
    job.podId, job.ssh, job.pid := None, None, None;
  }

  method ResumeJob(state: RunState, job: PodState, cfg: JobConfig, a: ResumeAnswers) returns (spread: bool)
    modifies state, job
    ensures var o := Resume(old(Here(state, job)), cfg, a); Here(state, job) == o.at && spread == o.spread
  {
    hide Pipeline, Accrue, LosePod;
    UpdateCost(state, job, a.accrueAt);
    if NonEmpty(job.podId) {
      if a.existence == Unknown {
        return false;
      }
      if a.existence == No {
        DropPod(state, job);
      }
    }
    spread := ProvisionDeployLaunch(state, job, cfg, a.pipeline, true);
  }

  /** The writes of a tick that raised before its end. */
  method TickPartly(state: RunState, job: PodState, cfg: JobConfig, reached: Reached)
    modifies job
    ensures Here(state, job) == Partly(old(Here(state, job)), cfg, reached)
  {
    hide StallTimer;
    if job.status != Running {
      return;
    }
    match reached
    case AtOnce =>
    case AfterExit(code) =>
      job.exitCode := Some(code);
    case AfterRunning =>
      ClearSuspicion(job);
    case AfterReading(a) =>
      ClearSuspicion(job);
      SetStallTimer(job, cfg, a);
    case AfterAlive =>
      job.gone := 0;
  }

  /** The regular step of an active job, or what the monitor does with an exception. */
  method MonitorStep(state: RunState, job: PodState, cfg: JobConfig, a: JobAnswer) returns (spread: bool)
    modifies state, job
    ensures var o := Monitor(old(Here(state, job)), cfg, a); Here(state, job) == o.at && spread == o.spread
  {
    hide Tick, Resume, Accrue, Finish, Partly;
    match a
    case Regular(tick, resume) =>
      if job.status == Running {
        spread := TickJob(state, job, cfg, tick);
      } else {
        spread := ResumeJob(state, job, cfg, resume);
      }
    case Transient(at, reached) =>
      UpdateCost(state, job, at);
      TickPartly(state, job, cfg, reached);
      spread := false;
    case StoppedBy(at, reached) =>
      UpdateCost(state, job, at);
      TickPartly(state, job, cfg, reached);
      spread := false;
    case Unexpected(at, reached, finish, raises) =>
      UpdateCost(state, job, at);
      TickPartly(state, job, cfg, reached);
      if raises {
        MarkFailed(state, job, finish.now);
        spread := true;
      } else {
        spread := FinishJob(state, job, cfg, Failed, false, finish);
      }
  }
}
