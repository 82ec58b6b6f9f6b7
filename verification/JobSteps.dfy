/** What each lifecycle operation does to one job, the spend, the cost log and the calls made.
    The answers of the world (provider, SSH, clock) are arguments. Each operation also says
    whether the job's failure has to be spread to its dependents. */
module JobSteps {
  import opened Base
  import opened State
  import opened Provisioner

  datatype JobConfig = JobConfig(
    provider: string,
    keepPodAlive: bool,
    keepPodOnFailure: bool,
    hasSyncPaths: bool,
    jobBudget: real,
    maxAttempts: int,
    recoveryConfirmations: int,
    backoffBase: real,
    provisionRetries: int,
    rateOverride: real,
    idleTimeoutMinutes: real,
    stallTimeoutMinutes: real,
    stallThreshold: int,
    syncIntervalMinutes: real,
    teardownOnCrash: bool)

  /** One job with the parts of the run its operations write. */
  datatype Local = Local(job: Job, total: real, log: seq<CostEvent>, calls: seq<Call>)

  /** A step's result, and whether it spreads a failure. */
  datatype Outcome = Outcome(at: Local, spread: bool)

  function Called(l: Local, more: seq<Call>): Local {
    l.(calls := l.calls + more)
  }

  function Accrue(l: Local, now: real): Local {
    var j := Accrued(l.job, now);
    l.(job := j, total := l.total + (j.cost - l.job.cost))
  }

  function Stopped(l: Local, reason: StopReason): Local {
    l.(log := RecordStop(l.log, l.job.podId, reason, Some(l.job.cost)))
  }

  // ---- finishing ----

  datatype FinishAnswers = FinishAnswers(synced: bool, tornDown: bool, now: real, later: real)

  /** The final sync has nothing to do without sync paths and cannot run without an address. */
  function Synced(l: Local, cfg: JobConfig, a: FinishAnswers): bool {
    !cfg.hasSyncPaths || (l.job.ssh.Some? && a.synced)
  }

  /** The pod is kept when its results could not be fetched, unless the teardown is forced or
      the job failed and its pod is not to be kept. */
  predicate KeepsPod(l: Local, cfg: JobConfig, status: Status, force: bool, a: FinishAnswers) {
    !Synced(l, cfg, a) && !force && HasPod(l.job) && (status != Failed || cfg.keepPodOnFailure)
  }

  function AfterSync(l: Local, cfg: JobConfig, a: FinishAnswers): Local {
    Called(l, [FinalSync(l.job.name, Synced(l, cfg, a))])
  }

  /** The pod is released unless a completed job keeps it. */
  function AfterRelease(l: Local, cfg: JobConfig, status: Status, a: FinishAnswers): Local {
    if HasPod(l.job) && !(status == Completed && cfg.keepPodAlive)
    then Called(l, [Teardown(l.job.name, l.job.podId.value, a.tornDown)]) else l
  }

  predicate TornDown(l: Local, cfg: JobConfig, status: Status, a: FinishAnswers) {
    HasPod(l.job) && !(status == Completed && cfg.keepPodAlive) && a.tornDown
  }

  function Finish(l: Local, cfg: JobConfig, status: Status, force: bool, a: FinishAnswers): Outcome {
    var s := AfterSync(l, cfg, a);
    if KeepsPod(l, cfg, status, force, a) then
      Outcome(Called(s.(job := s.job.(status := SyncFailed)), [MarkRegistry(l.job.podId.value, false)]),
              status == Failed)
    else
      var r := AfterRelease(s, cfg, status, a);
      var c := Stopped(Accrue(r.(job := r.job.(finishedAt := Some(a.now))), a.later), Finished(status));
      var d := c.(job := c.job.(status := status));
      Outcome(if HasPod(l.job) then Called(d, [MarkRegistry(l.job.podId.value, TornDown(l, cfg, status, a))]) else d,
              status == Failed)
  }

  /** The last resort when finishing itself raises: failed, nothing released. */
  function FailWithoutRelease(l: Local, now: real): Outcome {
    Outcome(l.(job := MarkFinished(l.job.(status := Failed), now)), true)
  }

  // ---- provision, deploy, launch ----

  datatype LaunchAnswer = LaunchReturned(pid: Option<int>) | LaunchRaised
  datatype DeployAnswer = Deployed | DeployFailed | DeployRaised
  datatype WaitAnswer = Up | Down | WaitInterrupted

  datatype PipelineAnswers = PipelineAnswers(
    oldTornDown: bool,               // releasing the pod of an earlier attempt
    reuseExists: Tri,                // is the kept-alive pod there?
    address: Option<Endpoint>,      // the provider's current address for the pod
    candidates: Option<nat>,
    oracle: Oracle,
    wait: WaitAnswer,                // waiting for a resumed pod
    faultBeforeDeploy: bool,         // saving or registering raised
    stopBeforeDeploy: bool,          // shutdown requested
    deploy: DeployAnswer,
    stopBeforeLaunch: bool,
    launch: LaunchAnswer,
    tornDown: bool,                  // releasing the pod after a failure
    now: real)

  function Failing(l: Local, now: real): Local {
    l.(job := MarkFinished(l.job.(status := Failed), now))
  }

  /** An exception in the pipeline: the job fails and its pod, if any, is released; the
      registry calls it terminated whatever the answer. */
  function Fault(l: Local, a: PipelineAnswers): Outcome {
    var f := Failing(l, a.now);
    Outcome(if HasPod(l.job)
            then Called(f, [Teardown(l.job.name, l.job.podId.value, a.tornDown),
                            MarkRegistry(l.job.podId.value, true)]) else f,
            true)
  }

  /** A deploy or launch that fails: the job fails and its pod is released. */
  function FailAndRelease(l: Local, tornDown: bool, now: real): Outcome {
    var f := Failing(l, now);
    Outcome(if HasPod(l.job) then Called(f, [Teardown(l.job.name, l.job.podId.value, tornDown)]) else f, true)
  }

  function Refreshed(j: Job, address: Option<Endpoint>): Job {
    if HasPod(j) && address.Some? then j.(ssh := address) else j
  }

  /** Without a pid the launch has failed. */
  function Launch(l: Local, pid: Option<int>, tornDown: bool, now: real): Outcome {
    if pid.None? then FailAndRelease(l, tornDown, now)
    else
      Outcome(l.(job := l.job.(pid := pid, exitCode := None, status := Running,
                               startedAt := SetOr(l.job.startedAt, now), lastSyncAt := Some(now))), false)
  }

  /** The pod is there: deploy to it and launch the job. */
  function DeployAndLaunch(l: Local, a: PipelineAnswers): Outcome {
    if a.stopBeforeDeploy then Outcome(l, false)
    else
      var d := l.(job := l.job.(status := Deploying));
      match a.deploy
      case DeployRaised => Fault(d, a)
      case DeployFailed => FailAndRelease(d, a.tornDown, a.now)
      case Deployed =>
        if a.stopBeforeLaunch then Outcome(d, false)
        else if a.launch.LaunchRaised? then Fault(d, a)
        else Launch(d, a.launch.pid, a.tornDown, a.now)
  }

  /** The registry is told of the pod: added anew, or updated when it was kept or resumed. */
  function Registered(l: Local, isNew: bool): Local {
    if l.job.podId.None? then l
    else Called(l, [if isNew then Register(l.job.podId.value) else MarkRegistry(l.job.podId.value, false)])
  }

  function AfterProvisioning(l: Local, a: PipelineAnswers, isNew: bool): Outcome {
    if a.faultBeforeDeploy then Fault(l, a) else DeployAndLaunch(Registered(l, isNew), a)
  }

  ghost function ProvisionStep(l: Local, cfg: JobConfig, a: PipelineAnswers): (Local, End) {
    if cfg.keepPodAlive && HasPod(l.job) && a.reuseExists == Yes then
      (l.(job := Refreshed(l.job, a.address)), Tracked)
    else
      var (w, e) := Provision(Walk(l.job, l.log, l.calls, []), a.oracle, a.candidates, cfg.provisionRetries,
                              cfg.rateOverride);
      (Local(w.job, l.total, w.log, w.calls), e)
  }

  function ReleaseOld(l: Local, a: PipelineAnswers): Local {
    if !HasPod(l.job) then l
    else Called(l, [Teardown(l.job.name, l.job.podId.value, a.oldTornDown)] +
                   if a.oldTornDown then [MarkRegistry(l.job.podId.value, true)] else [])
  }

  /** A job persisted mid-flight continues on the pod it has. */
  function ResumeOnPod(l: Local, a: PipelineAnswers): Outcome {
    var r := l.(job := Refreshed(l.job.(status := Provisioning), a.address));
    if r.job.ssh.None? || a.wait.Down? then Fault(r, a)
    else if a.wait.WaitInterrupted? then Outcome(r, false)
    else AfterProvisioning(r, a, false)
  }

  function Provisioned(p: Local, end: End, a: PipelineAnswers, isNew: bool): Outcome {
    match end
    case Raised => Fault(p, a)
    case StoppedEarly => Outcome(p, false)
    case KeyFailed => Outcome(p.(job := MarkFinished(p.job, a.now)), true)
    case Exhausted => Outcome(p.(job := MarkFinished(p.job, a.now)), true)
    case Tracked => AfterProvisioning(p, a, isNew)
  }

  /** Whether a kept-alive pod is to be reused; decided before its existence is known. */
  predicate IsReuse(l: Local, cfg: JobConfig) {
    cfg.keepPodAlive && l.job.podId.Some?
  }

  /** Provision, deploy and launch one job. */
  ghost function Pipeline(l: Local, cfg: JobConfig, a: PipelineAnswers, resume: bool): Outcome {
    if resume && l.job.podId.Some? then ResumeOnPod(l, a)
    else
      var (p, e) := ProvisionStep(if IsReuse(l, cfg) then l else ReleaseOld(l, a), cfg, a);
      Provisioned(p, e, a, !IsReuse(l, cfg))
  }

  // ---- recovery ----

  datatype RecoverAnswers = RecoverAnswers(tornDown: bool, interrupted: bool, pipeline: PipelineAnswers)

  function BackoffSeconds(cfg: JobConfig, attempts: int): real {
    cfg.backoffBase * Pow2(attempts - 1)
  }

  predicate AttemptsLeft(j: Job, cfg: JobConfig) {
    j.attempts < cfg.maxAttempts
  }

  function ReleaseDead(l: Local, tornDown: bool): Local {
    if HasPod(l.job) then
      Stopped(Called(l, [Teardown(l.job.name, l.job.podId.value, tornDown), MarkRegistry(l.job.podId.value, true)]),
              SpotInterruption)
    else l
  }

  function BeforeRetry(l: Local, cfg: JobConfig, tornDown: bool): Local {
    Called(ReleaseDead(l, tornDown), [Backoff(l.job.name, BackoffSeconds(cfg, l.job.attempts))])
  }

  function Podless(j: Job): Job {
    j.(podId := None, ssh := None, pid := None, gone := 0)
  }

  ghost function Recover(l: Local, cfg: JobConfig, a: RecoverAnswers): Outcome {
    if !AttemptsLeft(l.job, cfg) then
      Outcome(Failing(l, a.pipeline.now), true)
    else
      var b := BeforeRetry(l, cfg, a.tornDown);
      if a.interrupted then Outcome(b, false)
      else Pipeline(b.(job := Podless(b.job)), cfg, a.pipeline, false)
  }

  // ---- one monitor tick of a running job ----

  datatype ProcessAnswer = StillRunning | ExitedWith(code: int) | Vanished | NoAnswer

  datatype TickAnswers = TickAnswers(
    accrueAt: real,
    process: ProcessAnswer,
    gpuUtil: Option<int>,
    existence: Tri,
    now: real,
    address: Option<Endpoint>,
    launched: Option<int>,
    launchTornDown: bool,
    finish: FinishAnswers,
    recover: RecoverAnswers)

  predicate HasPid(j: Job) {
    j.pid.Some? && j.pid.value != 0
  }

  /** Without an address nothing can be asked; without a pid only an exit file tells. */
  function Observed(j: Job, process: ProcessAnswer): ProcessAnswer {
    if j.ssh.None? || (process.StillRunning? && !HasPid(j)) then NoAnswer else process
  }

  predicate OverBudget(j: Job, cfg: JobConfig) {
    cfg.jobBudget > 0.0 && j.cost >= cfg.jobBudget
  }

  function Confirmations(cfg: JobConfig): int {
    if cfg.recoveryConfirmations > 1 then cfg.recoveryConfirmations else 1
  }

  predicate Idling(cfg: JobConfig, a: TickAnswers) {
    cfg.stallTimeoutMinutes > 0.0 && a.gpuUtil.Some? && a.gpuUtil.value < cfg.stallThreshold
  }

  predicate Stalled(j: Job, cfg: JobConfig, a: TickAnswers) {
    Idling(cfg, a) && j.stalledSince.Some? && (a.now - j.stalledSince.value) / 60.0 >= cfg.stallTimeoutMinutes
  }

  function StallTimer(j: Job, cfg: JobConfig, a: TickAnswers): Option<real> {
    if cfg.stallTimeoutMinutes <= 0.0 then j.stalledSince
    else if !Idling(cfg, a) then None
    else if j.stalledSince.None? then Some(a.now) else j.stalledSince
  }

  function SyncTimer(j: Job, cfg: JobConfig, a: TickAnswers): Option<real> {
    if cfg.hasSyncPaths && IsSet(j.lastSyncAt) && (a.now - j.lastSyncAt.value) / 60.0 >= cfg.syncIntervalMinutes
    then Some(a.now) else j.lastSyncAt
  }

  /** The process runs: all suspicion is dropped, unless the GPU has been idle too long. */
  function TickRunning(l: Local, cfg: JobConfig, a: TickAnswers): Outcome {
    var j := l.job.(idleSince := None, gone := 0);
    if Stalled(j, cfg, a) then Finish(l.(job := j), cfg, Failed, false, a.finish)
    else Outcome(l.(job := j.(stalledSince := StallTimer(j, cfg, a), lastSyncAt := SyncTimer(j, cfg, a))), false)
  }

  /** The provider's answer counts towards the confirmations; enough of them, and recovery
      starts. A job without a pod has the default answer. */
  ghost function TickGone(l: Local, cfg: JobConfig, existence: Tri, a: RecoverAnswers): Outcome
    requires existence != Yes
  {
    if existence == Unknown then Outcome(l, false)
    else
      var c := l.(job := l.job.(gone := l.job.gone + 1));
      if c.job.gone < Confirmations(cfg) then Outcome(c, false) else Recover(c, cfg, a)
  }

  /** The process is gone and left no exit code. */
  ghost function TickVanished(l: Local, cfg: JobConfig, a: TickAnswers): Outcome {
    var existence := if HasPod(l.job) then a.existence else No;
    if existence == Yes then
      var j := l.job.(gone := 0);
      if j.idleSince.None? then Outcome(l.(job := j.(idleSince := Some(a.now))), false)
      else if (a.now - j.idleSince.value) / 60.0 >= cfg.idleTimeoutMinutes then
        Finish(l.(job := j), cfg, Completed, false, a.finish)
      else Outcome(l.(job := j), false)
    else TickGone(l, cfg, existence, a.recover)
  }

  /** Nothing can be said about the process. */
  ghost function TickNoAnswer(l: Local, cfg: JobConfig, a: TickAnswers): Outcome {
    var existence := if HasPod(l.job) then a.existence else Unknown;
    if existence == Yes then
      var j := l.job.(gone := 0);
      if !HasPid(j) && j.ssh.Some? then
        Launch(l.(job := j), a.launched, a.launchTornDown, a.now)
      else Outcome(l.(job := Refreshed(j, a.address)), false)
    else TickGone(l, cfg, existence, a.recover)
  }

  function ExitOutcome(code: int): Status {
    if code == 0 then Completed else Failed
  }

  ghost function Tick(l0: Local, cfg: JobConfig, a: TickAnswers): Outcome {
    var l := Accrue(l0, a.accrueAt);
    if OverBudget(l.job, cfg) then Finish(l, cfg, Failed, true, a.finish)
    else
      match Observed(l.job, a.process)
      case ExitedWith(code) =>
        Finish(l.(job := l.job.(exitCode := Some(code))), cfg, ExitOutcome(code), false, a.finish)
      case StillRunning => TickRunning(l, cfg, a)
      case Vanished => TickVanished(l, cfg, a)
      case NoAnswer => TickNoAnswer(l, cfg, a)
  }

  // ---- a job persisted mid-flight ----

  datatype ResumeAnswers = ResumeAnswers(accrueAt: real, existence: Tri, pipeline: PipelineAnswers)

  function LosePod(l: Local): Local
    requires HasPod(l.job)
  {
    Called(l.(job := l.job.(podId := None, ssh := None, pid := None)), [MarkRegistry(l.job.podId.value, true)])
  }

  ghost function Resume(l0: Local, cfg: JobConfig, a: ResumeAnswers): Outcome {
    var l := Accrue(l0, a.accrueAt);
    if HasPod(l.job) && a.existence == Unknown then Outcome(l, false)
    else Pipeline(if HasPod(l.job) && a.existence == No then LosePod(l) else l, cfg, a.pipeline, true)
  }

  // ---- the monitor's treatment of one job, exceptions included ----

  /** How far the tick of a running job had come when it raised: nowhere, past an exit code,
      past finding the process running, past a reading of the GPU, or past finding the pod
      alive. */
  datatype Reached = AtOnce | AfterExit(code: int) | AfterRunning | AfterReading(reading: TickAnswers) | AfterAlive

  /** What the tick had written by then. */
  function Partly(l: Local, cfg: JobConfig, reached: Reached): Local {
    if l.job.status != Running then l
    else
      match reached
      case AtOnce => l
      case AfterExit(code) => l.(job := l.job.(exitCode := Some(code)))
      case AfterRunning => l.(job := l.job.(idleSince := None, gone := 0))
      case AfterReading(a) =>
        var j := l.job.(idleSince := None, gone := 0);
        l.(job := j.(stalledSince := StallTimer(j, cfg, a)))
      case AfterAlive => l.(job := l.job.(gone := 0))
  }

  /** What happens when the monitor comes to a job: its regular step, or an exception raised
      in its place. */
  datatype JobAnswer =
    | Regular(tick: TickAnswers, resume: ResumeAnswers)
    | Transient(accrueAt: real, reached: Reached)
    | StoppedBy(accrueAt: real, reached: Reached)  // shutdown requested: the tick ends here
    | Unexpected(accrueAt: real, reached: Reached, finish: FinishAnswers, finishRaises: bool)

  ghost function Monitor(l: Local, cfg: JobConfig, a: JobAnswer): Outcome {
    match a
    case Regular(tick, resume) => if l.job.status == Running then Tick(l, cfg, tick) else Resume(l, cfg, resume)
    case Transient(at, reached) => Outcome(Partly(Accrue(l, at), cfg, reached), false)
    case StoppedBy(at, reached) => Outcome(Partly(Accrue(l, at), cfg, reached), false)
    case Unexpected(at, reached, finish, raises) =>
      var p := Partly(Accrue(l, at), cfg, reached);
      if raises then FailWithoutRelease(p, finish.now) else Finish(p, cfg, Failed, false, finish)
  }
}
