/** Facts about the operations on one job that the properties of whole runs rest on. */
module JobFacts {
  import opened Base
  import opened State
  import opened Provisioner
  import opened JobSteps
  import opened Ledger
  import opened Scheduler

  /** The log has only grown, and by no stop event. */
  ghost predicate QuietLog(before: seq<CostEvent>, after: seq<CostEvent>) {
    before <= after && forall k :: |before| <= k < |after| ==> !after[k].PodStopped?
  }

  /** Every call made on behalf of a job names it. */
  predicate CallFor(c: Call, name: Name) {
    c.Create? || c.Teardown? || c.FinalSync? || c.Backoff? ==> c.job == name
  }

  /** Calls were only added, on behalf of this job. */
  ghost predicate CallsFor(before: seq<Call>, after: seq<Call>, name: Name) {
    before <= after && forall k :: |before| <= k < |after| ==> CallFor(after[k], name)
  }

  predicate PipelineCall(c: Call, name: Name) {
    CallFor(c, name) && !c.FinalSync? && !c.Backoff?
  }

  /** Calls were only added, on behalf of this job, none of them a sync or a backoff. */
  ghost predicate PipelineCalls(before: seq<Call>, after: seq<Call>, name: Name) {
    before <= after && forall k :: |before| <= k < |after| ==> PipelineCall(after[k], name)
  }

  /** What provisioning leaves alone. */
  ghost predicate WalkKeeps(w: Walk, w': Walk) {
    && w'.job.name == w.job.name && w'.job.dependsOn == w.job.dependsOn
    && w'.job.cost == w.job.cost && w'.job.gone == w.job.gone && w'.job.finishedAt == w.job.finishedAt
    && w'.job.idleSince == w.job.idleSince && w'.job.stalledSince == w.job.stalledSince
    && w'.job.attempts >= w.job.attempts
    && QuietLog(w.log, w'.log) && PipelineCalls(w.calls, w'.calls, w.job.name)
  }

  lemma AttemptGrows(w: Walk, a: Answer, fixedRate: real)
    ensures var w' := Attempt(w, a, fixedRate).0;
      QuietLog(w.log, w'.log) && PipelineCalls(w.calls, w'.calls, w.job.name)
  {
    if a.Created? && !a.next.CallbackRaised? {
      var up := Announce(w, a.pod, a.price, a.at, fixedRate);
      assert QuietLog(w.log, up.log);
      if a.next.NoSshInfo? || a.next.NeverReady? || a.next.KeyRejected? {
        assert QuietLog(w.log, Release(up, a.pod, a.next.terminated).log);
      }
    }
  }

  lemma AttemptFacts(w: Walk, a: Answer, fixedRate: real)
    requires w.job.status == Provisioning
    ensures var (w', v) := Attempt(w, a, fixedRate);
      && WalkKeeps(w, w')
      && w'.job.status == (if v == Stop(KeyFailed) then Failed else Provisioning)
      && (v == Stop(StoppedEarly) <==> a.Created? && a.next.SshInterrupted?)
      && v != Stop(Exhausted)
  {
    hide QuietLog, PipelineCalls;
    AttemptKeeps(w, a, fixedRate);
    AttemptGrows(w, a, fixedRate);
  }

  /** No shutdown is requested while provisioning waits. */
  ghost predicate Uninterrupted(o: Oracle) {
    && (forall p, c :: !(o.answer(p, c).Created? && o.answer(p, c).next.SshInterrupted?))
    && forall p :: !o.stopAfter(p)
  }

  lemma {:induction false} WalkFacts(w: Walk, o: Oracle, n: nat, passes: nat, fixedRate: real,
                                     pass: nat, cand: nat, noCapacity: bool)
    requires pass <= passes && cand <= n && w.job.status == Provisioning
    ensures var (w', e) := WalkFrom(w, o, n, passes, fixedRate, pass, cand, noCapacity);
      && WalkKeeps(w, w')
      && w'.job.status == (if e.KeyFailed? || e.Exhausted? then Failed else Provisioning)
      && (Uninterrupted(o) ==> !e.StoppedEarly?)
    decreases passes - pass, n - cand
  {
    if cand < n {
      var noted := Noted(w, pass, cand);
      var a := o.answer(pass, cand);
      var (w', v) := Attempt(noted, a, fixedRate);
      AttemptFacts(noted, a, fixedRate);
      if !v.Stop? {
        WalkFacts(w', o, n, passes, fixedRate, pass, cand + 1, noCapacity || v.NextNoCapacity?);
      }
    } else if noCapacity && pass < passes && !o.stopAfter(pass) {
      WalkFacts(NextPass(w), o, n, passes, fixedRate, pass + 1, 0, false);
    }
  }

  lemma ProvisionFacts(w: Walk, o: Oracle, candidates: Option<nat>, retries: int, fixedRate: real)
    ensures var (w', e) := Provision(w, o, candidates, retries, fixedRate);
      && WalkKeeps(w, w')
      && w'.job.status == (if e.KeyFailed? || e.Exhausted? then Failed else Provisioning)
      && (w'.job.attempts > w.job.attempts || e.Exhausted?)
      && (Uninterrupted(o) ==> !e.StoppedEarly?)
  {
    if candidates.Some? && candidates.value > 0 {
      var w1 := NextPass(w.(job := w.job.(status := Provisioning)));
      WalkFacts(w1, o, candidates.value, Passes(retries), fixedRate, 1, 0, false);
    }
  }

  // ---- the pipeline ----

  /** What the pipeline leaves alone. */
  ghost predicate PipelineKeeps(l: Local, l': Local) {
    && l'.job.name == l.job.name && l'.job.dependsOn == l.job.dependsOn
    && l'.job.cost == l.job.cost && l'.job.gone == l.job.gone
    && l'.job.idleSince == l.job.idleSince && l'.job.stalledSince == l.job.stalledSince
    && l'.job.attempts >= l.job.attempts
    && l'.total == l.total && QuietLog(l.log, l'.log) && PipelineCalls(l.calls, l'.calls, l.job.name)
  }

  /** The pipeline was not told to stop. */
  ghost predicate RunsToEnd(a: PipelineAnswers) {
    !a.stopBeforeDeploy && !a.stopBeforeLaunch && !a.wait.WaitInterrupted? && Uninterrupted(a.oracle)
  }

  /** Every way of failing in the pipeline spreads. */
  lemma FailureFacts(l: Local, a: PipelineAnswers)
    ensures PipelineKeeps(l, Fault(l, a).at) && Fault(l, a).spread && Fault(l, a).at.job.status == Failed
    ensures var o := FailAndRelease(l, a.tornDown, a.now);
      PipelineKeeps(l, o.at) && o.spread && o.at.job.status == Failed
  {
  }

  lemma LaunchFacts(l: Local, pid: Option<int>, tornDown: bool, now: real)
    ensures var o := Launch(l, pid, tornDown, now);
      && PipelineKeeps(l, o.at) && (o.spread <==> o.at.job.status == Failed)
      && o.at.job.status == (if pid.None? then Failed else Running)
  {
  }

  lemma RestatusKeeps(l: Local, l': Local, status: Status)
    requires PipelineKeeps(l.(job := l.job.(status := status)), l')
    ensures PipelineKeeps(l, l')
  {
  }

  lemma DeployFacts(l: Local, a: PipelineAnswers)
    requires l.job.status in {Pending, Provisioning}
    ensures var o := DeployAndLaunch(l, a);
      && PipelineKeeps(l, o.at) && (o.spread <==> o.at.job.status == Failed)
      && o.at.job.status in {l.job.status, Deploying, Running, Failed}
      && (RunsToEnd(a) ==> o.at.job.status in {Running, Failed})
  {
    assert PipelineKeeps(l, l);
    hide PipelineKeeps, Fault, FailAndRelease, Launch;
    var d := l.(job := l.job.(status := Deploying));
    FailureFacts(d, a);
    LaunchFacts(d, if a.launch.LaunchReturned? then a.launch.pid else None, a.tornDown, a.now);
    if !a.stopBeforeDeploy {
      SelfKeeps(d);
      RestatusKeeps(l, DeployAndLaunch(l, a).at, Deploying);
    }
  }

  lemma SelfKeeps(l: Local)
    ensures PipelineKeeps(l, l)
  {
  }

  lemma AfterProvisioningFacts(l: Local, a: PipelineAnswers, isNew: bool)
    requires l.job.status in {Pending, Provisioning}
    ensures var o := AfterProvisioning(l, a, isNew);
      && PipelineKeeps(l, o.at) && (o.spread <==> o.at.job.status == Failed)
      && o.at.job.status in {l.job.status, Deploying, Running, Failed}
      && (RunsToEnd(a) ==> o.at.job.status in {Running, Failed})
  {
    RegisteredKeeps(l, isNew);
    FailureFacts(l, a);
    hide PipelineKeeps, Fault, DeployAndLaunch, Registered;
    if !a.faultBeforeDeploy {
      DeployFacts(Registered(l, isNew), a);
      KeepsCompose(l, Registered(l, isNew), AfterProvisioning(l, a, isNew).at);
    }
  }

  lemma RegisteredKeeps(l: Local, isNew: bool)
    ensures PipelineKeeps(l, Registered(l, isNew)) && Registered(l, isNew).job == l.job
  {
  }

  lemma ProvisionStepFacts(l: Local, cfg: JobConfig, a: PipelineAnswers)
    ensures var (p, e) := ProvisionStep(l, cfg, a);
      && PipelineKeeps(l, p)
      && (e.KeyFailed? || e.Exhausted? ==> p.job.status == Failed)
      && (!e.KeyFailed? && !e.Exhausted? ==> p.job.status in {Provisioning, l.job.status})
      && (!(cfg.keepPodAlive && HasPod(l.job)) && !e.KeyFailed? && !e.Exhausted? ==> p.job.status == Provisioning)
      && (Uninterrupted(a.oracle) ==> !e.StoppedEarly?)
      && (!HasPod(l.job) ==> p.job.attempts > l.job.attempts || e.Exhausted?)
  {
    ProvisionFacts(Walk(l.job, l.log, l.calls, []), a.oracle, a.candidates, cfg.provisionRetries, cfg.rateOverride);
  }

  lemma ProvisionedFacts(p: Local, e: End, a: PipelineAnswers, isNew: bool)
    requires e.KeyFailed? || e.Exhausted? ==> p.job.status == Failed
    requires !e.KeyFailed? && !e.Exhausted? ==> p.job.status in {Pending, Provisioning}
    requires Uninterrupted(a.oracle) ==> !e.StoppedEarly?
    ensures var o := Provisioned(p, e, a, isNew);
      && PipelineKeeps(p, o.at) && (o.spread <==> o.at.job.status == Failed)
      && o.at.job.status in {p.job.status, Deploying, Running, Failed}
      && (RunsToEnd(a) ==> o.at.job.status in {Running, Failed})
      && (e.Exhausted? ==> o.spread)
  {
    assert PipelineKeeps(p, p) && PipelineKeeps(p, p.(job := MarkFinished(p.job, a.now)));
    FailureFacts(p, a);
    hide PipelineKeeps, Fault, AfterProvisioning;
    if e.Tracked? {
      AfterProvisioningFacts(p, a, isNew);
    }
  }

  lemma KeepsCompose(a: Local, b: Local, c: Local)
    requires PipelineKeeps(a, b) && PipelineKeeps(b, c)
    ensures PipelineKeeps(a, c)
  {
  }

  lemma ReleaseOldKeeps(l: Local, a: PipelineAnswers)
    ensures PipelineKeeps(l, ReleaseOld(l, a)) && ReleaseOld(l, a).job == l.job
    ensures PipelineKeeps(l, l)
  {
  }

  lemma ResumeOnPodFacts(l: Local, a: PipelineAnswers)
    ensures var o := ResumeOnPod(l, a);
      && PipelineKeeps(l, o.at) && (o.spread <==> o.at.job.status == Failed)
      && o.at.job.status in {Provisioning, Deploying, Running, Failed}
      && (RunsToEnd(a) ==> o.at.job.status in {Running, Failed})
  {
    var r := l.(job := Refreshed(l.job.(status := Provisioning), a.address));
    assert PipelineKeeps(l, r);
    FailureFacts(r, a);
    hide PipelineKeeps, Fault, AfterProvisioning;
    AfterProvisioningFacts(r, a, false);
    KeepsCompose(l, r, ResumeOnPod(l, a).at);
  }

  /** The pipeline never touches the cost, the confirmations, the timers or the stop log; it spreads
      exactly when the job failed; not told to stop, it ends running or failed; and without a
      pod to start from it fails or counts an attempt. */
  lemma PipelineFacts(l: Local, cfg: JobConfig, a: PipelineAnswers, resume: bool)
    requires l.job.status == Pending || (Active(l.job.status) && (resume || !HasPod(l.job)))
    ensures var o := Pipeline(l, cfg, a, resume);
      && PipelineKeeps(l, o.at) && (o.spread <==> o.at.job.status == Failed)
      && o.at.job.status in {Pending, Provisioning, Deploying, Running, Failed}
      && (o.at.job.status == Pending ==> l.job.status == Pending)
      && (RunsToEnd(a) ==> o.at.job.status in {Running, Failed})
      && (l.job.podId == None ==> o.spread || o.at.job.attempts > l.job.attempts)
  {
    ReleaseOldKeeps(l, a);
    if resume && l.job.podId.Some? {
      ResumeOnPodFacts(l, a);
    } else {
      hide PipelineKeeps, ProvisionStep, Provisioned;
      var s := if IsReuse(l, cfg) then l else ReleaseOld(l, a);
      var (p, e) := ProvisionStep(s, cfg, a);
      ProvisionStepFacts(s, cfg, a);
      ProvisionedFacts(p, e, a, !IsReuse(l, cfg));
      KeepsCompose(l, s, p);
      KeepsCompose(l, p, Provisioned(p, e, a, !IsReuse(l, cfg)).at);
    }
  }

  // ---- every step of the monitor ----

  /** What every step on a job keeps: its identity, the account of the spend, one stop event
      per pod, and calls only on the job's own behalf. */
  ghost predicate StepKeeps(l: Local, l': Local) {
    && l'.job.name == l.job.name && l'.job.dependsOn == l.job.dependsOn
    && l'.total - l.total == l'.job.cost - l.job.cost && l'.job.cost >= l.job.cost
    && l'.job.attempts >= l.job.attempts
    && l.log <= l'.log && (UniqueStops(l.log) ==> UniqueStops(l'.log))
    && CallsFor(l.calls, l'.calls, l.job.name)
  }

  lemma StepsCompose(a: Local, b: Local, c: Local)
    requires StepKeeps(a, b) && StepKeeps(b, c)
    ensures StepKeeps(a, c)
  {
  }

  lemma PipelineIsStep(l: Local, l': Local)
    requires PipelineKeeps(l, l')
    ensures StepKeeps(l, l')
  {
  }

  lemma StopIsStep(l: Local, reason: StopReason)
    ensures StepKeeps(l, Stopped(l, reason))
  {
  }

  lemma AccrueIsStep(l: Local, now: real)
    ensures StepKeeps(l, Accrue(l, now))
  {
  }

  /** Calls were made, none of them a backoff. */
  ghost predicate QuietStep(l: Local, o: Outcome) {
    && l.calls < o.at.calls && forall k :: |l.calls| <= k < |o.at.calls| ==> !o.at.calls[k].Backoff?
  }

  lemma FinishQuiet(l: Local, cfg: JobConfig, status: Status, force: bool, a: FinishAnswers)
    ensures QuietStep(l, Finish(l, cfg, status, force, a))
    ensures Finish(l, cfg, status, force, a).at.job.status in {status, SyncFailed}
  {
  }

  /** Finishing keeps what every step keeps and spreads exactly an intended failure. */
  lemma FinishFacts(l: Local, cfg: JobConfig, status: Status, force: bool, a: FinishAnswers)
    requires status in {Completed, Failed}
    ensures var o := Finish(l, cfg, status, force, a);
      && StepKeeps(l, o.at) && (o.spread <==> status == Failed)
      && o.at.job.status == (if KeepsPod(l, cfg, status, force, a) then SyncFailed else status)
  {
    if !KeepsPod(l, cfg, status, force, a) {
      var r := AfterRelease(AfterSync(l, cfg, a), cfg, status, a);
      assert StepKeeps(l, r);
      var f := r.(job := r.job.(finishedAt := Some(a.now)));
      assert StepKeeps(r, f);
      StepsCompose(l, r, f);
      AccrueIsStep(f, a.later);
      StepsCompose(l, f, Accrue(f, a.later));
      StopIsStep(Accrue(f, a.later), Finished(status));
      StepsCompose(l, Accrue(f, a.later), Stopped(Accrue(f, a.later), Finished(status)));
    }
  }

  lemma BeforeRetryKeeps(l: Local, cfg: JobConfig, tornDown: bool)
    ensures var b := BeforeRetry(l, cfg, tornDown);
      StepKeeps(l, b) && b.job == l.job && StepKeeps(l, b.(job := Podless(b.job)))
  {
  }

  lemma FailingIsStep(l: Local, now: real)
    ensures StepKeeps(l, Failing(l, now)) && Failing(l, now).job.status == Failed
  {
  }

  /** A recovery ends the job, or counts at least one more attempt, or was interrupted before
      it began. */
  lemma RecoverFacts(l: Local, cfg: JobConfig, a: RecoverAnswers)
    requires l.job.status == Running
    ensures var o := Recover(l, cfg, a);
      && StepKeeps(l, o.at) && (o.spread <==> o.at.job.status == Failed)
      && o.at.job.status in {Provisioning, Deploying, Running, Failed}
      && (o.spread || o.at.job.attempts > l.job.attempts ||
          (AttemptsLeft(l.job, cfg) && a.interrupted && o.at.job == l.job))
  {
    hide StepKeeps, Pipeline, PipelineKeeps, BeforeRetry, Failing;
    if !AttemptsLeft(l.job, cfg) {
      FailingIsStep(l, a.pipeline.now);
    } else {
      BeforeRetryKeeps(l, cfg, a.tornDown);
      if !a.interrupted {
        var b := BeforeRetry(l, cfg, a.tornDown);
        var p := b.(job := Podless(b.job));
        PipelineFacts(p, cfg, a.pipeline, false);
        PipelineIsStep(p, Pipeline(p, cfg, a.pipeline, false).at);
        StepsCompose(l, p, Pipeline(p, cfg, a.pipeline, false).at);
      }
    }
  }

  lemma CountingIsStep(l: Local, gone: int)
    ensures StepKeeps(l, l.(job := l.job.(gone := gone)))
  {
  }

  lemma TickGoneFacts(l: Local, cfg: JobConfig, existence: Tri, a: RecoverAnswers)
    requires l.job.status == Running && existence != Yes
    ensures var o := TickGone(l, cfg, existence, a);
      && StepKeeps(l, o.at) && (o.spread <==> o.at.job.status == Failed)
      && o.at.job.status in {Provisioning, Deploying, Running, Failed}
  {
    hide Recover, StepKeeps;
    CountingIsStep(l, l.job.gone);
    if existence == No {
      var c := l.(job := l.job.(gone := l.job.gone + 1));
      CountingIsStep(l, l.job.gone + 1);
      if c.job.gone >= Confirmations(cfg) {
        RecoverFacts(c, cfg, a);
        StepsCompose(l, c, Recover(c, cfg, a).at);
      }
    }
  }

  /** What a step on a running job comes to. */
  ghost predicate Lawful(l: Local, o: Outcome) {
    StepKeeps(l, o.at) && Legal(l.job, o.at.job, o.spread)
  }

  lemma TickRunningFacts(l: Local, cfg: JobConfig, a: TickAnswers)
    requires l.job.status == Running
    ensures Lawful(l, TickRunning(l, cfg, a))
  {
    var c := l.(job := l.job.(idleSince := None, gone := 0));
    FinishFacts(c, cfg, Failed, false, a.finish);
    StepsCompose(l, c, Finish(c, cfg, Failed, false, a.finish).at);
  }

  lemma IdleIsStep(l: Local, gone: int, now: real)
    ensures StepKeeps(l, l.(job := l.job.(gone := gone, idleSince := Some(now))))
  {
  }

  lemma TickVanishedFacts(l: Local, cfg: JobConfig, a: TickAnswers)
    requires l.job.status == Running
    ensures Lawful(l, TickVanished(l, cfg, a))
  {
    hide Finish, TickGone;
    CountingIsStep(l, 0);
    IdleIsStep(l, 0, a.now);
    var existence := if HasPod(l.job) then a.existence else No;
    if existence == Yes {
      var c := l.(job := l.job.(gone := 0));
      FinishFacts(c, cfg, Completed, false, a.finish);
      StepsCompose(l, c, Finish(c, cfg, Completed, false, a.finish).at);
    } else {
      TickGoneFacts(l, cfg, existence, a.recover);
    }
  }

  lemma TickNoAnswerFacts(l: Local, cfg: JobConfig, a: TickAnswers)
    requires l.job.status == Running
    ensures Lawful(l, TickNoAnswer(l, cfg, a))
  {
    var existence := if HasPod(l.job) then a.existence else Unknown;
    if existence != Yes {
      TickGoneFacts(l, cfg, existence, a.recover);
    }
  }

  /** A tick is a lawful change of a running job. */
  lemma TickFacts(l0: Local, cfg: JobConfig, a: TickAnswers)
    requires l0.job.status == Running
    ensures Lawful(l0, Tick(l0, cfg, a))
  {
    var l := Accrue(l0, a.accrueAt);
    AccrueIsStep(l0, a.accrueAt);
    if OverBudget(l.job, cfg) {
      FinishFacts(l, cfg, Failed, true, a.finish);
    } else {
      match Observed(l.job, a.process)
      case ExitedWith(code) =>
        var c := l.(job := l.job.(exitCode := Some(code)));
        FinishFacts(c, cfg, ExitOutcome(code), false, a.finish);
        StepsCompose(l, c, Tick(l0, cfg, a).at);
      case StillRunning => TickRunningFacts(l, cfg, a);
      case Vanished => TickVanishedFacts(l, cfg, a);
      case NoAnswer => TickNoAnswerFacts(l, cfg, a);
    }
    StepsCompose(l0, l, Tick(l0, cfg, a).at);
  }

  lemma ResumeFacts(l0: Local, cfg: JobConfig, a: ResumeAnswers)
    requires l0.job.status in {Provisioning, Deploying}
    ensures Lawful(l0, Resume(l0, cfg, a))
  {
    var l := Accrue(l0, a.accrueAt);
    AccrueIsStep(l0, a.accrueAt);
    if !(HasPod(l.job) && a.existence == Unknown) {
      var p := if HasPod(l.job) && a.existence == No then LosePod(l) else l;
      assert StepKeeps(l, p);
      StepsCompose(l0, l, p);
      PipelineFacts(p, cfg, a.pipeline, true);
      PipelineIsStep(p, Pipeline(p, cfg, a.pipeline, true).at);
      StepsCompose(l0, p, Pipeline(p, cfg, a.pipeline, true).at);
    }
  }

  lemma PartlyIsStep(l: Local, cfg: JobConfig, at: real, reached: Reached)
    ensures var p := Partly(Accrue(l, at), cfg, reached);
      StepKeeps(l, p) && p.job.status == l.job.status && p.job.podId == l.job.podId && p.calls == l.calls
  {
  }

  lemma FailWithoutReleaseIsStep(l: Local, now: real)
    ensures StepKeeps(l, FailWithoutRelease(l, now).at) && FailWithoutRelease(l, now).at.job.status == Failed
    ensures FailWithoutRelease(l, now).spread
  {
  }

  /** Whatever happens when the monitor comes to an active job, exceptions included. */
  lemma MonitorFacts(l: Local, cfg: JobConfig, a: JobAnswer)
    requires Active(l.job.status)
    ensures Lawful(l, Monitor(l, cfg, a))
  {
    hide StepKeeps, Tick, Resume, Finish, FailWithoutRelease, Partly;
    match a
    case Regular(tick, resume) =>
      if l.job.status == Running {
        TickFacts(l, cfg, tick);
      } else {
        ResumeFacts(l, cfg, resume);
      }
    case Transient(at, reached) =>
      PartlyIsStep(l, cfg, at, reached);
    case StoppedBy(at, reached) =>
      PartlyIsStep(l, cfg, at, reached);
    case Unexpected(at, reached, finish, raises) =>
      var b := Partly(Accrue(l, at), cfg, reached);
      PartlyIsStep(l, cfg, at, reached);
      FailWithoutReleaseIsStep(b, finish.now);
      FinishFacts(b, cfg, Failed, false, finish);
      StepsCompose(l, b, Monitor(l, cfg, a).at);
  }
}
