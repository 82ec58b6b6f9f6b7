/** A job that fails does not leave its pod behind: the pod it still refers to has had its
    termination requested. */
module Releases {
  import opened Base
  import opened State
  import opened Provisioner
  import opened JobSteps
  import opened JobFacts
  import opened Confirmation

  ghost predicate Asked(before: seq<Call>, after: seq<Call>, pod: PodId) {
    before <= after && exists k :: |before| <= k < |after| && after[k].Teardown? && after[k].pod == pod
  }

  /** The pod the job refers to, if any, has had its termination requested. */
  ghost predicate PodAsked(before: seq<Call>, j: Job, after: seq<Call>) {
    before <= after && (HasPod(j) ==> Asked(before, after, j.podId.value))
  }

  ghost predicate LetsGo(before: seq<Call>, o: Outcome) {
    before <= o.at.calls && (o.at.job.status == Failed ==> PodAsked(before, o.at.job, o.at.calls))
  }

  lemma AskedLater(a: seq<Call>, b: seq<Call>, c: seq<Call>, pod: PodId)
    requires a <= b && Asked(b, c, pod)
    ensures Asked(a, c, pod)
  {
  }

  lemma LetsGoLater(a: seq<Call>, b: seq<Call>, o: Outcome)
    requires a <= b && LetsGo(b, o)
    ensures LetsGo(a, o)
  {
    if o.at.job.status == Failed && HasPod(o.at.job) {
      AskedLater(a, b, o.at.calls, o.at.job.podId.value);
    }
  }

  lemma FinishLetsGo(l: Local, cfg: JobConfig, status: Status, force: bool, a: FinishAnswers)
    requires status in {Completed, Failed}
    ensures LetsGo(l.calls, Finish(l, cfg, status, force, a))
  {
    var o := Finish(l, cfg, status, force, a);
    if o.at.job.status == Failed && HasPod(l.job) {
      assert o.at.calls[|l.calls| + 1].Teardown?;
    }
  }

  lemma FailuresLetGo(l: Local, a: PipelineAnswers, tornDown: bool, now: real)
    ensures LetsGo(l.calls, Fault(l, a)) && LetsGo(l.calls, FailAndRelease(l, tornDown, now))
  {
    if HasPod(l.job) {
      assert Fault(l, a).at.calls[|l.calls|].Teardown?;
      assert FailAndRelease(l, tornDown, now).at.calls[|l.calls|].Teardown?;
    }
  }

  lemma DeployLetsGo(l: Local, a: PipelineAnswers)
    requires l.job.status != Failed
    ensures LetsGo(l.calls, DeployAndLaunch(l, a))
  {
    hide Fault, FailAndRelease;
    var d := l.(job := l.job.(status := Deploying));
    FailuresLetGo(d, a, a.tornDown, a.now);
  }

  lemma AfterProvisioningLetsGo(l: Local, a: PipelineAnswers, isNew: bool)
    requires l.job.status != Failed
    ensures LetsGo(l.calls, AfterProvisioning(l, a, isNew))
  {
    hide Fault, DeployAndLaunch, LetsGo;
    FailuresLetGo(l, a, a.tornDown, a.now);
    if !a.faultBeforeDeploy {
      DeployLetsGo(Registered(l, isNew), a);
      LetsGoLater(l.calls, Registered(l, isNew).calls, DeployAndLaunch(Registered(l, isNew), a));
    }
  }

  // ---- the walk ----

  lemma AttemptKeepsAsked(base: seq<Call>, w: Walk, a: Answer, fixedRate: real)
    requires PodAsked(base, w.job, w.calls)
    ensures var (w', v) := Attempt(w, a, fixedRate);
      && base <= w'.calls && v != Stop(Exhausted)
      && (!v.Stop? || v.end.KeyFailed? ==> PodAsked(base, w'.job, w'.calls))
  {
  }

  lemma {:induction false} WalkKeepsAsked(base: seq<Call>, w: Walk, o: Oracle, n: nat, passes: nat, fixedRate: real,
                                          pass: nat, cand: nat, noCapacity: bool)
    requires PodAsked(base, w.job, w.calls) && pass <= passes && cand <= n
    ensures var (w', e) := WalkFrom(w, o, n, passes, fixedRate, pass, cand, noCapacity);
      base <= w'.calls && (e.Exhausted? || e.KeyFailed? ==> PodAsked(base, w'.job, w'.calls))
    decreases passes - pass, n - cand
  {
    hide Attempt, Asked;
    if cand < n {
      var noted, a := Noted(w, pass, cand), o.answer(pass, cand);
      var (w', v) := Attempt(noted, a, fixedRate);
      AttemptKeepsAsked(base, noted, a, fixedRate);
      if !v.Stop? {
        WalkKeepsAsked(base, w', o, n, passes, fixedRate, pass, cand + 1, noCapacity || v.NextNoCapacity?);
      }
    } else if noCapacity && pass < passes && !o.stopAfter(pass) {
      WalkKeepsAsked(base, NextPass(w), o, n, passes, fixedRate, pass + 1, 0, false);
    }
  }

  lemma ProvisionStepKeepsAsked(base: seq<Call>, l: Local, cfg: JobConfig, a: PipelineAnswers)
    requires PodAsked(base, l.job, l.calls)
    ensures var (p, e) := ProvisionStep(l, cfg, a);
      base <= p.calls && (e.Exhausted? || e.KeyFailed? ==> PodAsked(base, p.job, p.calls))
  {
    hide Asked;
    if a.candidates.Some? && a.candidates.value > 0 {
      var w := Walk(l.job, l.log, l.calls, []);
      WalkKeepsAsked(base, NextPass(w.(job := w.job.(status := Provisioning))), a.oracle, a.candidates.value,
                     Passes(cfg.provisionRetries), cfg.rateOverride, 1, 0, false);
    }
  }

  lemma ProvisionedLetsGo(base: seq<Call>, p: Local, e: End, a: PipelineAnswers, isNew: bool)
    requires base <= p.calls && (e.Exhausted? || e.KeyFailed? ==> PodAsked(base, p.job, p.calls))
    requires !e.Exhausted? && !e.KeyFailed? ==> p.job.status != Failed
    ensures LetsGo(base, Provisioned(p, e, a, isNew))
  {
    hide Fault, AfterProvisioning, Asked;
    FailuresLetGo(p, a, a.tornDown, a.now);
    LetsGoLater(base, p.calls, Fault(p, a));
    if e.Tracked? {
      AfterProvisioningLetsGo(p, a, isNew);
      LetsGoLater(base, p.calls, AfterProvisioning(p, a, isNew));
    }
  }

  lemma ReleasedIsAsked(l: Local, a: PipelineAnswers)
    ensures PodAsked(l.calls, ReleaseOld(l, a).job, ReleaseOld(l, a).calls)
  {
    if HasPod(l.job) {
      assert ReleaseOld(l, a).calls[|l.calls|].Teardown?;
    }
  }

  lemma ResumeLetsGo(l: Local, a: PipelineAnswers)
    ensures LetsGo(l.calls, ResumeOnPod(l, a))
  {
    hide Fault, AfterProvisioning;
    var r := l.(job := Refreshed(l.job.(status := Provisioning), a.address));
    FailuresLetGo(r, a, a.tornDown, a.now);
    AfterProvisioningLetsGo(r, a, false);
  }

  /** A pipeline that fails has asked for the termination of the pod the job still refers to,
      unless it set out to reuse a kept-alive pod. */
  lemma PipelineLetsGo(l: Local, cfg: JobConfig, a: PipelineAnswers, resume: bool)
    requires l.job.status == Pending || (Active(l.job.status) && (resume || !HasPod(l.job)))
    requires resume || !cfg.keepPodAlive || !HasPod(l.job)
    ensures LetsGo(l.calls, Pipeline(l, cfg, a, resume))
  {
    hide LetsGo, ResumeOnPod, ProvisionStep, Provisioned, Asked, PipelineKeeps;
    if resume && l.job.podId.Some? {
      ResumeLetsGo(l, a);
    } else {
      ReleasedIsAsked(l, a);
      var s := if IsReuse(l, cfg) then l else ReleaseOld(l, a);
      var (p, e) := ProvisionStep(s, cfg, a);
      ProvisionStepKeepsAsked(l.calls, s, cfg, a);
      ProvisionStepFacts(s, cfg, a);
      ProvisionedLetsGo(l.calls, p, e, a, !IsReuse(l, cfg));
    }
  }

  /** The exception is real: a kept-alive pod whose existence cannot be confirmed is left
      running by a job that fails for want of candidates. */
  lemma ReuseCanStrand(l: Local, cfg: JobConfig, a: PipelineAnswers)
    requires cfg.keepPodAlive && HasPod(l.job) && a.reuseExists != Yes && a.candidates.None?
    ensures !LetsGo(l.calls, Pipeline(l, cfg, a, false))
  {
  }

  /** Answers under which nothing can be provisioned. */
  function NoCandidates(): PipelineAnswers {
    PipelineAnswers(false, Unknown, None, None, Oracle((p, c) => Refused, p => false), Up, false, false, Deployed,
                    false,
                    LaunchReturned(None), false, 0.0)
  }

  /** So a pipeline lets go of its pod whatever the world answers exactly when it continues on
      a pod, or keeps none alive, or has none. */
  lemma PipelineLetsGoExactlyWhen(l: Local, cfg: JobConfig, resume: bool)
    requires l.job.status == Pending || (Active(l.job.status) && (resume || !HasPod(l.job)))
    ensures (forall a: PipelineAnswers :: LetsGo(l.calls, Pipeline(l, cfg, a, resume)))
       <==> resume || !cfg.keepPodAlive || !HasPod(l.job)
  {
    hide Pipeline, LetsGo;
    if resume || !cfg.keepPodAlive || !HasPod(l.job) {
      forall a: PipelineAnswers ensures LetsGo(l.calls, Pipeline(l, cfg, a, resume)) {
        PipelineLetsGo(l, cfg, a, resume);
      }
    } else {
      ReuseCanStrand(l, cfg, NoCandidates());
    }
  }

  // ---- the monitor's steps ----

  lemma RecoverLetsGo(l: Local, cfg: JobConfig, a: RecoverAnswers)
    requires l.job.status == Running && AttemptsLeft(l.job, cfg)
    ensures LetsGo(l.calls, Recover(l, cfg, a))
  {
    hide BeforeRetry, Pipeline, StepKeeps;
    BeforeRetryCalls(l, cfg, a.tornDown);
    var b := BeforeRetry(l, cfg, a.tornDown);
    if !a.interrupted {
      var p := b.(job := Podless(b.job));
      PipelineLetsGo(p, cfg, a.pipeline, false);
      LetsGoLater(l.calls, b.calls, Pipeline(p, cfg, a.pipeline, false));
    }
  }

  lemma BeforeRetryCalls(l: Local, cfg: JobConfig, tornDown: bool)
    ensures var b := BeforeRetry(l, cfg, tornDown); l.calls <= b.calls && b.job == l.job
  {
  }

  /** Recovery of a job without attempts left fails it, and its pod with it. */
  predicate GivesUp(l: Local, cfg: JobConfig, sign: Sign) {
    HasPod(l.job) && !AttemptsLeft(l.job, cfg) && sign == SawGone && l.job.gone + 1 >= Confirmations(cfg)
  }

  lemma GoneLetsGo(l: Local, cfg: JobConfig, existence: Tri, a: RecoverAnswers)
    requires l.job.status == Running && existence != Yes
    ensures LetsGo(l.calls, TickGone(l, cfg, existence, a)) <==> !GivesUp(l, cfg, Answered(existence))
  {
    var c := l.(job := l.job.(gone := l.job.gone + 1));
    if AttemptsLeft(l.job, cfg) {
      hide Recover;
      RecoverLetsGo(c, cfg, a);
    }
  }

  lemma RunningLetsGo(l: Local, cfg: JobConfig, a: TickAnswers)
    requires l.job.status == Running
    ensures LetsGo(l.calls, TickRunning(l, cfg, a))
  {
    hide Finish;
    FinishLetsGo(l.(job := l.job.(idleSince := None, gone := 0)), cfg, Failed, false, a.finish);
  }

  lemma VanishedLetsGo(l: Local, cfg: JobConfig, a: TickAnswers)
    requires l.job.status == Running
    ensures LetsGo(l.calls, TickVanished(l, cfg, a)) <==>
              !GivesUp(l, cfg, Answered(if HasPod(l.job) then a.existence else No))
  {
    hide Finish, TickGone;
    FinishLetsGo(l.(job := l.job.(gone := 0)), cfg, Completed, false, a.finish);
    if !(HasPod(l.job) && a.existence == Yes) {
      GoneLetsGo(l, cfg, if HasPod(l.job) then a.existence else No, a.recover);
    }
  }

  lemma NoAnswerLetsGo(l: Local, cfg: JobConfig, a: TickAnswers)
    requires l.job.status == Running
    ensures LetsGo(l.calls, TickNoAnswer(l, cfg, a)) <==>
              !GivesUp(l, cfg, Answered(if HasPod(l.job) then a.existence else Unknown))
  {
    hide Launch, TickGone;
    LaunchLetsGo(l.(job := l.job.(gone := 0)), a);
    if !(HasPod(l.job) && a.existence == Yes) {
      GoneLetsGo(l, cfg, if HasPod(l.job) then a.existence else Unknown, a.recover);
    }
  }

  lemma TickLetsGo(l0: Local, cfg: JobConfig, a: TickAnswers)
    requires l0.job.status == Running
    ensures LetsGo(l0.calls, Tick(l0, cfg, a)) <==> !GivesUp(l0, cfg, SignOf(l0, cfg, a))
  {
    hide Finish, TickRunning, TickVanished, TickNoAnswer, LetsGo;
    var l := Accrue(l0, a.accrueAt);
    FinishLetsGo(l, cfg, Failed, true, a.finish);
    match Observed(l.job, a.process)
    case ExitedWith(code) =>
      FinishLetsGo(l.(job := l.job.(exitCode := Some(code))), cfg, ExitOutcome(code), false, a.finish);
    case StillRunning => RunningLetsGo(l, cfg, a);
    case Vanished => VanishedLetsGo(l, cfg, a);
    case NoAnswer => NoAnswerLetsGo(l, cfg, a);
  }

  lemma NotFailedLetsGo(before: seq<Call>, o: Outcome)
    ensures o.at.job.status != Failed && before <= o.at.calls ==> LetsGo(before, o)
  {
  }

  lemma LaunchLetsGo(l: Local, a: TickAnswers)
    requires l.job.status != Failed
    ensures LetsGo(l.calls, Launch(l, a.launched, a.launchTornDown, a.now))
  {
    if HasPod(l.job) && a.launched.None? {
      assert Launch(l, a.launched, a.launchTornDown, a.now).at.calls[|l.calls|].Teardown?;
    }
  }

  lemma ResumeJobLetsGo(l0: Local, cfg: JobConfig, a: ResumeAnswers)
    requires l0.job.status in {Provisioning, Deploying}
    ensures LetsGo(l0.calls, Resume(l0, cfg, a))
  {
    hide Pipeline, LetsGo;
    var l := Accrue(l0, a.accrueAt);
    NotFailedLetsGo(l0.calls, Resume(l0, cfg, a));
    if !(HasPod(l.job) && a.existence == Unknown) {
      var p := if HasPod(l.job) && a.existence == No then LosePod(l) else l;
      PipelineLetsGo(p, cfg, a.pipeline, true);
      LetsGoLater(l0.calls, p.calls, Pipeline(p, cfg, a.pipeline, true));
    }
  }

  lemma FaultInFinishing(l: Local, now: real)
    ensures LetsGo(l.calls, FailWithoutRelease(l, now)) <==> !HasPod(l.job)
  {
  }

  /** Where a step of the monitor fails a job whose pod nobody was told to terminate: finishing
      raised after an unexpected exception; or the provider's last "gone" came when the job
      had no attempts left. */
  predicate LeavesPod(l: Local, cfg: JobConfig, a: JobAnswer) {
    || (a.Unexpected? && a.finishRaises && HasPod(l.job))
    || (a.Regular? && l.job.status == Running && GivesUp(l, cfg, SignOf(l, cfg, a.tick)))
  }

  /** Whatever the monitor does to an active job: if it fails, the pod it refers to has had its
      termination requested, exactly except in those two cases. */
  lemma MonitorLetsGo(l: Local, cfg: JobConfig, a: JobAnswer)
    requires Active(l.job.status)
    ensures LetsGo(l.calls, Monitor(l, cfg, a)) <==> !LeavesPod(l, cfg, a)
  {
    hide LetsGo, Tick, Resume, Finish, FailWithoutRelease, GivesUp, Partly;
    match a
    case Regular(tick, resume) =>
      if l.job.status != Running {
        ResumeJobLetsGo(l, cfg, resume);
      } else {
        TickLetsGo(l, cfg, tick);
      }
    case Transient(at, reached) =>
      PartlyIsStep(l, cfg, at, reached);
      NotFailedLetsGo(l.calls, Monitor(l, cfg, a));
    case StoppedBy(at, reached) =>
      PartlyIsStep(l, cfg, at, reached);
      NotFailedLetsGo(l.calls, Monitor(l, cfg, a));
    case Unexpected(at, reached, finish, raises) =>
      var p := Partly(Accrue(l, at), cfg, reached);
      PartlyIsStep(l, cfg, at, reached);
      FinishLetsGo(p, cfg, Failed, false, finish);
      FaultInFinishing(p, finish.now);
  }
}
