/** Does the registry say "terminated" only of pods known to be gone: by a verified teardown,
    or by the provider's own answer? */
module RegistryTruth {
  import opened Base
  import opened State
  import opened Provisioner
  import opened JobSteps
  import opened JobFacts
  import opened Confirmation
  import R = Reconcile

  /** Pods that the provider has said are gone. */
  type Pods = iset<PodId>

  /** The pod is known to be gone: by the provider's word, or by a teardown since `base` that
      was verified. */
  ghost predicate KnownGone(gone: Pods, base: seq<Call>, calls: seq<Call>, pod: PodId) {
    pod in gone || exists k, name :: |base| <= k < |calls| && calls[k] == Teardown(name, pod, true)
  }

  predicate SaysTerminated(c: Call) {
    c.MarkRegistry? && c.terminated
  }

  /** Since `base`, "terminated" was said only of pods known to be gone by then. */
  ghost predicate TruthTold(gone: Pods, base: seq<Call>, calls: seq<Call>) {
    && base <= calls
    && forall k :: |base| <= k < |calls| && SaysTerminated(calls[k]) ==> KnownGone(gone, base, calls[..k], calls[k].pod)
  }

  lemma Extends(gone: Pods, base: seq<Call>, calls: seq<Call>)
    requires TruthTold(gone, base, calls)
    ensures base <= calls
  {
  }

  lemma SaidIsKnown(gone: Pods, base: seq<Call>, calls: seq<Call>, pod: PodId)
    requires pod in gone
    ensures KnownGone(gone, base, calls, pod)
  {
  }

  lemma KnownLater(gone: Pods, base: seq<Call>, calls: seq<Call>, more: seq<Call>, pod: PodId)
    requires KnownGone(gone, base, calls, pod)
    ensures KnownGone(gone, base, calls + more, pod)
  {
    if pod !in gone {
      var k, name :| |base| <= k < |calls| && calls[k] == Teardown(name, pod, true);
      assert (calls + more)[k] == Teardown(name, pod, true);
    }
  }

  lemma TellsOne(gone: Pods, base: seq<Call>, calls: seq<Call>, c: Call)
    requires base <= calls
    ensures TruthTold(gone, base, calls + [c]) <==>
              TruthTold(gone, base, calls) && (SaysTerminated(c) ==> KnownGone(gone, base, calls, c.pod))
  {
    var r := calls + [c];
    assert r[..|calls|] == calls;
    forall k | 0 <= k < |calls| ensures r[..k] == calls[..k] && r[k] == calls[k] {
    }
    hide KnownGone;
    if TruthTold(gone, base, r) {
      forall k | |base| <= k < |calls| && SaysTerminated(calls[k])
        ensures KnownGone(gone, base, calls[..k], calls[k].pod)
      {
        assert SaysTerminated(r[k]);
      }
      assert r[|calls|] == c;
    }
  }

  /** Calls that say nothing about termination leave the truth as it was. */
  lemma {:induction false} TellsNothing(gone: Pods, base: seq<Call>, calls: seq<Call>, more: seq<Call>)
    requires base <= calls && forall c :: c in more ==> !SaysTerminated(c)
    ensures TruthTold(gone, base, calls + more) <==> TruthTold(gone, base, calls)
    decreases |more|
  {
    hide TruthTold, KnownGone;
    if more == [] {
      assert calls + more == calls;
    } else {
      TellsOne(gone, base, calls, more[0]);
      TellsNothing(gone, base, calls + [more[0]], more[1..]);
      assert calls + more == calls + [more[0]] + more[1..];
    }
  }

  /** A teardown followed by "terminated". */
  lemma TellsTeardown(gone: Pods, base: seq<Call>, calls: seq<Call>, name: Name, pod: PodId, ok: bool)
    requires base <= calls
    ensures TruthTold(gone, base, calls + [Teardown(name, pod, ok), MarkRegistry(pod, true)]) <==>
              TruthTold(gone, base, calls) && (ok || KnownGone(gone, base, calls, pod))
  {
    var torn := calls + [Teardown(name, pod, ok)];
    hide TruthTold;
    TellsOne(gone, base, calls, Teardown(name, pod, ok));
    TellsOne(gone, base, torn, MarkRegistry(pod, true));
    assert calls + [Teardown(name, pod, ok), MarkRegistry(pod, true)] == torn + [MarkRegistry(pod, true)];
    TornDownKnown(gone, base, calls, name, pod, ok);
  }

  lemma TornDownKnown(gone: Pods, base: seq<Call>, calls: seq<Call>, name: Name, pod: PodId, ok: bool)
    requires base <= calls
    ensures KnownGone(gone, base, calls + [Teardown(name, pod, ok)], pod) <==> ok || KnownGone(gone, base, calls, pod)
  {
    var torn := calls + [Teardown(name, pod, ok)];
    if KnownGone(gone, base, calls, pod) {
      KnownLater(gone, base, calls, [Teardown(name, pod, ok)], pod);
    }
    if ok {
      assert torn[|calls|] == Teardown(name, pod, true);
    }
    if KnownGone(gone, base, torn, pod) && pod !in gone && !ok {
      var k, n :| |base| <= k < |torn| && torn[k] == Teardown(n, pod, true);
      assert calls[k] == Teardown(n, pod, true);
    }
  }

  // ---- finishing and releasing ----

  /** Finishing a job tells the truth; */
  lemma FinishTellsTruth(gone: Pods, base: seq<Call>, l: Local, cfg: JobConfig, status: Status, force: bool,
                         a: FinishAnswers)
    requires TruthTold(gone, base, l.calls)
    ensures TruthTold(gone, base, Finish(l, cfg, status, force, a).at.calls)
  {
    hide TruthTold, KnownGone;
    Extends(gone, base, l.calls);
    var s := l.calls + [FinalSync(l.job.name, Synced(l, cfg, a))];
    TellsOne(gone, base, l.calls, FinalSync(l.job.name, Synced(l, cfg, a)));
    if HasPod(l.job) {
      var pod := l.job.podId.value;
      var torn := Teardown(l.job.name, pod, a.tornDown);
      TellsOne(gone, base, s, MarkRegistry(pod, false));
      TellsOne(gone, base, s, torn);
      TornDownKnown(gone, base, s, l.job.name, pod, a.tornDown);
      TellsOne(gone, base, s + [torn], MarkRegistry(pod, a.tornDown));
    }
  }

  /** and its last word to the registry is what became of the pod. */
  lemma FinishSaysWhat(l: Local, cfg: JobConfig, status: Status, force: bool, a: FinishAnswers)
    requires HasPod(l.job)
    ensures var after, pod := Finish(l, cfg, status, force, a).at.calls, l.job.podId.value;
      && |after| > |l.calls| && after[|after| - 1].MarkRegistry? && after[|after| - 1].pod == pod
      && (SaysTerminated(after[|after| - 1]) <==> Teardown(l.job.name, pod, true) in after[|l.calls|..])
  {
    var after := Finish(l, cfg, status, force, a).at.calls;
    var n := |l.calls|;
    if TornDown(l, cfg, status, a) && !KeepsPod(l, cfg, status, force, a) {
      assert after[n + 1] == Teardown(l.job.name, l.job.podId.value, true);
    }
  }

  /** An exception in the pipeline: the answer of the teardown is ignored. */
  lemma FaultTells(gone: Pods, base: seq<Call>, l: Local, a: PipelineAnswers)
    requires base <= l.calls
    ensures TruthTold(gone, base, Fault(l, a).at.calls) <==>
              TruthTold(gone, base, l.calls) &&
              (HasPod(l.job) ==> a.tornDown || KnownGone(gone, base, l.calls, l.job.podId.value))
  {
    if HasPod(l.job) {
      TellsTeardown(gone, base, l.calls, l.job.name, l.job.podId.value, a.tornDown);
    }
  }

  // ---- the pipeline ----

  /** What holds when deploying or launching raises. */
  function DeployFault(l: Local, a: PipelineAnswers, isNew: bool): Option<Local> {
    if a.faultBeforeDeploy then Some(l)
    else if a.stopBeforeDeploy then None
    else if a.deploy.DeployRaised? || (a.deploy.Deployed? && !a.stopBeforeLaunch && a.launch.LaunchRaised?)
    then Some(Registered(l, isNew))
    else None
  }

  /** What holds when the pipeline raises, if it does. */
  ghost function FaultAt(l: Local, cfg: JobConfig, a: PipelineAnswers, resume: bool): Option<Local> {
    if resume && l.job.podId.Some? then
      var r := l.(job := Refreshed(l.job.(status := Provisioning), a.address));
      if r.job.ssh.None? || a.wait.Down? then Some(r)
      else if a.wait.WaitInterrupted? then None
      else DeployFault(r, a, false)
    else
      var (p, e) := ProvisionStep(if IsReuse(l, cfg) then l else ReleaseOld(l, a), cfg, a);
      match e
      case Raised => Some(p)
      case Tracked => DeployFault(p, a, !IsReuse(l, cfg))
      case _ => None
  }

  /** The pipeline raises with a pod in hand whose teardown is not verified, nor known to be
      gone otherwise. */
  ghost predicate PipelineLies(gone: Pods, base: seq<Call>, l: Local, cfg: JobConfig, a: PipelineAnswers,
                               resume: bool) {
    var f := FaultAt(l, cfg, a, resume);
    f.Some? && HasPod(f.value.job) && !a.tornDown && !KnownGone(gone, base, f.value.calls, f.value.job.podId.value)
  }

  lemma DeployTells(gone: Pods, base: seq<Call>, l: Local, a: PipelineAnswers, isNew: bool)
    requires TruthTold(gone, base, l.calls)
    ensures var f := DeployFault(l, a, isNew);
      TruthTold(gone, base, AfterProvisioning(l, a, isNew).at.calls) <==>
        !(f.Some? && HasPod(f.value.job) && !a.tornDown &&
          !KnownGone(gone, base, f.value.calls, f.value.job.podId.value))
  {
    hide TruthTold, KnownGone, Fault;
    Extends(gone, base, l.calls);
    var r := Registered(l, isNew);
    if l.job.podId.Some? {
      var pod := l.job.podId.value;
      TellsOne(gone, base, l.calls, if isNew then Register(pod) else MarkRegistry(pod, false));
    }
    FaultTells(gone, base, l, a);
    FaultTells(gone, base, r.(job := r.job.(status := Deploying)), a);
    if HasPod(l.job) {
      TellsOne(gone, base, r.calls, Teardown(l.job.name, l.job.podId.value, a.tornDown));
    }
  }

  lemma ReleaseTells(gone: Pods, base: seq<Call>, w: Walk, pod: PodId, ok: bool)
    requires TruthTold(gone, base, w.calls)
    ensures TruthTold(gone, base, Release(w, pod, ok).calls)
  {
    var torn := Teardown(w.job.name, pod, ok);
    assert Release(w, pod, ok).calls == if ok then w.calls + [torn, MarkRegistry(pod, true)] else w.calls + [torn];
    TellsTeardown(gone, base, w.calls, w.job.name, pod, ok);
    TellsOne(gone, base, w.calls, Teardown(w.job.name, pod, ok));
  }

  lemma AttemptTells(gone: Pods, base: seq<Call>, w: Walk, a: Answer, fixedRate: real)
    requires TruthTold(gone, base, w.calls)
    ensures TruthTold(gone, base, Attempt(w, a, fixedRate).0.calls)
  {
    hide TruthTold, Release;
    if a.Created? {
      Extends(gone, base, w.calls);
      TellsOne(gone, base, w.calls, Create(w.job.name, a.pod));
      if !a.next.CallbackRaised? {
        var up := Announce(w, a.pod, a.price, a.at, fixedRate);
        TellsNothing(gone, base, w.calls, [Create(w.job.name, a.pod), Register(a.pod)]);
        if a.next.NoSshInfo? || a.next.NeverReady? || a.next.KeyRejected? {
          ReleaseTells(gone, base, up, a.pod, a.next.terminated);
        } else {
          TellsOne(gone, base, up.calls, Teardown(w.job.name, a.pod, false));
          TellsOne(gone, base, up.calls, Teardown(w.job.name, a.pod, true));
        }
      }
    }
  }

  lemma {:induction false} WalkTells(gone: Pods, base: seq<Call>, w: Walk, o: Oracle, n: nat, passes: nat,
                                     fixedRate: real, pass: nat, cand: nat, noCapacity: bool)
    requires TruthTold(gone, base, w.calls) && pass <= passes && cand <= n
    ensures TruthTold(gone, base, WalkFrom(w, o, n, passes, fixedRate, pass, cand, noCapacity).0.calls)
    decreases passes - pass, n - cand
  {
    hide TruthTold, Attempt;
    if cand < n {
      var noted, a := Noted(w, pass, cand), o.answer(pass, cand);
      var (w', v) := Attempt(noted, a, fixedRate);
      AttemptTells(gone, base, noted, a, fixedRate);
      if !v.Stop? {
        WalkTells(gone, base, w', o, n, passes, fixedRate, pass, cand + 1, noCapacity || v.NextNoCapacity?);
      }
    } else if noCapacity && pass < passes && !o.stopAfter(pass) {
      WalkTells(gone, base, NextPass(w), o, n, passes, fixedRate, pass + 1, 0, false);
    }
  }

  lemma ProvisionStepTells(gone: Pods, base: seq<Call>, l: Local, cfg: JobConfig, a: PipelineAnswers)
    requires TruthTold(gone, base, l.calls)
    ensures TruthTold(gone, base, ProvisionStep(l, cfg, a).0.calls)
  {
    hide TruthTold, WalkFrom;
    if a.candidates.Some? && a.candidates.value > 0 {
      var w := Walk(l.job, l.log, l.calls, []);
      WalkTells(gone, base, NextPass(w.(job := w.job.(status := Provisioning))), a.oracle, a.candidates.value,
                Passes(cfg.provisionRetries), cfg.rateOverride, 1, 0, false);
    }
  }

  lemma ReleaseOldTells(gone: Pods, base: seq<Call>, l: Local, a: PipelineAnswers)
    requires TruthTold(gone, base, l.calls)
    ensures TruthTold(gone, base, ReleaseOld(l, a).calls)
  {
    if HasPod(l.job) {
      var w := Walk(l.job, l.log, l.calls, []);
      ReleaseTells(gone, base, w, l.job.podId.value, a.oldTornDown);
      assert ReleaseOld(l, a).calls == Release(w, l.job.podId.value, a.oldTornDown).calls;
    }
  }

  /** A whole pipeline tells the truth exactly unless it raises with such a pod in hand. */
  lemma PipelineTellsTruthExactlyWhen(gone: Pods, base: seq<Call>, l: Local, cfg: JobConfig, a: PipelineAnswers,
                                      resume: bool)
    requires TruthTold(gone, base, l.calls)
    ensures TruthTold(gone, base, Pipeline(l, cfg, a, resume).at.calls) <==>
              !PipelineLies(gone, base, l, cfg, a, resume)
  {
    hide TruthTold, KnownGone, Fault, AfterProvisioning, DeployFault, ProvisionStep;
    Extends(gone, base, l.calls);
    if resume && l.job.podId.Some? {
      var r := l.(job := Refreshed(l.job.(status := Provisioning), a.address));
      FaultTells(gone, base, r, a);
      DeployTells(gone, base, r, a, false);
    } else {
      ReleaseOldTells(gone, base, l, a);
      var s := if IsReuse(l, cfg) then l else ReleaseOld(l, a);
      var (p, e) := ProvisionStep(s, cfg, a);
      ProvisionStepTells(gone, base, s, cfg, a);
      Extends(gone, base, p.calls);
      FaultTells(gone, base, p, a);
      DeployTells(gone, base, p, a, !IsReuse(l, cfg));
    }
  }

  /** It happens: a pod that does not answer is torn down, nobody verifies it, and the registry
      calls it terminated. */
  lemma PipelineCanLie(l: Local, cfg: JobConfig, a: PipelineAnswers)
    requires HasPod(l.job) && a.wait.Down? && !a.tornDown
    ensures !TruthTold(iset{}, l.calls, Pipeline(l, cfg, a, true).at.calls)
  {
    hide Pipeline;
    PipelineTellsTruthExactlyWhen(iset{}, l.calls, l, cfg, a, true);
  }

  // ---- the monitor's steps ----

  /** What the provider's "gone" says. */
  function SaidGone(l: Local, existence: Tri): Pods {
    if HasPod(l.job) && existence == No then iset{l.job.podId.value} else iset{}
  }

  /** A pipeline that a step of the monitor starts: from which state, with which answers, and
      whether on a pod that is there. */
  datatype Started = Started(from: Local, answers: PipelineAnswers, resume: bool)

  /** Recovery, once the confirmations are complete, unless it gives up or is interrupted. */
  function RecoveryOf(l: Local, cfg: JobConfig, sign: Sign, a: RecoverAnswers): Option<Started> {
    var c := l.(job := l.job.(gone := l.job.gone + 1));
    if sign == SawGone && c.job.gone >= Confirmations(cfg) && AttemptsLeft(l.job, cfg) && !a.interrupted then
      var b := BeforeRetry(c, cfg, a.tornDown);
      Some(Started(b.(job := Podless(b.job)), a.pipeline, false))
    else None
  }

  /** A job persisted mid-flight is resumed, unless nobody can tell whether its pod is there. */
  function ResumptionOf(l: Local, a: ResumeAnswers): Option<Started> {
    if HasPod(l.job) && a.existence == Unknown then None
    else Some(Started(if HasPod(l.job) && a.existence == No then LosePod(l) else l, a.pipeline, true))
  }

  /** The pod the provider says is gone while the monitor is at this job. */
  function GoneSaid(l: Local, cfg: JobConfig, a: JobAnswer): Pods {
    if !a.Regular? then iset{}
    else if l.job.status != Running then SaidGone(l, a.resume.existence)
    else if SignOf(l, cfg, a.tick) == SawGone then SaidGone(l, No)
    else iset{}
  }

  function PipelineOf(l: Local, cfg: JobConfig, a: JobAnswer): Option<Started> {
    if !a.Regular? then None
    else if l.job.status != Running then ResumptionOf(Accrue(l, a.resume.accrueAt), a.resume)
    else RecoveryOf(Accrue(l, a.tick.accrueAt), cfg, SignOf(l, cfg, a.tick), a.tick.recover)
  }

  /** The pipeline that the step starts, if any, raises with a pod in hand not known to be
      gone. */
  ghost predicate StepLies(gone: Pods, base: seq<Call>, s: Option<Started>, cfg: JobConfig) {
    s.Some? && PipelineLies(gone, base, s.value.from, cfg, s.value.answers, s.value.resume)
  }

  lemma BeforeRetryTells(gone: Pods, base: seq<Call>, l: Local, cfg: JobConfig, tornDown: bool)
    requires TruthTold(gone, base, l.calls) && (HasPod(l.job) ==> l.job.podId.value in gone)
    ensures TruthTold(gone, base, BeforeRetry(l, cfg, tornDown).calls)
  {
    hide TruthTold;
    Extends(gone, base, l.calls);
    if HasPod(l.job) {
      TellsTeardown(gone, base, l.calls, l.job.name, l.job.podId.value, tornDown);
    }
    var r := ReleaseDead(l, tornDown).calls;
    assert r == l.calls + if HasPod(l.job) then
                            [Teardown(l.job.name, l.job.podId.value, tornDown), MarkRegistry(l.job.podId.value, true)]
                          else [];
    TellsOne(gone, base, r, Backoff(l.job.name, BackoffSeconds(cfg, l.job.attempts)));
  }

  lemma RecoverTells(gone: Pods, l: Local, cfg: JobConfig, a: RecoverAnswers)
    requires HasPod(l.job) ==> l.job.podId.value in gone
    ensures var b := BeforeRetry(l, cfg, a.tornDown);
      TruthTold(gone, l.calls, Recover(l, cfg, a).at.calls) <==>
        !(AttemptsLeft(l.job, cfg) && !a.interrupted &&
          PipelineLies(gone, l.calls, b.(job := Podless(b.job)), cfg, a.pipeline, false))
  {
    hide Pipeline, BeforeRetry, PipelineLies;
    BeforeRetryTells(gone, l.calls, l, cfg, a.tornDown);
    if AttemptsLeft(l.job, cfg) && !a.interrupted {
      var b := BeforeRetry(l, cfg, a.tornDown);
      PipelineTellsTruthExactlyWhen(gone, l.calls, b.(job := Podless(b.job)), cfg, a.pipeline, false);
    }
  }

  lemma NothingSaid(gone: Pods, calls: seq<Call>)
    ensures TruthTold(gone, calls, calls)
  {
  }

  lemma LaunchTells(gone: Pods, l: Local, pid: Option<int>, tornDown: bool, now: real)
    ensures TruthTold(gone, l.calls, Launch(l, pid, tornDown, now).at.calls)
  {
  }

  lemma GoneTells(gone: Pods, l: Local, cfg: JobConfig, existence: Tri, a: RecoverAnswers)
    requires existence != Yes && (existence == No && HasPod(l.job) ==> l.job.podId.value in gone)
    ensures TruthTold(gone, l.calls, TickGone(l, cfg, existence, a).at.calls) <==>
              !StepLies(gone, l.calls, RecoveryOf(l, cfg, Answered(existence), a), cfg)
  {
    hide Recover, PipelineLies, BeforeRetry, TruthTold;
    NothingSaid(gone, l.calls);
    if existence == No {
      RecoverTells(gone, l.(job := l.job.(gone := l.job.gone + 1)), cfg, a);
    }
  }

  lemma RunningTells(gone: Pods, l: Local, cfg: JobConfig, a: TickAnswers)
    ensures TruthTold(gone, l.calls, TickRunning(l, cfg, a).at.calls)
  {
    hide TruthTold, Finish;
    NothingSaid(gone, l.calls);
    FinishTellsTruth(gone, l.calls, l.(job := l.job.(idleSince := None, gone := 0)), cfg, Failed, false, a.finish);
  }

  lemma VanishedTells(gone: Pods, l: Local, cfg: JobConfig, a: TickAnswers)
    requires HasPod(l.job) && a.existence == No ==> l.job.podId.value in gone
    ensures TruthTold(gone, l.calls, TickVanished(l, cfg, a).at.calls) <==>
              !StepLies(gone, l.calls, RecoveryOf(l, cfg, Answered(if HasPod(l.job) then a.existence else No),
                                                  a.recover), cfg)
  {
    hide TruthTold, Finish, TickGone, PipelineLies, BeforeRetry;
    NothingSaid(gone, l.calls);
    FinishTellsTruth(gone, l.calls, l.(job := l.job.(gone := 0)), cfg, Completed, false, a.finish);
    var existence := if HasPod(l.job) then a.existence else No;
    if existence != Yes {
      GoneTells(gone, l, cfg, existence, a.recover);
    }
  }

  lemma NoAnswerTells(gone: Pods, l: Local, cfg: JobConfig, a: TickAnswers)
    requires HasPod(l.job) && a.existence == No ==> l.job.podId.value in gone
    ensures TruthTold(gone, l.calls, TickNoAnswer(l, cfg, a).at.calls) <==>
              !StepLies(gone, l.calls, RecoveryOf(l, cfg, Answered(if HasPod(l.job) then a.existence else Unknown),
                                                  a.recover), cfg)
  {
    hide TruthTold, Launch, TickGone, PipelineLies, BeforeRetry;
    NothingSaid(gone, l.calls);
    LaunchTells(gone, l.(job := l.job.(gone := 0)), a.launched, a.launchTornDown, a.now);
    var existence := if HasPod(l.job) then a.existence else Unknown;
    if existence != Yes {
      GoneTells(gone, l, cfg, existence, a.recover);
    }
  }

  lemma TickTells(l0: Local, cfg: JobConfig, a: TickAnswers)
    requires l0.job.status == Running
    ensures var gone := if SignOf(l0, cfg, a) == SawGone then SaidGone(l0, No) else iset{};
      TruthTold(gone, l0.calls, Tick(l0, cfg, a).at.calls) <==>
        !StepLies(gone, l0.calls, RecoveryOf(Accrue(l0, a.accrueAt), cfg, SignOf(l0, cfg, a), a.recover), cfg)
  {
    hide TruthTold, Finish, TickRunning, TickVanished, TickNoAnswer, PipelineLies, BeforeRetry;
    var l := Accrue(l0, a.accrueAt);
    var gone := if SignOf(l0, cfg, a) == SawGone then SaidGone(l0, No) else iset{};
    NothingSaid(gone, l.calls);
    if OverBudget(l.job, cfg) {
      FinishTellsTruth(gone, l.calls, l, cfg, Failed, true, a.finish);
    } else {
      match Observed(l.job, a.process)
      case ExitedWith(code) =>
        FinishTellsTruth(gone, l.calls, l.(job := l.job.(exitCode := Some(code))), cfg,
                         ExitOutcome(code), false, a.finish);
      case StillRunning => RunningTells(gone, l, cfg, a);
      case Vanished => VanishedTells(gone, l, cfg, a);
      case NoAnswer => NoAnswerTells(gone, l, cfg, a);
    }
  }

  lemma ResumeTells(l0: Local, cfg: JobConfig, a: ResumeAnswers)
    ensures var gone := SaidGone(l0, a.existence);
      TruthTold(gone, l0.calls, Resume(l0, cfg, a).at.calls) <==>
        !StepLies(gone, l0.calls, ResumptionOf(Accrue(l0, a.accrueAt), a), cfg)
  {
    hide TruthTold, Pipeline, PipelineLies;
    var gone := SaidGone(l0, a.existence);
    var l := Accrue(l0, a.accrueAt);
    NothingSaid(gone, l.calls);
    if HasPod(l.job) && a.existence == No {
      TellsOne(gone, l.calls, l.calls, MarkRegistry(l.job.podId.value, true));
    }
    var s := ResumptionOf(l, a);
    if s.Some? {
      PipelineTellsTruthExactlyWhen(gone, l.calls, s.value.from, cfg, a.pipeline, true);
    }
  }

  /** A step of the monitor tells the truth exactly unless the pipeline it starts raises with a
      pod in hand whose teardown is not verified. */
  lemma MonitorTellsTruthExactlyWhen(l: Local, cfg: JobConfig, a: JobAnswer)
    requires Active(l.job.status)
    ensures TruthTold(GoneSaid(l, cfg, a), l.calls, Monitor(l, cfg, a).at.calls) <==>
              !StepLies(GoneSaid(l, cfg, a), l.calls, PipelineOf(l, cfg, a), cfg)
  {
    hide TruthTold, Tick, Resume, Finish, StepLies, SignOf, Partly;
    match a
    case Regular(tick, resume) =>
      if l.job.status == Running {
        TickTells(l, cfg, tick);
      } else {
        ResumeTells(l, cfg, resume);
      }
    case Transient(at, reached) => PartlySays(l, cfg, at, reached);
    case StoppedBy(at, reached) => PartlySays(l, cfg, at, reached);
    case Unexpected(at, reached, finish, raises) =>
      PartlySays(l, cfg, at, reached);
      FinishTellsTruth(iset{}, l.calls, Partly(Accrue(l, at), cfg, reached), cfg, Failed, false, finish);
  }

  lemma PartlySays(l: Local, cfg: JobConfig, at: real, reached: Reached)
    ensures Partly(Accrue(l, at), cfg, reached).calls == l.calls && TruthTold(iset{}, l.calls, l.calls)
    ensures forall cfg :: !StepLies(iset{}, l.calls, None, cfg)
  {
    PartlyIsStep(l, cfg, at, reached);
  }

  // ---- reconciling ----

  /** The pods that the provider says are gone while a listing is reconciled. */
  ghost function GoneInListing(listed: seq<R.Listed>, a: R.Answers): Pods {
    iset id, k: nat | k < |listed| && a.existence(k, id) == No :: id
  }

  lemma OneTells(gone: Pods, base: seq<Call>, v: Run, configs: R.Configs, runId: string, e: R.Listed,
                 existence: PodId -> Tri, ok: bool, now: real)
    requires TruthTold(gone, base, v.calls) && forall id :: existence(id) == No ==> id in gone
    ensures TruthTold(gone, base, R.One(v, configs, runId, e, existence, ok, now).calls)
  {
    hide TruthTold, KnownGone;
    Extends(gone, base, v.calls);
    var id := e.instance.id;
    var torn := Teardown(Name(e.instance.name), id, ok);
    TellsOne(gone, base, v.calls, torn);
    TornDownKnown(gone, base, v.calls, Name(e.instance.name), id, ok);
    TellsOne(gone, base, v.calls + [torn], MarkRegistry(id, ok));
    assert v.calls + [torn] + [MarkRegistry(id, ok)] == v.calls + [torn, MarkRegistry(id, ok)];
    TellsOne(gone, base, v.calls, Register(id));
    forall pod
      ensures v.calls + [MarkRegistry(pod, true), Register(id)] == v.calls + [MarkRegistry(pod, true)] + [Register(id)]
    {
    }
    forall pod | pod in gone ensures TruthTold(gone, base, v.calls + [MarkRegistry(pod, true)] + [Register(id)]) {
      TellsOne(gone, base, v.calls, MarkRegistry(pod, true));
      TellsOne(gone, base, v.calls + [MarkRegistry(pod, true)], Register(id));
      SaidIsKnown(gone, base, v.calls, pod);
    }
  }

  lemma {:induction false} FromTells(gone: Pods, base: seq<Call>, v: Run, configs: R.Configs, runId: string,
                                     listed: seq<R.Listed>, a: R.Answers, k: nat)
    requires TruthTold(gone, base, v.calls) && k <= |listed| && gone == GoneInListing(listed, a)
    ensures TruthTold(gone, base, R.From(v, configs, runId, listed, a, k).calls)
    decreases |listed| - k
  {
    hide TruthTold, R.One;
    if k < |listed| {
      var existence := id => a.existence(k, id);
      OneTells(gone, base, v, configs, runId, listed[k], existence, a.tornDown(k), a.now(k));
      FromTells(gone, base, R.One(v, configs, runId, listed[k], existence, a.tornDown(k), a.now(k)), configs, runId,
                listed, a, k + 1);
    }
  }

  /** Reconciling always tells the truth. */
  lemma ReconcileTellsTruth(v: Run, configs: R.Configs, runId: string, listed: seq<R.Listed>, a: R.Answers)
    ensures TruthTold(GoneInListing(listed, a), v.calls, R.All(v, configs, runId, listed, a).calls)
  {
    FromTells(GoneInListing(listed, a), v.calls, v, configs, runId, listed, a, 0);
  }
}
