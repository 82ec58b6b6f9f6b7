/** What provisioning, deploying and launching come to, read off the configuration and the
    answers alone. */
module PipelineDecisions {
  import opened Base
  import opened State
  import opened Provisioner
  import opened JobSteps
  import opened JobFacts
  import D = Decisions

  // ---- deploying and launching ----

  /** Everything from the registration of the pod to the launch succeeds. */
  predicate Starts(a: PipelineAnswers) {
    && !a.faultBeforeDeploy && !a.stopBeforeDeploy && a.deploy.Deployed? && !a.stopBeforeLaunch
    && a.launch.LaunchReturned? && a.launch.pid.Some?
  }

  /** A shutdown comes before something else goes wrong. */
  predicate StopsShort(a: PipelineAnswers) {
    !a.faultBeforeDeploy && (a.stopBeforeDeploy || (a.deploy.Deployed? && a.stopBeforeLaunch))
  }

  /** Something raises, rather than fails. */
  predicate Raises(a: PipelineAnswers) {
    a.faultBeforeDeploy || a.deploy.DeployRaised? || (a.deploy.Deployed? && a.launch.LaunchRaised?)
  }

  function Finished(j: Job, now: real): Job {
    j.(status := Failed,
       finishedAt := if IsSet(j.startedAt) && j.finishedAt.None? then Some(now) else j.finishedAt)
  }

  /** Failing terminates the pod; only after an exception is the registry told. */
  function Given(l: Local, tornDown: bool, raised: bool): seq<Call> {
    if l.job.podId.None? || l.job.podId.value.text == "" then []
    else [Teardown(l.job.name, l.job.podId.value, tornDown)] +
         if raised then [MarkRegistry(l.job.podId.value, true)] else []
  }

  lemma LaunchDecides(l: Local, pid: Option<int>, tornDown: bool, now: real)
    ensures Launch(l, pid, tornDown, now) ==
              if pid.None? then Outcome(Local(Finished(l.job, now), l.total, l.log,
                                              l.calls + Given(l, tornDown, false)), true)
              else
                Outcome(l.(job := l.job.(status := Running, pid := pid, exitCode := None, lastSyncAt := Some(now),
                                         startedAt := if IsSet(l.job.startedAt) then l.job.startedAt else Some(now))),
                        false)
  {
    assert l.calls + [] == l.calls;
  }

  lemma RegisteredIs(l: Local, isNew: bool)
    ensures Registered(l, isNew) ==
              l.(calls := l.calls + if l.job.podId.None? then []
                                    else if isNew then [Register(l.job.podId.value)]
                                    else [MarkRegistry(l.job.podId.value, false)])
  {
    assert l.calls + [] == l.calls;
  }

  /** With the pod there, the job runs exactly when all of that succeeds; a shutdown leaves it
      where it was; anything else fails it and terminates the pod. The pod is registered when it
      is new, and updated when it was there before. */
  lemma DeployDecides(l: Local, a: PipelineAnswers, isNew: bool)
    ensures var o := AfterProvisioning(l, a, isNew);
      var told := if l.job.podId.None? || a.faultBeforeDeploy then []
                  else if isNew then [Register(l.job.podId.value)] else [MarkRegistry(l.job.podId.value, false)];
      if Starts(a) then
        o.at.calls == l.calls + told && o.at.log == l.log && !o.spread &&
        o.at.job == l.job.(status := Running, pid := a.launch.pid, exitCode := None, lastSyncAt := Some(a.now),
                           startedAt := if IsSet(l.job.startedAt) then l.job.startedAt else Some(a.now))
      else if StopsShort(a) then
        o == Outcome(l.(job := l.job.(status := if a.stopBeforeDeploy then l.job.status else Deploying),
                        calls := l.calls + told), false)
      else
        o == Outcome(l.(job := Finished(l.job, a.now), calls := l.calls + told + Given(l, a.tornDown, Raises(a))), true)
  {
    hide Registered;
    RegisteredIs(l, isNew);
    var r := Registered(l, isNew);
    assert r.calls + [] == r.calls && l.calls + [] == l.calls;
  }

  // ---- provisioning ----

  /** An instance that is created is recorded and registered at once, with its own price or the
      fixed one; its start is logged, and a release nobody verified is logged as well. A job
      that gives up a pod forgets its address too. */
  lemma AttemptRecords(w: Walk, a: Answer, fixedRate: real)
    requires a.Created?
    ensures var w' := Attempt(w, a, fixedRate).0;
      var rate := if fixedRate > 0.0 then fixedRate else a.price;
      var up := w.job.(podId := Some(a.pod), ssh := None, rate := rate, startedAt := Some(a.at),
                       status := Provisioning);
      var released := a.next.NoSshInfo? || a.next.NeverReady? || a.next.KeyRejected?;
      && w'.calls == w.calls + [Create(w.job.name, a.pod)] +
                     (if a.next.CallbackRaised? then [] else [Register(a.pod)]) +
                     (if released || a.next.ReleaseRaised? then [Teardown(w.job.name, a.pod, a.next.terminated)]
                      else []) +
                     (if released && a.next.terminated then [MarkRegistry(a.pod, true)] else [])
      && w'.log == w.log + (if a.next.CallbackRaised? then [] else [PodStarted(w.job.name, a.pod)]) +
                   (if released && !a.next.terminated then [PodOrphaned(w.job.name, a.pod)] else [])
      && w'.job == if a.next.Reachable? then up.(ssh := Some(a.next.endpoint))
                   else if released && a.pod.text != "" then
                     up.(podId := None, ssh := None, status := if a.next.KeyRejected? then Failed else Provisioning)
                   else up.(status := if a.next.KeyRejected? then Failed else Provisioning)
  {
    assert forall log: seq<CostEvent> :: log + [] == log;
    assert forall calls: seq<Call> :: calls + [] == calls;
    assert forall calls: seq<Call>, c: Call, d: Call :: calls + [c, d] == calls + [c] + [d];
  }

  /** Without an instance the walk calls and logs nothing; a candidate that is refused costs
      the job the pod it had. */
  lemma AttemptWithout(w: Walk, a: Answer, fixedRate: real)
    requires !a.Created?
    ensures var w' := Attempt(w, a, fixedRate).0;
      && w'.calls == w.calls && w'.log == w.log
      && w'.job == if a.Refused? && w.job.podId.Some? && w.job.podId.value.text != ""
                   then w.job.(podId := None, ssh := None) else w.job
  {
  }

  /** The pod a job has been given: that of the last attempt, reachable, at its price. */
  ghost predicate GivenPod(j: Job, tries: seq<(nat, nat)>, o: Oracle, fixedRate: real) {
    && tries != []
    && var a := o.answer(tries[|tries| - 1].0, tries[|tries| - 1].1);
    && a.Created? && a.next.Reachable?
    && j.status == Provisioning && j.podId == Some(a.pod) && j.ssh == Some(a.next.endpoint) && j.startedAt == Some(a.at)
    && j.rate == if fixedRate > 0.0 then fixedRate else a.price
  }

  lemma {:induction false} WalkGives(w: Walk, o: Oracle, n: nat, passes: nat, fixedRate: real,
                                     pass: nat, cand: nat, noCapacity: bool)
    requires pass <= passes && cand <= n
    ensures var (w', e) := WalkFrom(w, o, n, passes, fixedRate, pass, cand, noCapacity);
      e.Tracked? ==> GivenPod(w'.job, w'.tries, o, fixedRate)
    decreases passes - pass, n - cand
  {
    if cand < n {
      var a := o.answer(pass, cand);
      var (w', v) := Attempt(Noted(w, pass, cand), a, fixedRate);
      AttemptKeeps(Noted(w, pass, cand), a, fixedRate);
      if !v.Stop? {
        WalkGives(w', o, n, passes, fixedRate, pass, cand + 1, noCapacity || v.NextNoCapacity?);
      } else if v.end.Tracked? {
        AttemptRecords(Noted(w, pass, cand), a, fixedRate);
      }
    } else if noCapacity && pass < passes && !o.stopAfter(pass) {
      WalkGives(NextPass(w), o, n, passes, fixedRate, pass + 1, 0, false);
    }
  }

  // ---- the whole pipeline ----

  /** The pod of an earlier attempt is terminated first, unless pods are kept alive. */
  function FirstCalls(l: Local, cfg: JobConfig, a: PipelineAnswers): seq<Call> {
    if l.job.podId.None? || l.job.podId.value.text == "" || cfg.keepPodAlive then l.calls
    else l.calls + [Teardown(l.job.name, l.job.podId.value, a.oldTornDown)] +
         if a.oldTornDown then [MarkRegistry(l.job.podId.value, true)] else []
  }

  /** Provisioning from where the job stands. */
  ghost function ProvisionedFrom(l: Local, cfg: JobConfig, a: PipelineAnswers): (Walk, End) {
    Provision(Walk(l.job, l.log, FirstCalls(l, cfg, a), []), a.oracle, a.candidates, cfg.provisionRetries,
              cfg.rateOverride)
  }

  /** Resuming a job that has a pod: it takes the provider's address, if there is one, and goes
      on from there once the pod answers; it fails, and gives up the pod, if there is no address
      or no answer. */
  lemma ResumeDecides(l: Local, cfg: JobConfig, a: PipelineAnswers)
    requires l.job.podId.Some?
    ensures var address := if HasPod(l.job) && a.address.Some? then a.address else l.job.ssh;
      var here := l.(job := l.job.(status := Provisioning, ssh := address));
      Pipeline(l, cfg, a, true) ==
        if here.job.ssh.None? || a.wait.Down?
        then Outcome(here.(job := Finished(here.job, a.now), calls := l.calls + Given(l, a.tornDown, true)), true)
        else if a.wait.WaitInterrupted? then Outcome(here, false)
        else AfterProvisioning(here, a, false)
  {
    hide AfterProvisioning;
  }

  /** A kept-alive pod that is there is reused, at the provider's address. */
  lemma ReuseDecides(l: Local, cfg: JobConfig, a: PipelineAnswers)
    requires HasPod(l.job) && cfg.keepPodAlive && a.reuseExists == Yes
    ensures var here := l.(job := l.job.(ssh := if a.address.Some? then a.address else l.job.ssh));
      Pipeline(l, cfg, a, false) == AfterProvisioning(here, a, false)
  {
    hide AfterProvisioning;
  }

  lemma FirstCallsAre(l: Local, cfg: JobConfig, a: PipelineAnswers)
    ensures (if IsReuse(l, cfg) then l else ReleaseOld(l, a)) == l.(calls := FirstCalls(l, cfg, a))
  {
    assert forall c: seq<Call>, d: Call, e: seq<Call> :: c + ([d] + e) == c + [d] + e;
  }

  /** Any other job is provisioned; what that leads to goes on, fails, or stops. */
  lemma ProvisionDecides(l: Local, cfg: JobConfig, a: PipelineAnswers, resume: bool)
    requires !(resume && l.job.podId.Some?) && !(cfg.keepPodAlive && HasPod(l.job) && a.reuseExists == Yes)
    ensures var (w, e) := ProvisionedFrom(l, cfg, a);
      var p := Local(w.job, l.total, w.log, w.calls);
      Pipeline(l, cfg, a, resume) ==
        match e
        case Tracked => AfterProvisioning(p, a, !(cfg.keepPodAlive && l.job.podId.Some?))
        case StoppedEarly => Outcome(p, false)
        case Raised => Outcome(p.(job := Finished(p.job, a.now), calls := p.calls + Given(p, a.tornDown, true)), true)
        case _ => Outcome(p.(job := Finished(p.job, a.now)), true)
  {
    hide AfterProvisioning, Provision, FirstCalls, ReleaseOld;
    FirstCallsAre(l, cfg, a);
    ProvisionFacts(Walk(l.job, l.log, FirstCalls(l, cfg, a), []), a.oracle, a.candidates, cfg.provisionRetries,
                   cfg.rateOverride);
  }

  /** Whether the job has a pod to run on: the one it resumes on answers, the one it kept alive
      is there, or provisioning yields one. */
  ghost predicate GetsPod(l: Local, cfg: JobConfig, a: PipelineAnswers, resume: bool) {
    if resume && l.job.podId.Some? then a.wait.Up? && (l.job.ssh.Some? || (HasPod(l.job) && a.address.Some?))
    else if cfg.keepPodAlive && HasPod(l.job) && a.reuseExists == Yes then true
    else ProvisionedFrom(l, cfg, a).1.Tracked?
  }

  /** A pipeline ends with its job running exactly when it gets a pod and everything up to the
      launch succeeds; the job then has the pid, and the pod and the address, that it was
      given. */
  lemma RunsExactlyWhen(l: Local, cfg: JobConfig, a: PipelineAnswers, resume: bool)
    requires l.job.status in {Pending, Provisioning, Deploying} || !HasPod(l.job)
    ensures var j := Pipeline(l, cfg, a, resume).at.job;
      && (j.status == Running <==> GetsPod(l, cfg, a, resume) && Starts(a))
      && (j.status == Running ==>
            && j.pid == a.launch.pid && j.exitCode == None && j.lastSyncAt == Some(a.now) && j.startedAt.Some?
            && if (resume && l.job.podId.Some?) || (cfg.keepPodAlive && HasPod(l.job) && a.reuseExists == Yes)
               then j.podId == l.job.podId && j.ssh == if HasPod(l.job) && a.address.Some? then a.address else l.job.ssh
               else
                 var given := ProvisionedFrom(l, cfg, a).0.job;
                 j.podId == given.podId && j.ssh == given.ssh && j.rate == given.rate)
  {
    hide Pipeline, ProvisionedFrom, AfterProvisioning, Given;
    if resume && l.job.podId.Some? {
      ResumeDecides(l, cfg, a);
      var address := if HasPod(l.job) && a.address.Some? then a.address else l.job.ssh;
      DeployDecides(l.(job := l.job.(status := Provisioning, ssh := address)), a, false);
    } else if cfg.keepPodAlive && HasPod(l.job) && a.reuseExists == Yes {
      var here := l.(job := l.job.(ssh := if a.address.Some? then a.address else l.job.ssh));
      ReuseDecides(l, cfg, a);
      DeployDecides(here, a, false);
    } else {
      ProvisionDecides(l, cfg, a, resume);
      var (w, e) := ProvisionedFrom(l, cfg, a);
      NotRunningYet(l, cfg, a);
      DeployDecides(Local(w.job, l.total, w.log, w.calls), a, !(cfg.keepPodAlive && l.job.podId.Some?));
    }
  }

  lemma NotRunningYet(l: Local, cfg: JobConfig, a: PipelineAnswers)
    ensures ProvisionedFrom(l, cfg, a).0.job.status in {Provisioning, Failed}
  {
    hide Provision;
    ProvisionFacts(Walk(l.job, l.log, FirstCalls(l, cfg, a), []), a.oracle, a.candidates, cfg.provisionRetries,
                   cfg.rateOverride);
  }

  /** What provisioning gives is the pod of its last attempt. */
  lemma ProvisioningGives(l: Local, cfg: JobConfig, a: PipelineAnswers)
    requires ProvisionedFrom(l, cfg, a).1.Tracked?
    ensures var w := ProvisionedFrom(l, cfg, a).0; GivenPod(w.job, w.tries, a.oracle, cfg.rateOverride)
  {
    hide WalkFrom;
    var w := Walk(l.job, l.log, FirstCalls(l, cfg, a), []);
    WalkGives(NextPass(w.(job := w.job.(status := Provisioning))), a.oracle, a.candidates.value,
              Passes(cfg.provisionRetries), cfg.rateOverride, 1, 0, false);
  }

  // ---- jobs persisted mid-flight, and exceptions ----

  /** A job persisted mid-flight is billed; then it waits if nobody can tell whether its pod is
      there, drops a pod that is gone, and goes through the pipeline. */
  lemma ResumptionDecides(l: Local, cfg: JobConfig, a: ResumeAnswers)
    ensures var b := Accrue(l, a.accrueAt);
      Resume(l, cfg, a) ==
        if HasPod(l.job) && a.existence == Unknown then Outcome(b, false)
        else if HasPod(l.job) && a.existence == No then
          Pipeline(b.(job := b.job.(podId := None, ssh := None, pid := None),
                      calls := l.calls + [MarkRegistry(l.job.podId.value, true)]), cfg, a.pipeline, true)
        else Pipeline(b, cfg, a.pipeline, true)
  {
    hide Pipeline;
  }

  /** A transient error, or a shutdown, leaves the job where it is; any other exception fails
      it, as a failed finish would; and if even that raises, it just fails. */
  lemma ExceptionDecides(l: Local, cfg: JobConfig, a: JobAnswer)
    requires !a.Regular?
    ensures var o := Monitor(l, cfg, a);
      && (!(a.Unexpected? && !a.finishRaises) ==> o.at.job.cost == Accrued(l.job, a.accrueAt).cost)
      && o.at.job.podId == l.job.podId && o.spread == a.Unexpected?
      && o.at.job.status == (if !a.Unexpected? then l.job.status
                             else if !a.finishRaises &&
                               D.KeptForResults(l, cfg, Failed, false, a.finish) then SyncFailed
                             else Failed)
      && (!(a.Unexpected? && !a.finishRaises) ==> o.at.calls == l.calls && o.at.log == l.log)
      && (a.Unexpected? && a.finishRaises && IsSet(l.job.startedAt) && l.job.finishedAt.None? ==>
            o.at.job.finishedAt == Some(a.finish.now))
  {
    hide Finish, Partly;
    var p := Partly(Accrue(l, a.accrueAt), cfg, a.reached);
    PartlyKeeps(l, cfg, a.accrueAt, a.reached);
    if a.Unexpected? {
      D.FinishDecides(p, cfg, Failed, false, a.finish);
      FinishFacts(p, cfg, Failed, false, a.finish);
    }
  }

  lemma PartlyKeeps(l: Local, cfg: JobConfig, at: real, reached: Reached)
    ensures var p := Partly(Accrue(l, at), cfg, reached);
      && p.job.status == l.job.status && p.job.podId == l.job.podId && p.job.ssh == l.job.ssh
      && p.job.cost == Accrued(l.job, at).cost && p.calls == l.calls && p.log == l.log
      && p.job.startedAt == l.job.startedAt && p.job.finishedAt == l.job.finishedAt
  {
  }
}
