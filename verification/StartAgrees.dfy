/** The start phase runs its pipelines in parallel threads. Whatever the interleaving, the
    statuses come out as if the pipelines had run one after the other. */
module StartAgrees {
  import opened State
  import opened Propagation
  import opened Scheduler
  import opened Scan
  import opened Provisioner
  import opened JobSteps
  import opened JobFacts
  import opened Lifecycle
  import opened RunFacts
  import P = ParallelStart
  import T = StartTerminates

  // ---- a pipeline depends on nothing but its own job ----

  lemma {:induction false} WalkJobOnly(w: Walk, u: Walk, o: Oracle, n: nat, passes: nat, fixedRate: real,
                                       pass: nat, cand: nat, noCapacity: bool)
    requires w.job == u.job && pass <= passes && cand <= n
    ensures var (w', e) := WalkFrom(w, o, n, passes, fixedRate, pass, cand, noCapacity);
      var (u', f) := WalkFrom(u, o, n, passes, fixedRate, pass, cand, noCapacity);
      w'.job == u'.job && e == f
    decreases passes - pass, n - cand
  {
    if cand < n {
      var (w', v) := Attempt(Noted(w, pass, cand), o.answer(pass, cand), fixedRate);
      var (u', x) := Attempt(Noted(u, pass, cand), o.answer(pass, cand), fixedRate);
      assert w'.job == u'.job && v == x;
      if !v.Stop? {
        WalkJobOnly(w', u', o, n, passes, fixedRate, pass, cand + 1, noCapacity || v.NextNoCapacity?);
      }
    } else if noCapacity && pass < passes && !o.stopAfter(pass) {
      WalkJobOnly(NextPass(w), NextPass(u), o, n, passes, fixedRate, pass + 1, 0, false);
    }
  }

  lemma ProvisionStepJobOnly(l: Local, m: Local, cfg: JobConfig, a: PipelineAnswers)
    requires l.job == m.job
    ensures var (p, e) := ProvisionStep(l, cfg, a);
      var (q, f) := ProvisionStep(m, cfg, a);
      p.job == q.job && e == f
  {
    var w, u := Walk(l.job, l.log, l.calls, []), Walk(m.job, m.log, m.calls, []);
    if a.candidates.Some? && a.candidates.value > 0 {
      WalkJobOnly(NextPass(w.(job := w.job.(status := Provisioning))),
                  NextPass(u.(job := u.job.(status := Provisioning))),
                  a.oracle, a.candidates.value, Passes(cfg.provisionRetries), cfg.rateOverride, 1, 0, false);
    }
  }

  lemma ProvisionedJobOnly(p: Local, q: Local, end: End, a: PipelineAnswers, isNew: bool)
    requires p.job == q.job
    ensures var o, x := Provisioned(p, end, a, isNew), Provisioned(q, end, a, isNew);
      o.at.job == x.at.job && o.spread == x.spread
  {
    hide Fault, DeployAndLaunch;
    FaultJobOnly(p, q, a);
    DeployJobOnly(Registered(p, isNew), Registered(q, isNew), a);
  }

  lemma FaultJobOnly(p: Local, q: Local, a: PipelineAnswers)
    requires p.job == q.job
    ensures Fault(p, a).at.job == Fault(q, a).at.job && Fault(p, a).spread == Fault(q, a).spread
  {
  }

  lemma DeployJobOnly(p: Local, q: Local, a: PipelineAnswers)
    requires p.job == q.job
    ensures var o, x := DeployAndLaunch(p, a), DeployAndLaunch(q, a);
      o.at.job == x.at.job && o.spread == x.spread
  {
  }

  lemma ResumeJobOnly(l: Local, m: Local, a: PipelineAnswers)
    requires l.job == m.job
    ensures var o, x := ResumeOnPod(l, a), ResumeOnPod(m, a);
      o.at.job == x.at.job && o.spread == x.spread
  {
    hide Fault, DeployAndLaunch;
    var j := Refreshed(l.job.(status := Provisioning), a.address);
    var p, q := l.(job := j), m.(job := j);
    FaultJobOnly(p, q, a);
    DeployJobOnly(Registered(p, false), Registered(q, false), a);
  }

  lemma PipelineJobOnly(l: Local, m: Local, cfg: JobConfig, a: PipelineAnswers, resume: bool)
    requires l.job == m.job
    ensures var o, x := Pipeline(l, cfg, a, resume), Pipeline(m, cfg, a, resume);
      o.at.job == x.at.job && o.spread == x.spread
  {
    hide ProvisionStep, Provisioned, ResumeOnPod;
    ResumeJobOnly(l, m, a);
    var ls := if IsReuse(l, cfg) then l else ReleaseOld(l, a);
    var ms := if IsReuse(m, cfg) then m else ReleaseOld(m, a);
    var (p, end) := ProvisionStep(ls, cfg, a);
    ProvisionStepJobOnly(ls, ms, cfg, a);
    ProvisionedJobOnly(p, ProvisionStep(ms, cfg, a).0, end, a, !IsReuse(l, cfg));
  }

  /** Each job as its own pipeline would leave it. */
  ghost function OwnJobs(v: Run, configs: Configs, answer: nat -> PipelineAnswers): (r: seq<Job>)
    ensures |r| == |v.jobs|
    ensures forall i :: 0 <= i < |v.jobs| && v.jobs[i].name in configs ==>
              r[i] == Pipeline(LocalOf(v, i), configs[v.jobs[i].name], answer(i), false).at.job
  {
    seq(|v.jobs|, i requires 0 <= i < |v.jobs| =>
      if v.jobs[i].name in configs then Pipeline(LocalOf(v, i), configs[v.jobs[i].name], answer(i), false).at.job
      else v.jobs[i])
  }

  /** The ready jobs still to come are as they were. */
  ghost predicate Unchanged(v0: Run, v: Run, ready: seq<nat>) {
    && |v0.jobs| == |v.jobs|
    && forall k :: 0 <= k < |ready| ==> ready[k] < |v.jobs| && v.jobs[ready[k]] == v0.jobs[ready[k]]
  }

  lemma StartedAsOwn(configs: Configs, v0: Run, v: Run, i: nat, answer: nat -> PipelineAnswers)
    requires |v0.jobs| == |v.jobs| && i < |v.jobs| && v.jobs[i] == v0.jobs[i]
    requires v.jobs[i].status == Pending && v.jobs[i].name in configs
    ensures var own := OwnJobs(v0, configs, answer)[i];
      && Started(v, configs, i, answer(i)).jobs == Settle(v.jobs, i, own, own.status == Failed)
      && Legal(v.jobs[i], own, own.status == Failed)
  {
    hide Pipeline, Settle, StepKeeps;
    PipelineJobOnly(LocalOf(v, i), LocalOf(v0, i), configs[v.jobs[i].name], answer(i), false);
    PipelineLawful(LocalOf(v, i), configs[v.jobs[i].name], answer(i));
    PipelineFacts(LocalOf(v, i), configs[v.jobs[i].name], answer(i), false);
  }

  lemma {:induction false} InOrderIsSettling(start: Run, configs: Configs, v0: Run, v: Run, ready: seq<nat>,
                                             answer: nat -> PipelineAnswers)
    requires RunInv(start, v) && AllReady(v.jobs, configs.Keys, ready) && Unchanged(v0, v, ready)
    ensures StartInOrder(v, configs, ready, answer).jobs == P.SettleInOrder(v.jobs, ready, OwnJobs(v0, configs, answer))
    decreases |ready|
  {
    hide RunInv, Apply, Settle, DepsCompleted, Legal, Closed, LeavesSettled;
    if ready != [] {
      var i := ready[0];
      assert ReadyToStart(v.jobs, configs.Keys, i);
      StartedAsOwn(configs, v0, v, i, answer);
      StartedKeeps(start, configs, v, ready, answer(i));
      var own := OwnJobs(v0, configs, answer)[i];
      OthersUnchanged(start, configs, v, ready, own);
      InOrderIsSettling(start, configs, v0, Started(v, configs, i, answer(i)), ready[1..], answer);
    }
  }

  lemma OthersUnchanged(start: Run, configs: Configs, v: Run, ready: seq<nat>, own: Job)
    requires RunInv(start, v) && AllReady(v.jobs, configs.Keys, ready) && ready != []
    requires Legal(v.jobs[ready[0]], own, own.status == Failed)
    ensures forall k :: 0 <= k < |ready[1..]| ==>
              Settle(v.jobs, ready[0], own, own.status == Failed)[ready[1..][k]] == v.jobs[ready[1..][k]]
  {
    hide Settle, Legal;
    forall k | 0 <= k < |ready[1..]|
      ensures Settle(v.jobs, ready[0], own, own.status == Failed)[ready[1..][k]] == v.jobs[ready[1..][k]]
    {
      ReadyStays(v.jobs, ready[0], own, own.status == Failed, ready[k + 1]);
    }
  }

  ghost function ReadySet(ready: seq<nat>): set<nat> {
    set i | i in ready
  }

  /** The scripts are possible status histories of these pipelines: each ends where its
      pipeline ends, and only its last status can be failed. */
  ghost predicate Histories(jobs: seq<Job>, own: seq<Job>, ready: seq<nat>, scripts: seq<seq<Status>>) {
    && |scripts| == |jobs| == |own|
    && (forall i :: 0 <= i < |jobs| && i !in ready ==> scripts[i] == [])
    && (forall i :: 0 <= i < |jobs| && i in ready ==> P.OwnFinal(jobs, scripts, i) == own[i].status)
    && forall i, k :: 0 <= i < |jobs| && 0 <= k < |scripts[i]| ==>
         scripts[i][k] in {Provisioning, Deploying, Running} || (scripts[i][k] == Failed && k == |scripts[i]| - 1)
  }

  /** Every interleaving of the pipeline threads that runs to the end leaves the statuses of
      the sequential start phase; in particular no ready job is skipped. */
  lemma ParallelStartAgrees(configs: Configs, v: Run, answer: nat -> PipelineAnswers, scripts: seq<seq<Status>>,
                            schedule: seq<nat>)
    requires UniqueNames(v.jobs)
    requires var (jobs, ready) := ScanFrom(v.jobs, configs.Keys, 0, []);
      && Histories(jobs, OwnJobs(v.(jobs := jobs), configs, answer), ready, scripts)
      && (forall k :: 0 <= k < |schedule| ==> schedule[k] < |jobs|)
      && P.AllDone(P.RunSchedule(jobs, P.Initial(jobs, scripts), schedule))
    ensures var (jobs, ready) := ScanFrom(v.jobs, configs.Keys, 0, []);
      var st := P.RunSchedule(jobs, P.Initial(jobs, scripts), schedule).st;
      var r := Start(v, configs, false, answer).jobs;
      && (forall i :: 0 <= i < |r| ==> st[i] == r[i].status)
      && (forall i :: i in ready ==> st[i] == OwnJobs(v.(jobs := jobs), configs, answer)[i].status)
  {
    hide RunInv, OnlySkips, Closed, LeavesSettled, OutcomesKept, StartInOrder, P.RunSchedule, P.AllDone,
      P.SettleInOrder, Pipeline;
    var (jobs, ready) := ScanFrom(v.jobs, configs.Keys, 0, []);
    Beginning(v);
    ScanKeeps(v, configs, v);
    var s := v.(jobs := jobs);
    var own := OwnJobs(s, configs, answer);
    StartsFromScan(v, configs, s, ready);
    ScriptsFit(v, configs, s, own, ready, scripts, answer);
    InOrderIsSettling(v, configs, s, s, ready, answer);
    P.EveryScheduleAgrees(jobs, ReadySet(ready), scripts, schedule);
    P.SequentialAgrees(jobs, ReadySet(ready), scripts, own, ready);
  }

  /** And every fair schedule of enough rounds does run to the end: the start phase always
      finishes, with those statuses. */
  lemma FairStartAgrees(configs: Configs, v: Run, answer: nat -> PipelineAnswers, scripts: seq<seq<Status>>,
                        rounds: seq<seq<nat>>)
    requires UniqueNames(v.jobs)
    requires var (jobs, ready) := ScanFrom(v.jobs, configs.Keys, 0, []);
      && Histories(jobs, OwnJobs(v.(jobs := jobs), configs, answer), ready, scripts)
      && (forall k :: 0 <= k < |rounds| ==> T.Round(|jobs|, rounds[k]))
      && |rounds| >= T.Measure(P.Initial(jobs, scripts))
    ensures var (jobs, ready) := ScanFrom(v.jobs, configs.Keys, 0, []);
      var r := Start(v, configs, false, answer).jobs;
      && (forall k :: 0 <= k < |T.Flat(rounds)| ==> T.Flat(rounds)[k] < |jobs|)
      && var s := P.RunSchedule(jobs, P.Initial(jobs, scripts), T.Flat(rounds));
      P.AllDone(s) && forall i :: 0 <= i < |r| ==> s.st[i] == r[i].status
  {
    hide RunInv, OnlySkips, Closed, LeavesSettled, OutcomesKept, StartInOrder, P.RunSchedule, P.AllDone,
      P.SettleInOrder, Pipeline,
         T.Round, T.Flat, T.Measure;
    var (jobs, ready) := ScanFrom(v.jobs, configs.Keys, 0, []);
    Beginning(v);
    ScanKeeps(v, configs, v);
    var s := v.(jobs := jobs);
    ScriptsFit(v, configs, s, OwnJobs(s, configs, answer), ready, scripts, answer);
    T.FairSchedulesAgree(jobs, ReadySet(ready), scripts, rounds);
    ParallelStartAgrees(configs, v, answer, scripts, T.Flat(rounds));
  }

  lemma Beginning(v: Run)
    requires UniqueNames(v.jobs)
    ensures RunInv(v, v)
  {
  }

  lemma StartsFromScan(start: Run, configs: Configs, s: Run, ready: seq<nat>)
    requires RunInv(start, s) && AllReady(s.jobs, configs.Keys, ready)
    ensures Unchanged(s, s, ready)
  {
  }

  lemma ScriptsFit(start: Run, configs: Configs, s: Run, own: seq<Job>, ready: seq<nat>, scripts: seq<seq<Status>>,
                   answer: nat -> PipelineAnswers)
    requires RunInv(start, s) && AllReady(s.jobs, configs.Keys, ready) && own == OwnJobs(s, configs, answer)
    requires Histories(s.jobs, own, ready, scripts)
    ensures P.Setup(s.jobs, ReadySet(ready), scripts) && P.Matches(s.jobs, ReadySet(ready), scripts, own)
  {
    hide Pipeline;
    forall i | i in ReadySet(ready)
      ensures i < |s.jobs| && own[i].name == s.jobs[i].name && own[i].dependsOn == s.jobs[i].dependsOn
    {
      assert ReadyToStart(s.jobs, configs.Keys, i);
      StartedAsOwn(configs, s, s, i, answer);
    }
  }
}
