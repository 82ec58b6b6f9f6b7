/** A job whose final sync failed holds up its dependents for good: neither start condition
    nor skip condition ever becomes true of them through it. */
module Waiting {
  import opened Base
  import opened State
  import opened Propagation
  import opened Scheduler
  import opened Scan
  import opened JobSteps
  import opened JobFacts
  import opened Lifecycle
  import opened RunFacts

  /** Job `i` depends on job `q`, whose sync failed, and has not started. */
  ghost predicate HeldUp(jobs: seq<Job>, i: nat, q: nat) {
    && i < |jobs| && q < |jobs|
    && jobs[q].status == SyncFailed && DependsOn(jobs[i], jobs[q].name)
    && jobs[i].status in {Pending, Skipped}
  }

  /** Whether the conditions hold of the job is decided without that dependency: it is never
      ready, and it is skipped exactly for the sake of another one. */
  lemma NeitherMetNorFailed(jobs: seq<Job>, i: nat, q: nat)
    requires UniqueNames(jobs) && HeldUp(jobs, i, q)
    ensures !DepsMet(jobs, jobs[i])
    ensures DepsFailed(jobs, jobs[i]) <==>
              exists d :: d in jobs[i].dependsOn && d != jobs[q].name &&
                StatusOf(jobs, d) in {Some(Failed), Some(Skipped)}
  {
    StatusOfAt(jobs, q);
  }

  lemma StepKeepsHeldUp(v: Run, k: nat, o: Outcome, i: nat, q: nat)
    requires HeldUp(v.jobs, i, q) && k < |v.jobs| && k != i && k != q
    requires Lawful(LocalOf(v, k), o)
    ensures HeldUp(Apply(v, k, o).jobs, i, q)
  {
  }

  lemma MonitoredKeepsHeldUp(configs: Configs, v: Run, a: JobAnswer, k: nat, i: nat, q: nat)
    requires HeldUp(v.jobs, i, q) && k < |v.jobs| && Active(v.jobs[k].status) && v.jobs[k].name in configs
    ensures HeldUp(Monitored(v, configs, a, k).jobs, i, q)
  {
    hide Monitor;
    MonitorFacts(LocalOf(v, k), configs[v.jobs[k].name], a);
    StepKeepsHeldUp(v, k, Monitor(LocalOf(v, k), configs[v.jobs[k].name], a), i, q);
  }

  lemma {:induction false} MonitorKeepsHeldUp(configs: Configs, v: Run, answer: nat -> JobAnswer, k: nat, i: nat,
                                              q: nat)
    requires HeldUp(v.jobs, i, q) && k <= |v.jobs|
    ensures HeldUp(MonitorFrom(v, configs, answer, k).0.jobs, i, q)
    decreases |v.jobs| - k
  {
    if k < |v.jobs| {
      if !Active(v.jobs[k].status) || v.jobs[k].name !in configs {
        MonitorKeepsHeldUp(configs, v, answer, k + 1, i, q);
      } else {
        MonitoredKeepsHeldUp(configs, v, answer(k), k, i, q);
        hide HeldUp, Monitored;
        if !answer(k).StoppedBy? {
          MonitorKeepsHeldUp(configs, Monitored(v, configs, answer(k), k), answer, k + 1, i, q);
        }
      }
    }
  }

  lemma HeldUpNotReady(jobs: seq<Job>, configured: set<Name>, ready: seq<nat>, i: nat, q: nat, k: nat)
    requires UniqueNames(jobs) && HeldUp(jobs, i, q) && AllReady(jobs, configured, ready) && k < |ready|
    ensures ready[k] != i && ready[k] != q
  {
    assert ReadyToStart(jobs, configured, ready[k]);
  }

  lemma {:induction false} StartsKeepHeldUp(start: Run, configs: Configs, v: Run, ready: seq<nat>,
                                            answer: nat -> PipelineAnswers, i: nat, q: nat)
    requires RunInv(start, v) && AllReady(v.jobs, configs.Keys, ready) && HeldUp(v.jobs, i, q)
    ensures HeldUp(StartInOrder(v, configs, ready, answer).jobs, i, q)
    decreases |ready|
  {
    if ready != [] {
      var k := ready[0];
      assert ReadyToStart(v.jobs, configs.Keys, k);
      HeldUpNotReady(v.jobs, configs.Keys, ready, i, q, 0);
      PipelineLawful(LocalOf(v, k), configs[v.jobs[k].name], answer(k));
      StepKeepsHeldUp(v, k, Pipeline(LocalOf(v, k), configs[v.jobs[k].name], answer(k), false), i, q);
      StartedKeeps(start, configs, v, ready, answer(k));
      hide RunInv, HeldUp, AllReady, Apply, Pipeline;
      StartsKeepHeldUp(start, configs, Started(v, configs, k, answer(k)), ready[1..], answer, i, q);
    }
  }

  lemma StartKeepsHeldUp(start: Run, configs: Configs, v: Run, shutdown: bool, answer: nat -> PipelineAnswers, i: nat,
                         q: nat)
    requires RunInv(start, v) && HeldUp(v.jobs, i, q)
    ensures HeldUp(Start(v, configs, shutdown, answer).jobs, i, q)
  {
    if !shutdown {
      ScanKeeps(start, configs, v);
      var (jobs, ready) := ScanFrom(v.jobs, configs.Keys, 0, []);
      SkipAt(v.jobs, jobs, i);
      SkipAt(v.jobs, jobs, q);
      hide RunInv, AllReady, StartInOrder;
      StartsKeepHeldUp(start, configs, v.(jobs := jobs), ready, answer, i, q);
    }
  }

  lemma TickKeepsHeldUp(start: Run, configs: Configs, v: Run, t: TickScript, i: nat, q: nat)
    requires RunInv(start, v) && HeldUp(v.jobs, i, q)
    ensures HeldUp(MonitorTick(v, configs, t).jobs, i, q)
  {
    hide RunInv, HeldUp, Start, MonitorFrom;
    MonitorKeeps(start, configs, v, t.job, 0);
    MonitorKeepsHeldUp(configs, v, t.job, 0, i, q);
    StartKeepsHeldUp(start, configs, MonitorFrom(v, configs, t.job, 0).0, t.shutdownBeforeStart, t.start, i, q);
  }

  /** However long the loop runs, a job that depends on one whose sync failed never starts;
      while it is pending the loop does not end by itself. Only the budget stop, which
      releases the kept pod, ends the wait. */
  lemma {:induction false} WaitsForever(start: Run, configs: Configs, v: Run, budget: real, script: seq<TickScript>,
                                        sleeps: seq<real>, i: nat, q: nat)
    requires RunInv(start, v) && HeldUp(v.jobs, i, q)
    ensures var r := Loop(v, configs, budget, script, sleeps);
      !r.end.BudgetStop? ==> HeldUp(r.v.jobs, i, q) && (r.v.jobs[i].status == Pending ==> r.end != Done)
    decreases |script|
  {
    assert Lifecycle.AllDone(v.jobs) ==> v.jobs[i] in v.jobs && v.jobs[i].status != Pending by {
      assert v.jobs[i] in v.jobs;
    }
    hide RunInv, MonitorTick, TeardownFrom, Lifecycle.AllDone;
    if !Lifecycle.AllDone(v.jobs) && script != [] {
      var m := MonitorTick(v, configs, script[0]);
      TickKeeps(start, configs, v, script[0]);
      TickKeepsHeldUp(start, configs, v, script[0], i, q);
      if !script[0].shutdownAfter && !BudgetReached(m.total, budget) && !script[0].shutdownAsleep {
        WaitsForever(start, configs, m, budget, script[1..], sleeps + [m.total], i, q);
      }
    }
  }
}
