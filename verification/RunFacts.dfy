/** What whole runs keep: the order of the dependencies, the closure under failure, one stop
    event per pod, the account of the spend; for every script of answers. */
module RunFacts {
  import opened Base
  import opened State
  import opened Ledger
  import opened Propagation
  import opened Scheduler
  import opened Scan
  import opened JobSteps
  import opened JobFacts
  import opened Lifecycle

  // ---- what every step of a run keeps ----

  /** The standing invariants of a run, against the state it began in. */
  ghost predicate RunInv(start: Run, v: Run) {
    && UniqueNames(v.jobs)
    && (DepSafe(start.jobs) ==> DepSafe(v.jobs)) && SkipsJustified(start.jobs, v.jobs)
    && (UniqueStops(start.log) ==> UniqueStops(v.log)) && Drift(v) == Drift(start)
  }

  lemma SettleKeepsDrift(v: Run, i: nat, o: Outcome)
    requires i < |v.jobs| && StepKeeps(LocalOf(v, i), o.at) && Legal(v.jobs[i], o.at.job, o.spread)
    ensures Drift(Apply(v, i, o)) == Drift(v)
  {
    var r := Apply(v, i, o);
    var mid := v.jobs[i := o.at.job];
    SumCostUpdate(v.jobs, i, o.at.job);
    SettledJob(v.jobs, i, o.at.job, o.spread);
    forall k | 0 <= k < |mid| ensures r.jobs[k].cost == mid[k].cost {
      assert r.jobs[k] == mid[k] || NewlySkipped(mid, r.jobs, k);
    }
    SumCostSame(mid, r.jobs);
  }

  /** A lawful step on a job keeps the invariants, the outcomes, and the closure if it held. */
  lemma ApplyKeeps(start: Run, configs: Configs, v: Run, i: nat, o: Outcome)
    requires RunInv(start, v) && i < |v.jobs|
    requires Lawful(LocalOf(v, i), o)
    requires v.jobs[i].status in {Pending, SyncFailed} && (Active(o.at.job.status) || o.at.job.status == Completed) ==>
               DepsCompleted(v.jobs, v.jobs[i])
    ensures RunInv(start, Apply(v, i, o))
    ensures OutcomesKept(v.jobs, Apply(v, i, o).jobs)
    ensures Closed(v.jobs, configs.Keys) ==> Closed(Apply(v, i, o).jobs, configs.Keys)
    ensures Apply(v, i, o).total >= v.total && v.calls <= Apply(v, i, o).calls
  {
    SettleKeepsOutcomes(v.jobs, i, o.at.job, o.spread);
    KeepsNames(v.jobs, Apply(v, i, o).jobs, configs.Keys);
    if DepSafe(v.jobs) {
      SettleKeepsDepSafe(v.jobs, i, o.at.job, o.spread);
    }
    SettleKeepsJustified(start.jobs, v.jobs, i, o.at.job, o.spread);
    SettleKeepsDrift(v, i, o);
    if Closed(v.jobs, configs.Keys) {
      SettleKeepsClosed(v.jobs, configs.Keys, i, o.at.job, o.spread);
    }
  }

  /** A stretch of a run: the invariants and the outcomes are kept, and the closure if it
      held. */
  ghost predicate StretchKeeps(start: Run, configs: Configs, v: Run, v': Run) {
    && RunInv(start, v') && OutcomesKept(v.jobs, v'.jobs)
    && (Closed(v.jobs, configs.Keys) ==> Closed(v'.jobs, configs.Keys)) && v'.total >= v.total && v.calls <= v'.calls
  }

  /** A call that names the job: creating or terminating its pod, syncing, backing off. */
  predicate Concerns(c: Call, name: Name) {
    (c.Create? || c.Teardown? || c.FinalSync? || c.Backoff?) && c.job == name
  }

  ghost predicate SilentOn(before: seq<Call>, after: seq<Call>, name: Name) {
    before <= after && forall k :: |before| <= k < |after| ==> !Concerns(after[k], name)
  }

  /** A job that is over, its sync failed or not, keeps every field, and no call concerns it. */
  ghost predicate LeavesSettled(v: Run, v': Run) {
    && |v'.jobs| == |v.jobs|
    && forall m :: 0 <= m < |v.jobs| && Terminal(v.jobs[m].status) ==>
         v'.jobs[m] == v.jobs[m] && SilentOn(v.calls, v'.calls, v.jobs[m].name)
  }

  lemma SettledCompose(a: Run, b: Run, c: Run)
    requires LeavesSettled(a, b) && LeavesSettled(b, c)
    ensures LeavesSettled(a, c)
  {
  }

  /** A step on one job leaves any other that is not pending alone. */
  lemma StepLeavesOther(v: Run, i: nat, o: Outcome, m: nat)
    requires UniqueNames(v.jobs) && i < |v.jobs| && Lawful(LocalOf(v, i), o)
    requires m < |v.jobs| && m != i && v.jobs[m].status != Pending
    ensures Apply(v, i, o).jobs[m] == v.jobs[m] && SilentOn(v.calls, Apply(v, i, o).calls, v.jobs[m].name)
  {
  }

  lemma StepLeavesSettled(v: Run, i: nat, o: Outcome)
    requires UniqueNames(v.jobs) && i < |v.jobs| && !Terminal(v.jobs[i].status) && Lawful(LocalOf(v, i), o)
    ensures LeavesSettled(v, Apply(v, i, o))
  {
  }

  lemma NothingHappened(v: Run)
    ensures LeavesSettled(v, v)
  {
  }

  lemma MonitoredKeeps(start: Run, configs: Configs, v: Run, a: JobAnswer, k: nat)
    requires RunInv(start, v) && k < |v.jobs|
    requires Active(v.jobs[k].status) && v.jobs[k].name in configs
    ensures StretchKeeps(start, configs, v, Monitored(v, configs, a, k))
    ensures LeavesSettled(v, Monitored(v, configs, a, k))
  {
    MonitorFacts(LocalOf(v, k), configs[v.jobs[k].name], a);
    ApplyKeeps(start, configs, v, k, Monitor(LocalOf(v, k), configs[v.jobs[k].name], a));
    StepLeavesSettled(v, k, Monitor(LocalOf(v, k), configs[v.jobs[k].name], a));
  }

  lemma {:induction false} MonitorKeeps(start: Run, configs: Configs, v: Run, answer: nat -> JobAnswer, k: nat)
    requires RunInv(start, v) && k <= |v.jobs|
    ensures StretchKeeps(start, configs, v, MonitorFrom(v, configs, answer, k).0)
    ensures LeavesSettled(v, MonitorFrom(v, configs, answer, k).0)
    decreases |v.jobs| - k
  {
    hide RunInv, Closed, Monitored, LeavesSettled;
    NothingHappened(v);
    if k < |v.jobs| {
      if !Active(v.jobs[k].status) || v.jobs[k].name !in configs {
        MonitorKeeps(start, configs, v, answer, k + 1);
      } else {
        var v' := Monitored(v, configs, answer(k), k);
        MonitoredKeeps(start, configs, v, answer(k), k);
        if !answer(k).StoppedBy? {
          MonitorKeeps(start, configs, v', answer, k + 1);
          SettledCompose(v, v', MonitorFrom(v', configs, answer, k + 1).0);
        }
      }
    }
  }

  // ---- the start phase ----

  ghost predicate ReadyToStart(jobs: seq<Job>, configured: set<Name>, i: nat)
    requires i < |jobs|
  {
    jobs[i].status == Pending && jobs[i].name in configured && DepsCompleted(jobs, jobs[i])
  }

  /** The listed jobs are distinct, configured, pending, and their dependencies completed. */
  ghost predicate AllReady(jobs: seq<Job>, configured: set<Name>, ready: seq<nat>) {
    && (forall a, b :: 0 <= a < b < |ready| ==> ready[a] != ready[b])
    && forall k :: 0 <= k < |ready| ==>
         ready[k] < |jobs| && ReadyToStart(jobs, configured, ready[k])
  }

  /** Another job's outcome, a failure included, leaves a ready job alone. */
  lemma ReadyStays(jobs: seq<Job>, i: nat, j: Job, spread: bool, m: nat)
    requires UniqueNames(jobs) && i < |jobs| && Legal(jobs[i], j, spread)
    requires m < |jobs| && m != i && jobs[m].status == Pending && DepsCompleted(jobs, jobs[m])
    ensures Settle(jobs, i, j, spread)[m] == jobs[m]
  {
    var mid := jobs[i := j];
    forall d | 0 <= d < |jobs| && DependsOn(jobs[m], jobs[d].name) ensures jobs[d].status == Completed {
      assert IsCompleted(jobs, jobs[d].name);
    }
    if spread && Doomed(mid, j.name, m) {
      var _ := DoomedVia(mid, j.name, m);
    }
  }

  lemma PipelineLawful(l: Local, cfg: JobConfig, a: PipelineAnswers)
    requires l.job.status == Pending
    ensures Lawful(l, Pipeline(l, cfg, a, false))
  {
    PipelineFacts(l, cfg, a, false);
    PipelineIsStep(l, Pipeline(l, cfg, a, false).at);
  }

  ghost function Started(v: Run, configs: Configs, i: nat, a: PipelineAnswers): (r: Run)
    requires i < |v.jobs| && v.jobs[i].name in configs
    ensures |r.jobs| == |v.jobs|
  {
    Apply(v, i, Pipeline(LocalOf(v, i), configs[v.jobs[i].name], a, false))
  }

  /** Once the first ready job has settled, the others are still ready. */
  lemma OthersStayReady(jobs: seq<Job>, configured: set<Name>, ready: seq<nat>, j: Job, spread: bool)
    requires UniqueNames(jobs) && AllReady(jobs, configured, ready) && ready != []
    requires Legal(jobs[ready[0]], j, spread)
    ensures AllReady(Settle(jobs, ready[0], j, spread), configured, ready[1..])
  {
    var r := Settle(jobs, ready[0], j, spread);
    SettleKeepsOutcomes(jobs, ready[0], j, spread);
    hide Settle, Legal;
    forall k | 0 <= k < |ready[1..]| ensures ReadyToStart(r, configured, ready[1..][k]) {
      assert ReadyToStart(jobs, configured, ready[k + 1]);
      ReadyStays(jobs, ready[0], j, spread, ready[k + 1]);
      CompletedDepsKept(jobs, r, jobs[ready[k + 1]]);
    }
  }

  lemma StartedKeeps(start: Run, configs: Configs, v: Run, ready: seq<nat>, a: PipelineAnswers)
    requires RunInv(start, v) && AllReady(v.jobs, configs.Keys, ready) && ready != []
    ensures v.jobs[ready[0]].name in configs
    ensures StretchKeeps(start, configs, v, Started(v, configs, ready[0], a))
    ensures AllReady(Started(v, configs, ready[0], a).jobs, configs.Keys, ready[1..])
    ensures LeavesSettled(v, Started(v, configs, ready[0], a))
  {
    var i := ready[0];
    assert ReadyToStart(v.jobs, configs.Keys, i);
    var o := Pipeline(LocalOf(v, i), configs[v.jobs[i].name], a, false);
    PipelineLawful(LocalOf(v, i), configs[v.jobs[i].name], a);
    hide Pipeline, StepKeeps, Settle;
    ApplyKeeps(start, configs, v, i, o);
    StepLeavesSettled(v, i, o);
    OthersStayReady(v.jobs, configs.Keys, ready, o.at.job, o.spread);
  }

  lemma {:induction false} StartInOrderKeeps(start: Run, configs: Configs, v: Run, ready: seq<nat>,
                                             answer: nat -> PipelineAnswers)
    requires RunInv(start, v) && AllReady(v.jobs, configs.Keys, ready)
    ensures StretchKeeps(start, configs, v, StartInOrder(v, configs, ready, answer))
    ensures LeavesSettled(v, StartInOrder(v, configs, ready, answer))
    decreases |ready|
  {
    hide RunInv, Closed, Pipeline, Apply, DepsCompleted, LeavesSettled;
    NothingHappened(v);
    if ready != [] {
      var i := ready[0];
      StartedKeeps(start, configs, v, ready, answer(i));
      var v' := Started(v, configs, i, answer(i));
      StartInOrderKeeps(start, configs, v', ready[1..], answer);
      SettledCompose(v, v', StartInOrder(v', configs, ready[1..], answer));
    }
  }

  /** Turning pending jobs into skipped ones, each with a spoiled dependency, keeps the
      invariants. */
  lemma SkipsKeep(start: Run, configs: Configs, v: Run, jobs: seq<Job>)
    requires RunInv(start, v) && OnlySkips(v.jobs, jobs) && SkipsJustified(start.jobs, jobs)
    ensures RunInv(start, v.(jobs := jobs)) && OutcomesKept(v.jobs, jobs)
    ensures LeavesSettled(v, v.(jobs := jobs))
  {
    OnlySkipsKeepsOutcomes(v.jobs, jobs);
    KeepsNames(v.jobs, jobs, configs.Keys);
    forall m | 0 <= m < |jobs| ensures jobs[m].cost == v.jobs[m].cost {
      assert jobs[m] == v.jobs[m] || NewlySkipped(v.jobs, jobs, m);
    }
    SumCostSame(v.jobs, jobs);
    forall m | 0 <= m < |jobs| && Terminal(v.jobs[m].status) ensures jobs[m] == v.jobs[m] {
      SkipAt(v.jobs, jobs, m);
    }
    forall m | 0 <= m < |jobs| && DepSafe(v.jobs) && (Active(jobs[m].status) || jobs[m].status == Completed)
      ensures DepsCompleted(jobs, jobs[m])
    {
      SkipAt(v.jobs, jobs, m);
      CompletedDepsKept(v.jobs, jobs, v.jobs[m]);
    }
  }

  lemma ScanKeeps(start: Run, configs: Configs, v: Run)
    requires RunInv(start, v)
    ensures var (jobs, ready) := ScanFrom(v.jobs, configs.Keys, 0, []);
      && OnlySkips(v.jobs, jobs) && Closed(jobs, configs.Keys) && AllReady(jobs, configs.Keys, ready)
      && ReadyBelow(jobs, configs.Keys, |jobs|, ready)
      && RunInv(start, v.(jobs := jobs)) && OutcomesKept(v.jobs, jobs)
      && LeavesSettled(v, v.(jobs := jobs))
  {
    var (jobs, ready) := ScanFrom(v.jobs, configs.Keys, 0, []);
    ScanResult(start.jobs, v.jobs, configs.Keys, 0, []);
    SkipsKeep(start, configs, v, jobs);
    forall k | 0 <= k < |ready| ensures ready[k] < |jobs| && ReadyToStart(jobs, configs.Keys, ready[k]) {
      assert ready[k] in ready && IsReady(jobs, configs.Keys, ready[k]);
      DepsMetMeansCompleted(jobs, jobs[ready[k]]);
    }
  }

  /** A start phase keeps everything, and closes the list under failure even where it was
      open before. */
  lemma StartKeeps(start: Run, configs: Configs, v: Run, shutdown: bool, answer: nat -> PipelineAnswers)
    requires RunInv(start, v)
    ensures StretchKeeps(start, configs, v, Start(v, configs, shutdown, answer))
    ensures !shutdown ==> Closed(Start(v, configs, shutdown, answer).jobs, configs.Keys)
    ensures LeavesSettled(v, Start(v, configs, shutdown, answer))
  {
    hide RunInv, Closed, OnlySkips, LeavesSettled, AllReady, ReadyBelow;
    NothingHappened(v);
    if !shutdown {
      ScanKeeps(start, configs, v);
      var (jobs, ready) := ScanFrom(v.jobs, configs.Keys, 0, []);
      StartInOrderKeeps(start, configs, v.(jobs := jobs), ready, answer);
      SettledCompose(v, v.(jobs := jobs), StartInOrder(v.(jobs := jobs), configs, ready, answer));
    }
  }

  // ---- the loop ----

  lemma TickKeeps(start: Run, configs: Configs, v: Run, t: TickScript)
    requires RunInv(start, v)
    ensures StretchKeeps(start, configs, v, MonitorTick(v, configs, t))
    ensures LeavesSettled(v, MonitorTick(v, configs, t))
  {
    hide RunInv, Closed, MonitorFrom, Start, LeavesSettled;
    MonitorKeeps(start, configs, v, t.job, 0);
    var (m, stopped) := MonitorFrom(v, configs, t.job, 0);
    StartKeeps(start, configs, m, t.shutdownBeforeStart, t.start);
    if !stopped {
      SettledCompose(v, m, MonitorTick(v, configs, t));
    }
  }

  lemma TornDownKeeps(start: Run, configs: Configs, v: Run, a: FinishAnswers, k: nat)
    requires RunInv(start, v) && k < |v.jobs|
    requires Live(v.jobs[k].status) && v.jobs[k].name in configs
    ensures StretchKeeps(start, configs, v,
                         Apply(v, k, Finish(LocalOf(v, k), configs[v.jobs[k].name], Failed, true, a)))
  {
    FinishFacts(LocalOf(v, k), configs[v.jobs[k].name], Failed, true, a);
    ApplyKeeps(start, configs, v, k, Finish(LocalOf(v, k), configs[v.jobs[k].name], Failed, true, a));
  }

  lemma {:induction false} TeardownKeeps(start: Run, configs: Configs, v: Run,
                                         answer: nat -> FinishAnswers, k: nat)
    requires RunInv(start, v) && k <= |v.jobs|
    ensures StretchKeeps(start, configs, v, TeardownFrom(v, configs, answer, k))
    decreases |v.jobs| - k
  {
    hide RunInv, Closed, Apply, Finish;
    if k < |v.jobs| {
      if !Live(v.jobs[k].status) || v.jobs[k].name !in configs {
        TeardownKeeps(start, configs, v, answer, k + 1);
      } else {
        TornDownKeeps(start, configs, v, answer(k), k);
        TeardownKeeps(start, configs,
                      Apply(v, k, Finish(LocalOf(v, k), configs[v.jobs[k].name], Failed, true, answer(k))), answer,
                        k + 1);
      }
    }
  }

  lemma {:induction false} LoopKeeps(start: Run, configs: Configs, v: Run, budget: real,
                                     script: seq<TickScript>, sleeps: seq<real>)
    requires RunInv(start, v)
    ensures StretchKeeps(start, configs, v, Loop(v, configs, budget, script, sleeps).v)
    ensures !Loop(v, configs, budget, script, sleeps).end.BudgetStop? ==>
              LeavesSettled(v, Loop(v, configs, budget, script, sleeps).v)
    decreases |script|
  {
    hide RunInv, Closed, LeavesSettled, MonitorTick, TeardownFrom, Lifecycle.AllDone;
    NothingHappened(v);
    if !Lifecycle.AllDone(v.jobs) && script != [] {
      var t := script[0];
      var m := MonitorTick(v, configs, t);
      TickKeeps(start, configs, v, t);
      TeardownKeeps(start, configs, m, t.teardown, 0);
      if !t.shutdownAfter && !BudgetReached(m.total, budget) && !t.shutdownAsleep {
        LoopKeeps(start, configs, m, budget, script[1..], sleeps + [m.total]);
        if !Loop(v, configs, budget, script, sleeps).end.BudgetStop? {
          SettledCompose(v, m, Loop(v, configs, budget, script, sleeps).v);
        }
      }
    }
  }

  /** Every run, for every script of answers, up to whatever tick boundary the script ends at:
      no configured pending job depends on a failed or skipped one; every job skipped since
      the run began has a dependency that failed, was skipped or could not be synced; outcomes
      are final; the spend and the cost counters move together. If at first every active or
      completed job had its dependencies completed, that stays so; and if no pod had two stop
      events, none ever has. */
  lemma EveryRunKeeps(configs: Configs, v: Run, budget: real, answer: nat -> PipelineAnswers, script: seq<TickScript>)
    requires UniqueNames(v.jobs)
    ensures var r := Loop(Start(v, configs, false, answer), configs, budget, script, []).v;
      && UniqueNames(r.jobs) && Closed(r.jobs, configs.Keys) && SkipsJustified(v.jobs, r.jobs)
      && OutcomesKept(v.jobs, r.jobs) && Drift(r) == Drift(v)
      && (DepSafe(v.jobs) ==> DepSafe(r.jobs))
      && (UniqueStops(v.log) ==> UniqueStops(r.log))
  {
    hide Start, Loop, Closed, DepSafe, LeavesSettled, Drift;
    StartKeeps(v, configs, v, false, answer);
    LoopKeeps(v, configs, Start(v, configs, false, answer), budget, script, []);
  }
}
