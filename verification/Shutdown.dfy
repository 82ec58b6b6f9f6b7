/** The graceful shutdown: every job under way is failed and its pod released or, if it is to
    be kept alive, left running. Unlike every other failure, these are not spread. */
module Shutdown {
  import opened Base
  import opened State
  import opened Ledger
  import opened Propagation
  import opened Scheduler
  import opened JobSteps
  import opened JobFacts
  import opened Lifecycle
  import opened MonitorJob

  datatype InterruptAnswers = InterruptAnswers(synced: bool, tornDown: bool, now: real, later: real)

  function Pulled(l: Local, a: InterruptAnswers): Local {
    if l.job.status == Running && l.job.ssh.Some? then Called(l, [State.FinalSync(l.job.name, a.synced)]) else l
  }

  function Released(l: Local, cfg: JobConfig, a: InterruptAnswers): Local
    requires HasPod(l.job)
  {
    if cfg.keepPodAlive then l else Called(l, [Teardown(l.job.name, l.job.podId.value, a.tornDown)])
  }

  function Settled(l: Local, a: InterruptAnswers): Local {
    if !IsSet(l.job.startedAt) then l
    else Stopped(Accrue(l.(job := l.job.(finishedAt := Some(a.now))), a.later), Interrupted)
  }

  /** A job under way is interrupted; without a pod it just fails. */
  function Interrupt(l: Local, cfg: JobConfig, a: InterruptAnswers): Local {
    if !HasPod(l.job) then l.(job := l.job.(status := Failed))
    else
      var r := Released(Pulled(l, a), cfg, a);
      Settled(r.(job := r.job.(status := Failed)), a)
  }

  ghost function InterruptedAt(v: Run, configs: Configs, a: InterruptAnswers, k: nat): (r: Run)
    requires k < |v.jobs| && v.jobs[k].name in configs
    ensures |r.jobs| == |v.jobs|
  {
    var l := Interrupt(LocalOf(v, k), configs[v.jobs[k].name], a);
    Run(v.jobs[k := l.job], l.total, l.log, l.calls)
  }

  ghost function GracefulFrom(v: Run, configs: Configs, answer: nat -> InterruptAnswers, k: nat): (r: Run)
    requires k <= |v.jobs|
    ensures |r.jobs| == |v.jobs|
    decreases |v.jobs| - k
  {
    if k == |v.jobs| then v
    else if !Active(v.jobs[k].status) || v.jobs[k].name !in configs then GracefulFrom(v, configs, answer, k + 1)
    else GracefulFrom(InterruptedAt(v, configs, answer(k), k), configs, answer, k + 1)
  }

  /** Only jobs under way that are configured are interrupted. */
  predicate ToInterrupt(j: Job, configs: Configs) {
    Active(j.status) && j.name in configs
  }

  lemma InterruptFacts(l: Local, cfg: JobConfig, a: InterruptAnswers)
    ensures StepKeeps(l, Interrupt(l, cfg, a)) && Interrupt(l, cfg, a).job.status == Failed
    ensures HasPod(l.job) && !cfg.keepPodAlive ==>
              exists k, ok :: |l.calls| <= k < |Interrupt(l, cfg, a).calls| &&
                              Interrupt(l, cfg, a).calls[k] == Teardown(l.job.name, l.job.podId.value, ok)
    ensures cfg.keepPodAlive ==>
              forall k :: |l.calls| <= k < |Interrupt(l, cfg, a).calls| ==> !Interrupt(l, cfg, a).calls[k].Teardown?
  {
    if HasPod(l.job) {
      var p := Pulled(l, a);
      var r := Released(p, cfg, a);
      var f := r.(job := r.job.(status := Failed));
      assert StepKeeps(l, f);
      if IsSet(f.job.startedAt) {
        var g := f.(job := f.job.(finishedAt := Some(a.now)));
        assert StepKeeps(l, g);
        AccrueIsStep(g, a.later);
        StepsCompose(l, g, Accrue(g, a.later));
        StopIsStep(Accrue(g, a.later), Interrupted);
        StepsCompose(l, Accrue(g, a.later), Settled(f, a));
      }
      if !cfg.keepPodAlive {
        assert Interrupt(l, cfg, a).calls == r.calls;
        assert r.calls[|p.calls|] == Teardown(l.job.name, l.job.podId.value, a.tornDown);
      }
    }
  }

  lemma InterruptedFacts(v: Run, configs: Configs, a: InterruptAnswers, k: nat)
    requires k < |v.jobs| && v.jobs[k].name in configs
    ensures var r := InterruptedAt(v, configs, a, k);
      && SameShape(v.jobs, r.jobs) && r.jobs[k].status == Failed
      && (forall m :: 0 <= m < |v.jobs| && m != k ==> r.jobs[m] == v.jobs[m])
      && Drift(r) == Drift(v) && (UniqueStops(v.log) ==> UniqueStops(r.log))
  {
    hide Interrupt, UniqueStops;
    InterruptFacts(LocalOf(v, k), configs[v.jobs[k].name], a);
    SumCostUpdate(v.jobs, k, Interrupt(LocalOf(v, k), configs[v.jobs[k].name], a).job);
  }

  /** Every job to be interrupted has failed, every other one keeps every field; the spend and
      the counters move together and no pod gets a second stop event. */
  lemma {:induction false} GracefulFacts(v: Run, configs: Configs, answer: nat -> InterruptAnswers, k: nat)
    requires k <= |v.jobs|
    ensures var r := GracefulFrom(v, configs, answer, k);
      && SameShape(v.jobs, r.jobs)
      && (forall m :: k <= m < |v.jobs| && ToInterrupt(v.jobs[m], configs) ==> r.jobs[m].status == Failed)
      && (forall m :: 0 <= m < |v.jobs| && (m < k || !ToInterrupt(v.jobs[m], configs)) ==> r.jobs[m] == v.jobs[m])
      && Drift(r) == Drift(v) && (UniqueStops(v.log) ==> UniqueStops(r.log))
    decreases |v.jobs| - k
  {
    hide InterruptedAt, UniqueStops, Drift;
    if k < |v.jobs| {
      if !ToInterrupt(v.jobs[k], configs) {
        GracefulFacts(v, configs, answer, k + 1);
      } else {
        InterruptedFacts(v, configs, answer(k), k);
        GracefulFacts(InterruptedAt(v, configs, answer(k), k), configs, answer, k + 1);
      }
    }
  }

  lemma {:induction false} GracefulCalls(v: Run, configs: Configs, answer: nat -> InterruptAnswers, k: nat)
    requires k <= |v.jobs|
    ensures v.calls <= GracefulFrom(v, configs, answer, k).calls
    decreases |v.jobs| - k
  {
    hide Interrupt;
    if k < |v.jobs| {
      if !ToInterrupt(v.jobs[k], configs) {
        GracefulCalls(v, configs, answer, k + 1);
      } else {
        InterruptFacts(LocalOf(v, k), configs[v.jobs[k].name], answer(k));
        GracefulCalls(InterruptedAt(v, configs, answer(k), k), configs, answer, k + 1);
      }
    }
  }

  /** What an interruption asks of the world: results are fetched from a running job that can
      be reached, and the pod is terminated unless it is kept alive. */
  lemma InterruptAsks(l: Local, cfg: JobConfig, a: InterruptAnswers)
    ensures Interrupt(l, cfg, a).calls ==
              if l.job.podId.None? || l.job.podId.value.text == "" then l.calls
              else
                l.calls +
                (if l.job.status == Running && l.job.ssh.Some? then [State.FinalSync(l.job.name, a.synced)] else []) +
                if cfg.keepPodAlive then [] else [Teardown(l.job.name, l.job.podId.value, a.tornDown)]
    ensures HasPod(l.job) && IsSet(l.job.startedAt) ==>
              var r := Interrupt(l, cfg, a);
              StopRecorded(r.log, l.job.podId) && r.log == RecordStop(l.log, l.job.podId, Interrupted, Some(r.job.cost))
  {
    assert forall c: seq<Call> :: c + [] == c;
  }

  /** Someone still pending waits for a job that is about to be interrupted. */
  ghost predicate SomeoneWaits(jobs: seq<Job>, configs: Configs) {
    exists p, q :: 0 <= p < |jobs| && 0 <= q < |jobs| && jobs[p].status == Pending &&
                   jobs[p].name in configs && ToInterrupt(jobs[q], configs) && DependsOn(jobs[p], jobs[q].name)
  }

  /** The shutdown leaves the list closed under failure exactly when it was closed and nobody
      pending waits for a job that it interrupts. */
  lemma ShutdownClosure(v: Run, configs: Configs, answer: nat -> InterruptAnswers)
    ensures Closed(GracefulFrom(v, configs, answer, 0).jobs, configs.Keys) <==>
              Closed(v.jobs, configs.Keys) && !SomeoneWaits(v.jobs, configs)
  {
    var r := GracefulFrom(v, configs, answer, 0).jobs;
    GracefulFacts(v, configs, answer, 0);
    if Closed(r, configs.Keys) {
      forall b | 0 <= b < |v.jobs| && Bad(v.jobs[b].status)
        ensures ShutFor(v.jobs, configs.Keys, v.jobs[b].name, |v.jobs|)
      {
        assert ShutFor(r, configs.Keys, r[b].name, |r|);
        forall m | 0 <= m < |v.jobs| && DependsOn(v.jobs[m], v.jobs[b].name) && v.jobs[m].name in configs
          ensures v.jobs[m].status != Pending {
          assert DependsOn(r[m], r[b].name);
        }
      }
      forall p, q | 0 <= p < |r| && 0 <= q < |r| && v.jobs[p].status == Pending && v.jobs[p].name in configs &&
                    ToInterrupt(v.jobs[q], configs)
        ensures !DependsOn(v.jobs[p], v.jobs[q].name)
      {
        assert ShutFor(r, configs.Keys, r[q].name, |r|);
        assert r[p] == v.jobs[p];
      }
    }
    if Closed(v.jobs, configs.Keys) && !SomeoneWaits(v.jobs, configs) {
      forall b | 0 <= b < |r| && Bad(r[b].status) ensures ShutFor(r, configs.Keys, r[b].name, |r|) {
        forall m | 0 <= m < |r| && DependsOn(r[m], r[b].name) && r[m].name in configs
          ensures r[m].status != Pending {
          assert DependsOn(v.jobs[m], v.jobs[b].name);
          if !ToInterrupt(v.jobs[b], configs) {
            assert ShutFor(v.jobs, configs.Keys, v.jobs[b].name, |v.jobs|);
          }
        }
      }
    }
  }

  /** A concrete run in which the closure is lost: `b` waits for `a`, which is interrupted. */
  lemma ShutdownCanOpen(cfg: JobConfig, a: InterruptAnswers)
    ensures var ja := Job(Name("a"), [], Running, None, 0.0, None, None, None, None, None, None, 1, 0, 0.0, None, None);
      var jb := ja.(name := Name("b"), dependsOn := [Name("a")], status := Pending, attempts := 0);
      var v := Run([ja, jb], 0.0, [], []);
      var configs := map[Name("a") := cfg, Name("b") := cfg];
      Closed(v.jobs, configs.Keys) && !Closed(GracefulFrom(v, configs, _ => a, 0).jobs, configs.Keys)
  {
    var ja := Job(Name("a"), [], Running, None, 0.0, None, None, None, None, None, None, 1, 0, 0.0, None, None);
    var jb := ja.(name := Name("b"), dependsOn := [Name("a")], status := Pending, attempts := 0);
    var v := Run([ja, jb], 0.0, [], []);
    var configs := map[Name("a") := cfg, Name("b") := cfg];
    assert SomeoneWaits(v.jobs, configs) by {
      assert v.jobs[1].status == Pending && ToInterrupt(v.jobs[0], configs) && DependsOn(v.jobs[1], v.jobs[0].name);
    }
    ShutdownClosure(v, configs, _ => a);
  }

  // ---- on the records ----

  method InterruptJob(state: RunState, job: PodState, cfg: JobConfig, a: InterruptAnswers)
    modifies state, job
    ensures Here(state, job) == Interrupt(old(Here(state, job)), cfg, a)
  {
    hide Stopped, Accrue;
    if !NonEmpty(job.podId) {
      job.status := Failed;
      return;
    }
    if job.status == Running && job.ssh.Some? {
      RecordCall(state, job, State.FinalSync(job.name, a.synced));
    }
    if !cfg.keepPodAlive {
      RecordCall(state, job, Teardown(job.name, job.podId.value, a.tornDown));
    }
    job.status := Failed;
    if IsSet(job.startedAt) {
      job.finishedAt := Some(a.now);
      UpdateCost(state, job, a.later);
      LogStop(state, job, Interrupted);
    }
  }

  method InterruptOne(state: RunState, k: nat, configs: Configs, a: InterruptAnswers)
    requires state.Distinct() && k < |state.jobs| && state.jobs[k].name in configs
    modifies state, state.jobs
    ensures state.View() == InterruptedAt(old(state.View()), configs, a, k)
  {
    hide Interrupt;
    var job := state.jobs[k];
    InterruptJob(state, job, configs[job.name], a);
  }

  method GracefulShutdown(state: RunState, configs: Configs, answer: nat -> InterruptAnswers)
    requires state.Distinct()
    modifies state, state.jobs
    ensures state.View() == GracefulFrom(old(state.View()), configs, answer, 0)
  {
    hide InterruptedAt;
    ghost var result := GracefulFrom(state.View(), configs, answer, 0);
    for k := 0 to |state.jobs|
      invariant GracefulFrom(state.View(), configs, answer, k) == result
    {
      if state.jobs[k].status in {Running, Provisioning, Deploying} && state.jobs[k].name in configs {
        InterruptOne(state, k, configs, answer(k));
      }
    }
  }
}
