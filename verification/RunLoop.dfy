/** The run on its records: the monitor's pass, the start phase, the teardown and the loop. */
module RunLoop {
  import opened State
  import opened Propagation
  import opened Scheduler
  import opened Scan
  import opened JobSteps
  import opened Lifecycle
  import opened MonitorJob
  import opened JobTick
  import A = Attention
  import R = Reconcile
  import S = Shutdown
  import W = WholeRun

  ghost function Placed(v: Run, i: nat, l: Local): Run
    requires i < |v.jobs|
  {
    Run(v.jobs[i := l.job], l.total, l.log, l.calls)
  }

  /** After a step on job `i` alone: its failure, if any, is spread. */
  method TakeEffect(state: RunState, i: nat, spread: bool, ghost v: Run, ghost o: Outcome)
    requires state.Distinct() && i < |state.jobs| && i < |v.jobs|
    requires state.View() == Placed(v, i, o.at)
    requires spread == o.spread && state.jobs[i].name == o.at.job.name
    modifies state.jobs
    ensures state.View() == Apply(v, i, o)
  {
    if spread {
      PropagateFailure(state, state.jobs[i].name);
    }
  }

  method MonitorOne(state: RunState, i: nat, configs: Configs, a: JobAnswer)
    requires state.Distinct() && i < |state.jobs| && state.jobs[i].name in configs
    modifies state, state.jobs
    ensures state.View() == Monitored(old(state.View()), configs, a, i)
  {
    hide Monitor, Settle;
    var job := state.jobs[i];
    ghost var v := state.View();
    ghost var o := Monitor(LocalOf(v, i), configs[job.name], a);
    var spread := MonitorStep(state, job, configs[job.name], a);
    TakeEffect(state, i, spread, v, o);
  }

  method MonitorEach(state: RunState, configs: Configs, answer: nat -> JobAnswer) returns (stopped: bool)
    requires state.Distinct()
    modifies state, state.jobs
    ensures (state.View(), stopped) == MonitorFrom(old(state.View()), configs, answer, 0)
  {
    hide Monitored;
    ghost var result := MonitorFrom(state.View(), configs, answer, 0);
    for k := 0 to |state.jobs|
      invariant MonitorFrom(state.View(), configs, answer, k) == result
    {
      var job := state.jobs[k];
      if job.status !in {Running, Provisioning, Deploying} || job.name !in configs {
        continue;
      }
      MonitorOne(state, k, configs, answer(k));
      if answer(k).StoppedBy? {
        return true;
      }
    }
    return false;
  }

  /** The monitor's pass; true if a shutdown cut it short. */
  method MonitorPass(state: RunState, configs: Configs, answer: nat -> JobAnswer) returns (stopped: bool)
    requires state.Distinct()
    modifies state, state.jobs
    ensures (state.View(), stopped) == MonitorFrom(old(state.View()), configs, answer, 0)
    ensures UniqueNames(old(state.JobViews())) ==>
              A.WellAttended(old(state.View()), state.View(), configs, answer, stopped)
  {
    hide MonitorFrom, UniqueNames, A.WellAttended;
    ghost var v := state.View();
    stopped := MonitorEach(state, configs, answer);
    if UniqueNames(v.jobs) {
      A.PassIsWellAttended(v, configs, answer);
    }
  }

  method StartOne(state: RunState, i: nat, configs: Configs, a: PipelineAnswers)
    requires state.Distinct() && i < |state.jobs| && state.jobs[i].name in configs
    modifies state, state.jobs
    ensures var v := old(state.View());
      state.View() == Apply(v, i, Pipeline(LocalOf(v, i), configs[v.jobs[i].name], a, false))
  {
    hide Pipeline, Settle;
    var job := state.jobs[i];
    ghost var v := state.View();
    ghost var o := Pipeline(LocalOf(v, i), configs[job.name], a, false);
    var spread := ProvisionDeployLaunch(state, job, configs[job.name], a, false);
    TakeEffect(state, i, spread, v, o);
  }

  /** The ready jobs' pipelines, one after the other. */
  method StartReady(state: RunState, configs: Configs, ready: seq<nat>, answer: nat -> PipelineAnswers)
    requires state.Distinct() && forall k :: 0 <= k < |ready| ==> ready[k] < |state.jobs|
    modifies state, state.jobs
    ensures state.View() == StartInOrder(old(state.View()), configs, ready, answer)
  {
    hide Apply, Pipeline;
    ghost var result := StartInOrder(state.View(), configs, ready, answer);
    for k := 0 to |ready|
      invariant StartInOrder(state.View(), configs, ready[k..], answer) == result
    {
      assert ready[k..][1..] == ready[k + 1..];
      var i := ready[k];
      if state.jobs[i].name in configs {
        StartOne(state, i, configs, answer(i));
      }
    }
  }

  method StartUnblockedJobs(state: RunState, configs: Configs, shutdown: bool, answer: nat -> PipelineAnswers)
    requires state.Distinct()
    modifies state, state.jobs
    ensures state.View() == Start(old(state.View()), configs, shutdown, answer)
    ensures shutdown ==> state.View() == old(state.View())
    ensures UniqueNames(old(state.JobViews())) && !shutdown ==>
              forall m: nat :: m < |state.jobs| ==>
                A.StartedIn(old(state.View()), state.View(), configs, answer,
                            A.Due(old(state.JobViews()), configs, m), m)
  {
    hide StartInOrder, ScanFrom, UniqueNames, A.StartedIn, A.Due;
    if shutdown {
      return;
    }
    if UniqueNames(state.View().jobs) {
      A.StartAttends(state.View(), configs, answer);
    }
    var ready := ScanJobs(state, configs.Keys);
    StartReady(state, configs, ready, answer);
  }

  method TickRun(state: RunState, configs: Configs, t: TickScript)
    requires state.Distinct()
    modifies state, state.jobs
    ensures state.View() == MonitorTick(old(state.View()), configs, t)
    ensures UniqueNames(old(state.JobViews())) && (A.Ends(old(state.View()), configs, t.job, 0) ||
                                                   t.shutdownBeforeStart) ==>
              forall i :: 0 <= i < |state.jobs| && old(state.JobViews())[i].status == Pending ==>
                A.LeftAlone(old(state.JobViews()), state.JobViews(), i)
  {
    hide MonitorFrom, Start, A.LeftAlone, A.Ends, A.StartedIn, UniqueNames;
    if UniqueNames(state.View().jobs) {
      A.TickStarts(state.View(), configs, t);
    }
    var stopped := MonitorPass(state, configs, t.job);
    if !stopped {
      StartUnblockedJobs(state, configs, t.shutdownBeforeStart, t.start);
    }
  }

  method TearDownOne(state: RunState, i: nat, configs: Configs, a: FinishAnswers)
    requires state.Distinct() && i < |state.jobs| && state.jobs[i].name in configs
    modifies state, state.jobs
    ensures var v := old(state.View());
      state.View() == Apply(v, i, Finish(LocalOf(v, i), configs[v.jobs[i].name], Failed, true, a))
  {
    hide Finish, Settle;
    var job := state.jobs[i];
    ghost var v := state.View();
    ghost var o := Finish(LocalOf(v, i), configs[job.name], Failed, true, a);
    var spread := FinishJob(state, job, configs[job.name], Failed, true, a);
    TakeEffect(state, i, spread, v, o);
  }

  method TeardownAll(state: RunState, configs: Configs, answer: nat -> FinishAnswers)
    requires state.Distinct()
    modifies state, state.jobs
    ensures state.View() == TeardownFrom(old(state.View()), configs, answer, 0)
  {
    hide Apply, Finish;
    ghost var result := TeardownFrom(state.View(), configs, answer, 0);
    for k := 0 to |state.jobs|
      invariant TeardownFrom(state.View(), configs, answer, k) == result
    {
      var job := state.jobs[k];
      if job.status !in {Running, Deploying, Provisioning, SyncFailed} || job.name !in configs {
        continue;
      }
      TearDownOne(state, k, configs, answer(k));
    }
  }

  method CheckAllDone(state: RunState) returns (done: bool)
    ensures done <==> Lifecycle.AllDone(state.JobViews())
  {
    for k := 0 to |state.jobs|
      invariant forall i :: 0 <= i < k ==> Terminal(state.jobs[i].status)
    {
      if state.jobs[k].status !in {Completed, Failed, Skipped, SyncFailed} {
        assert state.JobViews()[k] in state.JobViews();
        return false;
      }
    }
    return true;
  }

  /** The monitoring loop, one script entry a tick, until everything is over, a shutdown is
      requested, the budget is spent, or the script ends with the loop asleep. */
  method MonitorLoop(state: RunState, configs: Configs, budget: real, script: seq<TickScript>)
    returns (end: LoopEnd, sleeps: seq<real>)
    requires state.Distinct()
    modifies state, state.jobs
    ensures LoopResult(state.View(), end, sleeps) == Loop(old(state.View()), configs, budget, script, [])
  {
    hide MonitorTick, TeardownFrom, Lifecycle.AllDone;
    ghost var result := Loop(state.View(), configs, budget, script, []);
    sleeps := [];
    for k := 0 to |script|
      invariant Loop(state.View(), configs, budget, script[k..], sleeps) == result
    {
      assert script[k..][1..] == script[k + 1..];
      var done := CheckAllDone(state);
      if done {
        return Done, sleeps;
      }
      var t := script[k];
      TickRun(state, configs, t);
      if t.shutdownAfter {
        return ShutdownRequested, sleeps;
      }
      if budget > 0.0 && state.total >= budget {
        var total := state.total;
        TeardownAll(state, configs, t.teardown);
        return BudgetStop(total), sleeps;
      }
      sleeps := sleeps + [state.total];
      if t.shutdownAsleep {
        return ShutdownRequested, sleeps;
      }
    }
    var done := CheckAllDone(state);
    end := if done then Done else StillGoing;
  }

  /** Whether some pod that may still exist asks for a teardown on a crash. */
  method AsksForTeardown(state: RunState, configs: Configs) returns (asks: bool)
    ensures asks <==> W.CrashTearsDown(state.JobViews(), configs)
  {
    for k := 0 to |state.jobs|
      invariant forall i :: 0 <= i < k ==>
                  !(Live(state.jobs[i].status) && HasPod(state.jobs[i].View()) && state.jobs[i].name in configs &&
                    configs[state.jobs[i].name].teardownOnCrash)
    {
      var job := state.jobs[k];
      if job.status in {Provisioning, Deploying, Running, SyncFailed} && NonEmpty(job.podId) && job.name in configs &&
         configs[job.name].teardownOnCrash {
        assert state.JobViews()[k] == job.View();
        return true;
      }
    }
    return false;
  }

  method HandleCrash(state: RunState, configs: Configs, answer: nat -> FinishAnswers)
    requires state.Distinct()
    modifies state, state.jobs
    ensures state.View() == W.Crashed(old(state.View()), configs, answer)
    ensures (forall j :: j in old(state.JobViews()) && j.name in configs && W.AsksForTeardown(j, configs) ==>
               j.status !in {Provisioning, Deploying, Running, SyncFailed}) ==>
              state.View() == old(state.View())
    ensures forall j :: j in state.JobViews() && j.name in configs && W.AsksForTeardown(j, configs) ==>
              j.status !in {Provisioning, Deploying, Running, SyncFailed}
  {
    hide TeardownFrom, W.CrashTearsDown;
    W.CrashClears(state.View(), configs, answer);
    W.NobodyAsks(state.View().jobs, configs);
    var asks := AsksForTeardown(state, configs);
    if asks {
      TeardownAll(state, configs, answer);
    }
  }

  /** A whole run; and what is true of it at its end. */
  method RunLifecycle(state: RunState, p: W.Plan) returns (end: LoopEnd, sleeps: seq<real>)
    requires state.Distinct()
    modifies state, state.jobs
    ensures var l := W.Looped(old(state.View()), p);
      end == l.end && sleeps == l.sleeps && state.View() == W.Ended(l, p)
    ensures W.EndsWell(end, sleeps, state.JobViews(), p)
    ensures UniqueNames(old(state.JobViews())) ==>
              W.NoneOverlooked(old(state.JobViews()), old(state.calls), state.calls, p)
    ensures W.NoneLost(state.View(), p)
    ensures UniqueNames(old(state.JobViews())) ==>
              W.Kept(old(state.View()), W.Matched(old(state.View()), p), state.View())
    ensures UniqueNames(old(state.JobViews())) && (!p.stopBeforeStart ||
                                                   Closed(old(state.JobViews()), p.configs.Keys)) ==>
              (Closed(state.JobViews(), p.configs.Keys) <==> !W.LeavesOpen(W.Looped(old(state.View()), p), p))
  {
    hide Start, Loop, R.All, S.GracefulFrom, W.Crashed, W.Kept, W.LeavesOpen, W.EndsWell, W.NoneOverlooked, W.NoneLost,
         Closed, UniqueNames;
    ghost var v := state.View();
    R.ReconcileRunPods(state, p.configs, p.runId, p.listed, p.matching);
    StartUnblockedJobs(state, p.configs, p.stopBeforeStart, p.start);
    end, sleeps := ShutdownRequested, [];
    if !p.stopBeforeStart && !p.stopInStart {
      end, sleeps := MonitorLoop(state, p.configs, p.budget, p.script);
    }
    if end.ShutdownRequested? && p.tearDown {
      S.GracefulShutdown(state, p.configs, p.interrupt);
    } else if end.StillGoing? && p.raises {
      HandleCrash(state, p.configs, p.lastResort);
    }
    W.RunEndsWell(v, p);
    W.RunOverlooksNone(v, p);
    if UniqueNames(v.jobs) {
      W.WholeRunKeeps(v, p);
    }
  }
}
