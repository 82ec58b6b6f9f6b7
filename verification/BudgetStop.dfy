/** The budget: the loop never goes to sleep with the budget spent, and the stop leaves
    nothing running. */
module BudgetStop {
  import opened Base
  import opened State
  import Ledger
  import opened Propagation
  import opened Scheduler
  import opened JobSteps
  import opened JobFacts
  import opened Lifecycle

  ghost predicate Affordable(budget: real, sleeps: seq<real>) {
    forall k :: 0 <= k < |sleeps| ==> budget <= 0.0 || sleeps[k] < budget
  }

  /** Whenever the loop goes to sleep the budget is off or not reached; so at the stop the
      overshoot is less than what was spent since the check before it. */
  lemma {:induction false} SleepsOnlyWithinBudget(v: Run, configs: Configs, budget: real, script: seq<TickScript>,
                                                  sleeps: seq<real>)
    requires Affordable(budget, sleeps)
    ensures var r := Loop(v, configs, budget, script, sleeps);
      && Affordable(budget, r.sleeps) && sleeps <= r.sleeps
      && (r.end.BudgetStop? ==>
            && budget > 0.0 && r.end.totalAtCheck >= budget
            && (r.sleeps != [] ==>
                  r.end.totalAtCheck - budget < r.end.totalAtCheck - r.sleeps[|r.sleeps| - 1]))
    decreases |script|
  {
    hide MonitorTick, TeardownFrom, Lifecycle.AllDone;
    if !Lifecycle.AllDone(v.jobs) && script != [] {
      var m := MonitorTick(v, configs, script[0]);
      if !script[0].shutdownAfter && !BudgetReached(m.total, budget) && !script[0].shutdownAsleep {
        SleepsOnlyWithinBudget(m, configs, budget, script[1..], sleeps + [m.total]);
      }
    }
  }

  // ---- the forced teardown ----

  predicate ToTearDown(j: Job, configs: Configs) {
    Live(j.status) && j.name in configs
  }

  ghost predicate ClearBelow(jobs: seq<Job>, configs: Configs, k: nat) {
    forall m :: 0 <= m < |jobs| && m < k ==> !ToTearDown(jobs[m], configs)
  }

  ghost predicate TeardownRequested(before: seq<Call>, after: seq<Call>, j: Job) {
    before <= after &&
    (HasPod(j) ==> exists k, ok :: |before| <= k < |after| && after[k] == Teardown(j.name, j.podId.value, ok))
  }

  ghost predicate StopLogged(log: seq<CostEvent>, j: Job) {
    HasPod(j) ==> StopRecorded(log, j.podId)
  }

  ghost function Forced(v: Run, configs: Configs, k: nat, a: FinishAnswers): (r: Run)
    requires k < |v.jobs| && v.jobs[k].name in configs
    ensures |r.jobs| == |v.jobs|
  {
    Apply(v, k, Finish(LocalOf(v, k), configs[v.jobs[k].name], Failed, true, a))
  }

  lemma ForcedFinish(l: Local, cfg: JobConfig, a: FinishAnswers)
    ensures var o := Finish(l, cfg, Failed, true, a);
      TeardownRequested(l.calls, o.at.calls, l.job) && StopLogged(o.at.log, l.job) && o.at.job.podId == l.job.podId
  {
    var o := Finish(l, cfg, Failed, true, a);
    if HasPod(l.job) {
      assert o.at.calls[|l.calls| + 1] == Teardown(l.job.name, l.job.podId.value, a.tornDown);
      var c := Accrue(AfterRelease(AfterSync(l, cfg, a), cfg, Failed, a).(job := l.job.(finishedAt := Some(a.now))),
                      a.later);
      Ledger.RecordStopAdds(c.log, l.job.podId, Finished(Failed), Some(c.job.cost));
    }
  }

  /** One forced finish: that job fails with its teardown requested and its stop logged; every
      other live job is as before. */
  lemma ForcedStep(v: Run, configs: Configs, k: nat, a: FinishAnswers)
    requires k < |v.jobs| && ToTearDown(v.jobs[k], configs) && ClearBelow(v.jobs, configs, k)
    ensures var r := Forced(v, configs, k, a);
      && ClearBelow(r.jobs, configs, k + 1)
      && SameShape(v.jobs, r.jobs) && !Live(r.jobs[k].status)
      && TeardownRequested(v.calls, r.calls, v.jobs[k]) && StopLogged(r.log, v.jobs[k]) && v.log <= r.log
      && (forall m :: 0 <= m < |v.jobs| && m != k ==> r.jobs[m] == v.jobs[m] || NewlySkipped(v.jobs, r.jobs, m))
  {
    hide Finish, TeardownRequested, StopLogged, Settle;
    var l, cfg := LocalOf(v, k), configs[v.jobs[k].name];
    var o := Finish(l, cfg, Failed, true, a);
    FinishFacts(l, cfg, Failed, true, a);
    ForcedFinish(l, cfg, a);
    SettleKeepsOutcomes(v.jobs, k, o.at.job, o.spread);
    SettledJob(v.jobs, k, o.at.job, o.spread);
    var mid, r := v.jobs[k := o.at.job], Forced(v, configs, k, a);
    forall m | 0 <= m < |v.jobs| && m != k ensures r.jobs[m] == v.jobs[m] || NewlySkipped(v.jobs, r.jobs, m) {
      assert r.jobs[m] == mid[m] || NewlySkipped(mid, r.jobs, m);
    }
  }

  /** After the teardown no configured job is live or waits with its sync failed, and each one
      that was, and had a pod, has its termination requested and its stop logged. */
  lemma {:induction false} TeardownClears(v: Run, configs: Configs, answer: nat -> FinishAnswers, k: nat)
    requires k <= |v.jobs| && ClearBelow(v.jobs, configs, k)
    ensures var r := TeardownFrom(v, configs, answer, k);
      && ClearBelow(r.jobs, configs, |r.jobs|)
      && v.calls <= r.calls && v.log <= r.log
      && forall m :: 0 <= m < |v.jobs| && ToTearDown(v.jobs[m], configs) ==>
           TeardownRequested(v.calls, r.calls, v.jobs[m]) && StopLogged(r.log, v.jobs[m])
    decreases |v.jobs| - k
  {
    hide Apply, TeardownRequested, StopLogged, ClearBelow, NewlySkipped;
    if k < |v.jobs| {
      if !ToTearDown(v.jobs[k], configs) {
        ClearOneMore(v.jobs, configs, k);
        TeardownClears(v, configs, answer, k + 1);
      } else {
        var v' := Forced(v, configs, k, answer(k));
        ForcedStep(v, configs, k, answer(k));
        TeardownClears(v', configs, answer, k + 1);
        var r := TeardownFrom(v', configs, answer, k + 1);
        LaterRequests(v, v', r, configs, k);
      }
    } else {
      NothingToClear(v, configs);
    }
  }

  lemma ClearOneMore(jobs: seq<Job>, configs: Configs, k: nat)
    requires ClearBelow(jobs, configs, k) && k < |jobs| && !ToTearDown(jobs[k], configs)
    ensures ClearBelow(jobs, configs, k + 1)
  {
  }

  lemma NothingToClear(v: Run, configs: Configs)
    requires ClearBelow(v.jobs, configs, |v.jobs|)
    ensures forall m :: 0 <= m < |v.jobs| ==> !ToTearDown(v.jobs[m], configs)
  {
  }

  lemma LaterRequests(v: Run, v': Run, r: Run, configs: Configs, k: nat)
    requires |v'.jobs| == |v.jobs| && k < |v.jobs|
    requires forall m :: 0 <= m < |v.jobs| && m != k ==> v'.jobs[m] == v.jobs[m] || NewlySkipped(v.jobs, v'.jobs, m)
    requires TeardownRequested(v.calls, v'.calls, v.jobs[k]) && StopLogged(v'.log, v.jobs[k])
    requires v'.calls <= r.calls && v.log <= v'.log <= r.log
    requires forall m :: 0 <= m < |v.jobs| && ToTearDown(v'.jobs[m], configs) ==>
               TeardownRequested(v'.calls, r.calls, v'.jobs[m]) && StopLogged(r.log, v'.jobs[m])
    ensures v.calls <= r.calls
    ensures forall m :: 0 <= m < |v.jobs| && ToTearDown(v.jobs[m], configs) ==>
              TeardownRequested(v.calls, r.calls, v.jobs[m]) && StopLogged(r.log, v.jobs[m])
  {
  }

  /** A run stopped by the budget has nothing live left. */
  lemma {:induction false} BudgetStopClears(v: Run, configs: Configs, budget: real, script: seq<TickScript>,
                                            sleeps: seq<real>)
    ensures var r := Loop(v, configs, budget, script, sleeps);
      r.end.BudgetStop? ==> ClearBelow(r.v.jobs, configs, |r.v.jobs|)
    decreases |script|
  {
    hide MonitorTick, Lifecycle.AllDone, TeardownFrom;
    if !Lifecycle.AllDone(v.jobs) && script != [] {
      var m := MonitorTick(v, configs, script[0]);
      TeardownClears(m, configs, script[0].teardown, 0);
      if !script[0].shutdownAfter && !BudgetReached(m.total, budget) && !script[0].shutdownAsleep {
        BudgetStopClears(m, configs, budget, script[1..], sleeps + [m.total]);
      }
    }
  }

  // ---- how the loop ends ----

  /** By itself only when every job is over; with the script at its end when it has slept once
      for every entry; by a shutdown only where the script asks for one, and by the budget only
      where it is reached. */
  lemma {:induction false} LoopEnds(v: Run, configs: Configs, budget: real, script: seq<TickScript>, sleeps: seq<real>)
    ensures var r := Loop(v, configs, budget, script, sleeps);
      && |sleeps| <= |r.sleeps| <= |sleeps| + |script|
      && var k := |r.sleeps| - |sleeps|;
      && (r.end.Done? ==> forall j :: j in r.v.jobs ==> j.status in {Completed, Failed, Skipped, SyncFailed})
      && (r.end.StillGoing? ==>
            k == |script| && exists j :: j in r.v.jobs && j.status in {Pending, Provisioning, Deploying, Running})
      && (r.end.ShutdownRequested? ==>
            (k < |script| && script[k].shutdownAfter) || (k > 0 && script[k - 1].shutdownAsleep))
      && (r.end.BudgetStop? ==>
            && k < |script| && budget > 0.0 && r.end.totalAtCheck >= budget
            && forall j :: j in r.v.jobs && j.name in configs ==>
                 j.status !in {Provisioning, Deploying, Running, SyncFailed})
    decreases |script|
  {
    hide MonitorTick, TeardownFrom;
    if !Lifecycle.AllDone(v.jobs) && script != [] {
      var t, m := script[0], MonitorTick(v, configs, script[0]);
      if t.shutdownAfter {
      } else if BudgetReached(m.total, budget) {
        TeardownClears(m, configs, t.teardown, 0);
        ClearMeans(TeardownFrom(m, configs, t.teardown, 0).jobs, configs);
      } else if !t.shutdownAsleep {
        LoopEnds(m, configs, budget, script[1..], sleeps + [m.total]);
        assert forall k :: 0 < k < |script| ==> script[1..][k - 1] == script[k];
      }
    } else if !Lifecycle.AllDone(v.jobs) {
      var j :| j in v.jobs && !Terminal(j.status);
      NotOver(j.status);
    }
  }

  lemma NotOver(s: Status)
    requires !Terminal(s)
    ensures s in {Pending, Provisioning, Deploying, Running}
  {
    match s
    case Pending =>
    case Provisioning =>
    case Deploying =>
    case _ =>
  }

  lemma ClearMeans(jobs: seq<Job>, configs: Configs)
    requires ClearBelow(jobs, configs, |jobs|)
    ensures forall j :: j in jobs && j.name in configs ==> j.status !in {Provisioning, Deploying, Running, SyncFailed}
  {
  }
}
