/** Results are not lost: once a job has come to its end, completed, or failed with its pod to
    be kept on failure, its pod is terminated only after a final sync that succeeded. */
module Results {
  import opened Base
  import opened State
  import opened Scheduler
  import opened JobSteps
  import opened JobFacts
  import opened Decisions
  import opened Lifecycle
  import opened RunFacts

  /** In the calls made between, every termination of the job's pod comes after a final sync
      of the job that succeeded. */
  ghost predicate SyncedFirst(before: seq<Call>, after: seq<Call>, name: Name) {
    && before <= after
    && forall k :: |before| <= k < |after| && after[k].Teardown? && after[k].job == name ==>
         exists j :: |before| <= j < k && after[j] == FinalSync(name, true)
  }

  /** The job has the outcome intended and its results are safe, or it waits on its own pod,
      which nobody was told to terminate. */
  ghost predicate Safe(j: Job, calls: seq<Call>, j': Job, calls': seq<Call>, status: Status) {
    && SyncedFirst(calls, calls', j.name)
    && j'.name == j.name && j'.podId == j.podId
    && (j'.status == status ||
        (j'.status == SyncFailed && HasPod(j') && forall k :: |calls| <= k < |calls'| ==>
           !(calls'[k].Teardown? && calls'[k].job == j.name)))
  }

  /** The end found is one whose results are wanted. */
  predicate WantsResults(cfg: JobConfig, status: Status) {
    status == Completed || (status == Failed && cfg.keepPodOnFailure)
  }

  /** The monitor's answer for a job makes its tick find such an end. */
  predicate ComesToEnd(j: Job, cfg: JobConfig, a: JobAnswer, status: Status) {
    a.Regular? && FindsEnd(j, cfg, a.tick, status) && WantsResults(cfg, status)
  }

  lemma EndIsSafe(l: Local, cfg: JobConfig, a: TickAnswers, status: Status)
    requires FindsEnd(l.job, cfg, a, status) && WantsResults(cfg, status)
    ensures var o := Tick(l, cfg, a); Safe(l.job, l.calls, o.at.job, o.at.calls, status)
  {
    hide Tick, Finish, FindsEnd;
    var c := EndIsFinish(l, cfg, a, status);
    FinishDecides(c, cfg, status, false, a.finish);
    FinishFacts(c, cfg, status, false, a.finish);
    var o := Tick(l, cfg, a);
    var synced := !cfg.hasSyncPaths || (l.job.ssh.Some? && a.finish.synced);
    assert o.at.calls[|l.calls|] == FinalSync(l.job.name, synced);
  }

  /** A failure whose pod is not to be kept terminates it, whatever the sync answers. */
  lemma UnwantedIsReleased(l: Local, cfg: JobConfig, a: TickAnswers)
    requires FindsEnd(l.job, cfg, a, Failed) && !cfg.keepPodOnFailure
    ensures var o := Tick(l, cfg, a);
      && o.at.job.status == Failed
      && (HasPod(l.job) ==> Teardown(l.job.name, l.job.podId.value, a.finish.tornDown) in o.at.calls[|l.calls|..])
  {
    hide Tick, Finish, FindsEnd;
    var c := EndIsFinish(l, cfg, a, Failed);
    FinishDecides(c, cfg, Failed, false, a.finish);
    if HasPod(l.job) {
      assert Tick(l, cfg, a).at.calls[|l.calls|..][1] == Teardown(l.job.name, l.job.podId.value, a.finish.tornDown);
    }
  }

  // ---- in a run ----

  lemma SafeAfterSilence(before: Run, v: Run, v': Run, m: nat, status: Status)
    requires m < |before.jobs| == |v.jobs| == |v'.jobs|
    requires Safe(before.jobs[m], before.calls, v.jobs[m], v.calls, status)
    requires v'.jobs[m] == v.jobs[m] && SilentOn(v.calls, v'.calls, v.jobs[m].name)
    ensures Safe(before.jobs[m], before.calls, v'.jobs[m], v'.calls, status)
  {
  }

  lemma SafeFromEarlier(earlier: seq<Call>, j: Job, calls: seq<Call>, j': Job, calls': seq<Call>, status: Status)
    requires SilentOn(earlier, calls, j.name) && Safe(j, calls, j', calls', status)
    ensures Safe(j, earlier, j', calls', status)
  {
  }

  lemma PassAtExit(start: Run, configs: Configs, v: Run, answer: nat -> JobAnswer, m: nat, status: Status)
    requires RunInv(start, v) && m < |v.jobs| && v.jobs[m].name in configs
    requires ComesToEnd(v.jobs[m], configs[v.jobs[m].name], answer(m), status)
    ensures var r := MonitorFrom(v, configs, answer, m).0;
      Safe(v.jobs[m], v.calls, r.jobs[m], r.calls, status)
  {
    hide RunInv, Tick, Monitored, Safe, SilentOn, Closed, OutcomesKept;
    var v' := Monitored(v, configs, answer(m), m);
    ExitMonitored(start, configs, v, answer(m), m, status);
    MonitoredKeeps(start, configs, v, answer(m), m);
    SafeIsTerminal(v.jobs[m], v.calls, v'.jobs[m], v'.calls, status);
    MonitorKeeps(start, configs, v', answer, m + 1);
    SafeAfterSilence(v, v', MonitorFrom(v', configs, answer, m + 1).0, m, status);
  }

  /** The monitor's pass reaches job `m`, which has come to its end. */
  lemma {:induction false} PassFindsExit(start: Run, configs: Configs, v: Run, answer: nat -> JobAnswer, k: nat,
                                         m: nat, status: Status)
    requires RunInv(start, v) && k <= m < |v.jobs|
    requires forall i: nat :: i < m ==> !answer(i).StoppedBy?
    requires v.jobs[m].name in configs
    requires ComesToEnd(v.jobs[m], configs[v.jobs[m].name], answer(m), status)
    ensures var r := MonitorFrom(v, configs, answer, k).0;
      Safe(v.jobs[m], v.calls, r.jobs[m], r.calls, status)
    decreases |v.jobs| - k
  {
    hide RunInv, Tick, Monitored, Safe, SilentOn, Closed, OutcomesKept, LeavesSettled;
    if k == m {
      PassAtExit(start, configs, v, answer, m, status);
    } else if !Active(v.jobs[k].status) || v.jobs[k].name !in configs {
      PassFindsExit(start, configs, v, answer, k + 1, m, status);
    } else {
      var v' := Monitored(v, configs, answer(k), k);
      MonitoredKeeps(start, configs, v, answer(k), k);
      OtherMonitored(start, configs, v, answer(k), k, m);
      PassFindsExit(start, configs, v', answer, k + 1, m, status);
      var r := MonitorFrom(v', configs, answer, k + 1).0;
      SafeFromEarlier(v.calls, v.jobs[m], v'.calls, r.jobs[m], r.calls, status);
    }
  }

  lemma SafeIsTerminal(j: Job, calls: seq<Call>, j': Job, calls': seq<Call>, status: Status)
    requires Safe(j, calls, j', calls', status) && status in {Completed, Failed}
    ensures Terminal(j'.status) && j'.name == j.name
  {
  }

  lemma OtherMonitored(start: Run, configs: Configs, v: Run, a: JobAnswer, k: nat, m: nat)
    requires RunInv(start, v) && k < |v.jobs| && m < |v.jobs| && k != m
    requires Active(v.jobs[k].status) && v.jobs[k].name in configs && v.jobs[m].status != Pending
    ensures var v' := Monitored(v, configs, a, k);
      v'.jobs[m] == v.jobs[m] && SilentOn(v.calls, v'.calls, v.jobs[m].name)
  {
    hide Monitor, Lawful, Apply, SilentOn;
    MonitorFacts(LocalOf(v, k), configs[v.jobs[k].name], a);
    StepLeavesOther(v, k, Monitor(LocalOf(v, k), configs[v.jobs[k].name], a), m);
  }

  lemma ExitMonitored(start: Run, configs: Configs, v: Run, a: JobAnswer, k: nat, status: Status)
    requires RunInv(start, v) && k < |v.jobs| && v.jobs[k].name in configs
    requires ComesToEnd(v.jobs[k], configs[v.jobs[k].name], a, status)
    ensures var v' := Monitored(v, configs, a, k);
      Safe(v.jobs[k], v.calls, v'.jobs[k], v'.calls, status)
  {
    hide Tick, Safe, Settle;
    var l, cfg := LocalOf(v, k), configs[v.jobs[k].name];
    EndIsSafe(l, cfg, a.tick, status);
    TickFacts(l, cfg, a.tick);
    SettledJob(v.jobs, k, Tick(l, cfg, a.tick).at.job, Tick(l, cfg, a.tick).spread);
  }

  /** From the tick in which the end is seen, however long the run goes on, the pod is
      terminated only after a final sync that succeeded; failing that it is kept, and no later
      tick touches the job. The budget stop is the one exception. */
  lemma ResultsNotLost(configs: Configs, v: Run, budget: real, script: seq<TickScript>, sleeps: seq<real>, m: nat,
                       status: Status)
    requires UniqueNames(v.jobs) && m < |v.jobs| && v.jobs[m].name in configs
    requires script != [] && (forall i: nat :: i < m ==> !script[0].job(i).StoppedBy?)
    requires ComesToEnd(v.jobs[m], configs[v.jobs[m].name], script[0].job(m), status)
    ensures var r := Loop(v, configs, budget, script, sleeps);
      !r.end.BudgetStop? ==> Safe(v.jobs[m], v.calls, r.v.jobs[m], r.v.calls, status)
  {
    hide RunInv, Safe, MonitorFrom, Start, TeardownFrom, Closed, OutcomesKept;
    BeginsInvariant(v);
    assert v.jobs[m] in v.jobs && !Terminal(v.jobs[m].status);
    var t := script[0];
    var x := MonitorTick(v, configs, t);
    TickSafe(configs, v, t, m, status);
    TickKeeps(v, configs, v, t);
    if !t.shutdownAfter && !BudgetReached(x.total, budget) && !t.shutdownAsleep {
      var r := Loop(x, configs, budget, script[1..], sleeps + [x.total]);
      LoopKeeps(v, configs, x, budget, script[1..], sleeps + [x.total]);
      SafeIsTerminal(v.jobs[m], v.calls, x.jobs[m], x.calls, status);
      if !r.end.BudgetStop? {
        SafeAfterSilence(v, x, r.v, m, status);
      }
    }
  }

  lemma BeginsInvariant(v: Run)
    requires UniqueNames(v.jobs)
    ensures RunInv(v, v)
  {
  }

  lemma TickSafe(configs: Configs, v: Run, t: TickScript, m: nat, status: Status)
    requires RunInv(v, v) && m < |v.jobs| && v.jobs[m].name in configs
    requires (forall i: nat :: i < m ==> !t.job(i).StoppedBy?)
    requires ComesToEnd(v.jobs[m], configs[v.jobs[m].name], t.job(m), status)
    ensures var x := MonitorTick(v, configs, t);
      Safe(v.jobs[m], v.calls, x.jobs[m], x.calls, status)
  {
    hide RunInv, Safe, Start, Closed, OutcomesKept, MonitorFrom;
    PassFindsExit(v, configs, v, t.job, 0, m, status);
    MonitorKeeps(v, configs, v, t.job, 0);
    var x := MonitorFrom(v, configs, t.job, 0).0;
    SafeIsTerminal(v.jobs[m], v.calls, x.jobs[m], x.calls, status);
    StartKeeps(v, configs, x, t.shutdownBeforeStart, t.start);
    SafeAfterSilence(v, x, Start(x, configs, t.shutdownBeforeStart, t.start), m, status);
  }
}
