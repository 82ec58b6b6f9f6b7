/** Every job gets its step: the monitor's pass comes to every job under way, and the start
    phase to every job that is ready; nobody else is touched. */
module Attention {
  import opened Base
  import opened State
  import opened Propagation
  import opened Scheduler
  import opened Scan
  import opened JobSteps
  import opened JobFacts
  import opened Decisions
  import opened Lifecycle
  import opened RunFacts
  import S = StartAgrees

  // ---- a step depends on nothing but its own job ----

  ghost predicate SameJob(o: Outcome, x: Outcome) {
    o.at.job == x.at.job && o.spread == x.spread
  }

  lemma FinishJobOnly(l: Local, m: Local, cfg: JobConfig, status: Status, force: bool, a: FinishAnswers)
    requires l.job == m.job
    ensures SameJob(Finish(l, cfg, status, force, a), Finish(m, cfg, status, force, a))
  {
    hide RecordStop;
  }

  lemma RecoverJobOnly(l: Local, m: Local, cfg: JobConfig, a: RecoverAnswers)
    requires l.job == m.job
    ensures SameJob(Recover(l, cfg, a), Recover(m, cfg, a))
  {
    hide Pipeline;
    RecoverDecides(l, cfg, a);
    RecoverDecides(m, cfg, a);
    if AttemptsLeft(l.job, cfg) && !a.interrupted {
      var b, c := BeforeRetry(l, cfg, a.tornDown), BeforeRetry(m, cfg, a.tornDown);
      S.PipelineJobOnly(b.(job := Podless(b.job)), c.(job := Podless(c.job)), cfg, a.pipeline, false);
    }
  }

  lemma GoneJobOnly(l: Local, m: Local, cfg: JobConfig, existence: Tri, a: RecoverAnswers)
    requires l.job == m.job && existence != Yes
    ensures SameJob(TickGone(l, cfg, existence, a), TickGone(m, cfg, existence, a))
  {
    hide Recover;
    var j := l.job.(gone := l.job.gone + 1);
    RecoverJobOnly(l.(job := j), m.(job := j), cfg, a);
  }

  lemma TickJobOnly(l0: Local, m0: Local, cfg: JobConfig, a: TickAnswers)
    requires l0.job == m0.job
    ensures SameJob(Tick(l0, cfg, a), Tick(m0, cfg, a))
  {
    hide Finish, TickGone, StallTimer, SyncTimer;
    var l, m := Accrue(l0, a.accrueAt), Accrue(m0, a.accrueAt);
    if OverBudget(l.job, cfg) {
      FinishJobOnly(l, m, cfg, Failed, true, a.finish);
    } else {
      match Observed(l.job, a.process)
      case ExitedWith(code) =>
        var j := l.job.(exitCode := Some(code));
        FinishJobOnly(l.(job := j), m.(job := j), cfg, ExitOutcome(code), false, a.finish);
      case StillRunning =>
        var j := l.job.(idleSince := None, gone := 0);
        FinishJobOnly(l.(job := j), m.(job := j), cfg, Failed, false, a.finish);
      case Vanished =>
        var j := l.job.(gone := 0);
        FinishJobOnly(l.(job := j), m.(job := j), cfg, Completed, false, a.finish);
        var existence := if HasPod(l.job) then a.existence else No;
        if existence != Yes {
          GoneJobOnly(l, m, cfg, existence, a.recover);
        }
      case NoAnswer =>
        var existence := if HasPod(l.job) then a.existence else Unknown;
        if existence != Yes {
          GoneJobOnly(l, m, cfg, existence, a.recover);
        }
    }
  }

  lemma ResumedJobOnly(l0: Local, m0: Local, cfg: JobConfig, a: ResumeAnswers)
    requires l0.job == m0.job
    ensures SameJob(Resume(l0, cfg, a), Resume(m0, cfg, a))
  {
    hide Pipeline;
    var l, m := Accrue(l0, a.accrueAt), Accrue(m0, a.accrueAt);
    if HasPod(l.job) && a.existence == No {
      S.PipelineJobOnly(LosePod(l), LosePod(m), cfg, a.pipeline, true);
    } else {
      S.PipelineJobOnly(l, m, cfg, a.pipeline, true);
    }
  }

  lemma MonitorJobOnly(l: Local, m: Local, cfg: JobConfig, a: JobAnswer)
    requires l.job == m.job
    ensures SameJob(Monitor(l, cfg, a), Monitor(m, cfg, a))
  {
    hide Tick, Resume, Finish, StallTimer;
    match a
    case Regular(tick, resume) =>
      TickJobOnly(l, m, cfg, tick);
      ResumedJobOnly(l, m, cfg, resume);
    case Transient(_, _) =>
    case StoppedBy(_, _) =>
    case Unexpected(at, reached, finish, _) =>
      FinishJobOnly(Partly(Accrue(l, at), cfg, reached), Partly(Accrue(m, at), cfg, reached), cfg, Failed, false,
                    finish);
  }

  // ---- the monitor's pass ----

  /** The job by itself. */
  function Alone(j: Job): Local {
    Local(j, 0.0, [], [])
  }

  /** Nothing happened to the job, unless it was pending, not all its dependencies were
      completed, and it was skipped. */
  ghost predicate LeftAlone(before: seq<Job>, after: seq<Job>, m: nat)
    requires m < |before| == |after|
  {
    || after[m] == before[m]
    || (before[m].status == Pending && !DepsCompleted(before, before[m]) && after[m] == before[m].(status := Skipped))
  }

  predicate UnderWay(j: Job, configs: Configs) {
    j.status in {Provisioning, Deploying, Running} && j.name in configs
  }

  /** A shutdown ends the pass at some configured job under way, from `k` on and before `m`. */
  ghost predicate StopsBefore(v: Run, configs: Configs, answer: nat -> JobAnswer, k: nat, m: nat) {
    exists i: nat :: k <= i < m && i < |v.jobs| && UnderWay(v.jobs[i], configs) && answer(i).StoppedBy?
  }

  ghost predicate Ends(v: Run, configs: Configs, answer: nat -> JobAnswer, k: nat) {
    StopsBefore(v, configs, answer, k, |v.jobs|)
  }

  /** From job `k` on and until a shutdown ends the pass, a configured job under way has become
      what its own step makes of it. */
  ghost predicate Attended(v: Run, r: Run, configs: Configs, answer: nat -> JobAnswer, k: nat, m: nat)
    requires m < |v.jobs| == |r.jobs|
  {
    if k <= m && UnderWay(v.jobs[m], configs) && !StopsBefore(v, configs, answer, k, m)
    then r.jobs[m] == Monitor(Alone(v.jobs[m]), configs[v.jobs[m].name], answer(m)).at.job
    else LeftAlone(v.jobs, r.jobs, m)
  }

  /** Another job settles. */
  lemma SettleLeavesAlone(jobs: seq<Job>, i: nat, j: Job, spread: bool)
    requires UniqueNames(jobs) && i < |jobs| && Legal(jobs[i], j, spread)
    ensures var r := Settle(jobs, i, j, spread);
      && r[i] == j && UniqueNames(r) && OutcomesKept(jobs, r)
      && forall m :: 0 <= m < |jobs| && m != i ==> LeftAlone(jobs, r, m)
  {
    hide Settle;
    var r := Settle(jobs, i, j, spread);
    SettledJob(jobs, i, j, spread);
    SettleKeepsOutcomes(jobs, i, j, spread);
    KeepsNames(jobs, r, {});
    forall m | 0 <= m < |jobs| && m != i ensures LeftAlone(jobs, r, m) {
      var mid := jobs[i := j];
      assert r[m] == mid[m] || NewlySkipped(mid, r, m);
      if jobs[m].status == Pending && DepsCompleted(jobs, jobs[m]) {
        ReadyStays(jobs, i, j, spread, m);
      }
    }
  }

  lemma LeftAloneThrough(a: seq<Job>, b: seq<Job>, c: seq<Job>, m: nat)
    requires m < |a| == |b| == |c| && OutcomesKept(a, b) && LeftAlone(a, b, m) && LeftAlone(b, c, m)
    ensures LeftAlone(a, c, m)
  {
    if DepsCompleted(a, a[m]) {
      CompletedDepsKept(a, b, a[m]);
    }
  }

  lemma OneAttended(v: Run, configs: Configs, a: JobAnswer, k: nat)
    requires UniqueNames(v.jobs) && k < |v.jobs| && UnderWay(v.jobs[k], configs)
    ensures var o, r := Monitor(Alone(v.jobs[k]), configs[v.jobs[k].name], a), Monitored(v, configs, a, k);
      && r.jobs[k] == o.at.job && o.at.job.status != Pending && UniqueNames(r.jobs) && OutcomesKept(v.jobs, r.jobs)
      && (forall m :: 0 <= m < |v.jobs| && m != k ==> LeftAlone(v.jobs, r.jobs, m))
      && (o.spread ==> Shut(r.jobs, v.jobs[k].name))
  {
    hide Monitor, Settle, LeftAlone, StepKeeps;
    var l, cfg := LocalOf(v, k), configs[v.jobs[k].name];
    MonitorJobOnly(l, Alone(v.jobs[k]), cfg, a);
    MonitorFacts(l, cfg, a);
    var o := Monitor(l, cfg, a);
    SettleLeavesAlone(v.jobs, k, o.at.job, o.spread);
    if o.spread {
      SpreadShuts(v.jobs, k, o.at.job);
    }
  }

  lemma SpreadShuts(jobs: seq<Job>, i: nat, j: Job)
    requires i < |jobs|
    ensures Shut(Settle(jobs, i, j, true), j.name)
  {
    PropagatedIsClosed(jobs[i := j], j.name);
  }

  lemma AttendedThrough(v: Run, v': Run, r: Run, configs: Configs, answer: nat -> JobAnswer, k: nat, m: nat)
    requires k < |v.jobs| == |v'.jobs| == |r.jobs| && m < |v.jobs| && OutcomesKept(v.jobs, v'.jobs)
    requires UnderWay(v.jobs[k], configs) && v'.jobs[k].status != Pending
    requires v'.jobs[k] == Monitor(Alone(v.jobs[k]), configs[v.jobs[k].name], answer(k)).at.job
    requires m != k ==> LeftAlone(v.jobs, v'.jobs, m)
    requires StopsBefore(v, configs, answer, k, m) <==> StopsBefore(v', configs, answer, k + 1, m)
    requires Attended(v', r, configs, answer, k + 1, m)
    ensures Attended(v, r, configs, answer, k, m)
  {
    hide Monitor, OutcomesKept, DepsCompleted, StopsBefore;
    NotBeforeItself(v, configs, answer, k);
    if m != k && !(k + 1 <= m && UnderWay(v'.jobs[m], configs) && !StopsBefore(v', configs, answer, k + 1, m)) {
      LeftAloneThrough(v.jobs, v'.jobs, r.jobs, m);
    }
  }

  lemma NotBeforeItself(v: Run, configs: Configs, answer: nat -> JobAnswer, k: nat)
    ensures !StopsBefore(v, configs, answer, k, k)
  {
  }

  /** A pass attends to every job it comes to, and to no other; and it is cut short exactly by
      a shutdown that strikes at a configured job under way. */
  lemma {:induction false} PassAttends(v: Run, configs: Configs, answer: nat -> JobAnswer, k: nat)
    requires UniqueNames(v.jobs) && k <= |v.jobs|
    ensures var (r, cut) := MonitorFrom(v, configs, answer, k);
      && (cut <==> Ends(v, configs, answer, k))
      && forall m :: 0 <= m < |v.jobs| ==> Attended(v, r, configs, answer, k, m)
    decreases |v.jobs| - k
  {
    hide Monitor, Monitored, UniqueNames, OutcomesKept, DepsCompleted, StopsBefore;
    if k < |v.jobs| {
      var (r, cut) := MonitorFrom(v, configs, answer, k);
      if !UnderWay(v.jobs[k], configs) {
        PassAttends(v, configs, answer, k + 1);
        forall m | 0 <= m <= |v.jobs|
          ensures StopsBefore(v, configs, answer, k, m) <==> StopsBefore(v, configs, answer, k + 1, m)
        {
          StopsLater(v, v, configs, answer, k, m);
        }
        forall m | 0 <= m < |v.jobs| ensures Attended(v, r, configs, answer, k, m) {
          assert Attended(v, r, configs, answer, k + 1, m);
        }
      } else {
        var v' := Monitored(v, configs, answer(k), k);
        OneAttended(v, configs, answer(k), k);
        if answer(k).StoppedBy? {
          StopsHere(v, configs, answer, k);
        } else {
          PassAttends(v', configs, answer, k + 1);
          StopsLater(v, v', configs, answer, k, |v.jobs|);
          forall m | 0 <= m < |v.jobs| ensures Attended(v, r, configs, answer, k, m) {
            StopsLater(v, v', configs, answer, k, m);
            AttendedThrough(v, v', r, configs, answer, k, m);
          }
        }
      }
    } else {
      NoneLeft(v, configs, answer, k);
    }
  }

  lemma NoneLeft(v: Run, configs: Configs, answer: nat -> JobAnswer, k: nat)
    requires k == |v.jobs|
    ensures !Ends(v, configs, answer, k)
  {
  }

  lemma StopsHere(v: Run, configs: Configs, answer: nat -> JobAnswer, k: nat)
    requires k < |v.jobs| && UnderWay(v.jobs[k], configs) && answer(k).StoppedBy?
    ensures forall m: nat :: StopsBefore(v, configs, answer, k, m) <==> k < m
  {
  }

  lemma StopsLater(v: Run, v': Run, configs: Configs, answer: nat -> JobAnswer, k: nat, m: nat)
    requires k < |v.jobs| == |v'.jobs| && !(UnderWay(v.jobs[k], configs) && answer(k).StoppedBy?)
    requires forall i :: 0 <= i < |v.jobs| && i != k ==> LeftAlone(v.jobs, v'.jobs, i)
    ensures StopsBefore(v, configs, answer, k, m) <==> StopsBefore(v', configs, answer, k + 1, m)
  {
    hide DepsCompleted;
    if StopsBefore(v, configs, answer, k, m) {
      var i: nat :| k <= i < m && i < |v.jobs| && UnderWay(v.jobs[i], configs) && answer(i).StoppedBy?;
      assert LeftAlone(v.jobs, v'.jobs, i) && UnderWay(v'.jobs[i], configs);
    }
    if StopsBefore(v', configs, answer, k + 1, m) {
      var i: nat :| k + 1 <= i < m && i < |v'.jobs| && UnderWay(v'.jobs[i], configs) && answer(i).StoppedBy?;
      assert LeftAlone(v.jobs, v'.jobs, i) && UnderWay(v.jobs[i], configs);
    }
  }

  /** What is true of a whole pass. */
  ghost predicate WellAttended(v: Run, r: Run, configs: Configs, answer: nat -> JobAnswer, cut: bool) {
    && |v.jobs| == |r.jobs| && (cut <==> Ends(v, configs, answer, 0))
    && forall m :: 0 <= m < |v.jobs| ==> Attended(v, r, configs, answer, 0, m)
  }

  lemma PassIsWellAttended(v: Run, configs: Configs, answer: nat -> JobAnswer)
    requires UniqueNames(v.jobs)
    ensures WellAttended(v, MonitorFrom(v, configs, answer, 0).0, configs, answer, MonitorFrom(v, configs, answer, 0).1)
  {
    PassAttends(v, configs, answer, 0);
  }

  /** A job persisted mid-flight is billed and resumed by the next pass that comes to it: it
      runs or has failed, unless its pipeline was told to stop or nobody can tell whether its
      pod is there. */
  lemma MidFlightIsResumed(v: Run, configs: Configs, answer: nat -> JobAnswer, m: nat)
    requires UniqueNames(v.jobs) && m < |v.jobs| && !StopsBefore(v, configs, answer, 0, m)
    requires v.jobs[m].status in {Provisioning, Deploying} && v.jobs[m].name in configs
    requires answer(m).Regular? && RunsToEnd(answer(m).resume.pipeline)
    requires HasPod(v.jobs[m]) ==> answer(m).resume.existence != Unknown
    ensures var j := MonitorFrom(v, configs, answer, 0).0.jobs[m];
      j.status in {Running, Failed} && j.cost == Accrued(v.jobs[m], answer(m).resume.accrueAt).cost
  {
    hide MonitorFrom, Pipeline, RunsToEnd, StopsBefore;
    PassAttends(v, configs, answer, 0);
    assert Attended(v, MonitorFrom(v, configs, answer, 0).0, configs, answer, 0, m);
    var l := Accrue(Alone(v.jobs[m]), answer(m).resume.accrueAt);
    var p := if HasPod(l.job) && answer(m).resume.existence == No then LosePod(l) else l;
    PipelineFacts(p, configs[v.jobs[m].name], answer(m).resume.pipeline, true);
  }

  // ---- failures at the level of the pass ----

  lemma {:induction false} SpreadReaches(v: Run, configs: Configs, answer: nat -> JobAnswer, k: nat, m: nat)
    requires UniqueNames(v.jobs) && k <= m < |v.jobs| && UnderWay(v.jobs[m], configs)
    requires !StopsBefore(v, configs, answer, k, m)
    requires Monitor(Alone(v.jobs[m]), configs[v.jobs[m].name], answer(m)).spread
    ensures Shut(MonitorFrom(v, configs, answer, k).0.jobs, v.jobs[m].name)
    decreases |v.jobs| - k
  {
    hide Monitor, Monitored, UniqueNames, OutcomesKept, DepsCompleted, StopsBefore;
    if !UnderWay(v.jobs[k], configs) {
      StopsLater(v, v, configs, answer, k, m);
      SpreadReaches(v, configs, answer, k + 1, m);
    } else {
      var v' := Monitored(v, configs, answer(k), k);
      OneAttended(v, configs, answer(k), k);
      if m == k {
        if !answer(k).StoppedBy? {
          PassAttends(v', configs, answer, k + 1);
          ShutStays(v', MonitorFrom(v', configs, answer, k + 1).0, configs, answer, k + 1, v.jobs[m].name);
        }
      } else {
        NotStopped(v, configs, answer, k, m);
        StopsLater(v, v', configs, answer, k, m);
        assert LeftAlone(v.jobs, v'.jobs, m);
        SpreadReaches(v', configs, answer, k + 1, m);
      }
    }
  }

  lemma NotStopped(v: Run, configs: Configs, answer: nat -> JobAnswer, k: nat, m: nat)
    requires k < m && k < |v.jobs| && UnderWay(v.jobs[k], configs) && !StopsBefore(v, configs, answer, k, m)
    ensures !answer(k).StoppedBy?
  {
  }

  /** No job becomes pending during a pass. */
  lemma ShutStays(v: Run, r: Run, configs: Configs, answer: nat -> JobAnswer, k: nat, name: Name)
    requires |v.jobs| == |r.jobs| && Shut(v.jobs, name)
    requires forall m :: 0 <= m < |v.jobs| ==> Attended(v, r, configs, answer, k, m)
    ensures Shut(r.jobs, name)
  {
    hide Monitor, DepsCompleted, StopsBefore;
    forall p | 0 <= p < |r.jobs| && DependsOn(r.jobs[p], name) ensures r.jobs[p].status != Pending {
      assert Attended(v, r, configs, answer, k, p);
      if k <= p && UnderWay(v.jobs[p], configs) {
        MonitorFacts(Alone(v.jobs[p]), configs[v.jobs[p].name], answer(p));
      }
    }
  }

  /** After the pass that sees a job exit with a code other than 0, or finds it stalled, no
      pending job depends on it. */
  lemma FailedEndLeavesNoDependents(v: Run, configs: Configs, answer: nat -> JobAnswer, m: nat)
    requires UniqueNames(v.jobs) && m < |v.jobs| && v.jobs[m].name in configs
    requires !StopsBefore(v, configs, answer, 0, m) && answer(m).Regular?
    requires FindsEnd(v.jobs[m], configs[v.jobs[m].name], answer(m).tick, Failed)
    ensures var r := MonitorFrom(v, configs, answer, 0).0;
      && r.jobs[m].status in {Failed, SyncFailed}
      && forall p :: 0 <= p < |r.jobs| && v.jobs[m].name in r.jobs[p].dependsOn ==> r.jobs[p].status != Pending
  {
    hide MonitorFrom, Tick, Finish, StopsBefore;
    var l, cfg := Alone(v.jobs[m]), configs[v.jobs[m].name];
    var c := EndIsFinish(l, cfg, answer(m).tick, Failed);
    FinishDecides(c, cfg, Failed, false, answer(m).tick.finish);
    FinishFacts(c, cfg, Failed, false, answer(m).tick.finish);
    PassAttends(v, configs, answer, 0);
    var r := MonitorFrom(v, configs, answer, 0).0;
    assert Attended(v, r, configs, answer, 0, m);
    SpreadReaches(v, configs, answer, 0, m);
    forall p | 0 <= p < |r.jobs| && v.jobs[m].name in r.jobs[p].dependsOn ensures r.jobs[p].status != Pending {
      assert DependsOn(r.jobs[p], v.jobs[m].name);
    }
  }

  // ---- the start phase ----

  /** The job is pending, configured, and each of its dependencies is completed. */
  ghost predicate Due(jobs: seq<Job>, configs: Configs, m: nat)
    requires m < |jobs|
  {
    jobs[m].status == Pending && jobs[m].name in configs && DepsCompleted(jobs, jobs[m])
  }

  /** A listed job has become what its own pipeline makes of it. */
  ghost predicate StartedIn(v: Run, r: Run, configs: Configs, answer: nat -> PipelineAnswers, chosen: bool, m: nat)
    requires m < |v.jobs| == |r.jobs|
  {
    if chosen && v.jobs[m].name in configs
    then r.jobs[m] == Pipeline(Alone(v.jobs[m]), configs[v.jobs[m].name], answer(m), false).at.job
    else LeftAlone(v.jobs, r.jobs, m)
  }

  lemma OneStarted(v: Run, configs: Configs, i: nat, a: PipelineAnswers)
    requires UniqueNames(v.jobs) && i < |v.jobs| && v.jobs[i].status == Pending && v.jobs[i].name in configs
    ensures var r := Started(v, configs, i, a);
      && r.jobs[i] == Pipeline(Alone(v.jobs[i]), configs[v.jobs[i].name], a, false).at.job
      && UniqueNames(r.jobs) && OutcomesKept(v.jobs, r.jobs)
      && forall m :: 0 <= m < |v.jobs| && m != i ==> LeftAlone(v.jobs, r.jobs, m)
  {
    hide Pipeline, Settle, LeftAlone, StepKeeps;
    var l, cfg := LocalOf(v, i), configs[v.jobs[i].name];
    S.PipelineJobOnly(l, Alone(v.jobs[i]), cfg, a, false);
    PipelineLawful(l, cfg, a);
    var o := Pipeline(l, cfg, a, false);
    SettleLeavesAlone(v.jobs, i, o.at.job, o.spread);
  }

  lemma {:induction false} InOrderStarts(v: Run, configs: Configs, ready: seq<nat>, answer: nat -> PipelineAnswers)
    requires UniqueNames(v.jobs) && AllReady(v.jobs, configs.Keys, ready)
    ensures var r := StartInOrder(v, configs, ready, answer);
      forall m: nat :: m < |v.jobs| ==> StartedIn(v, r, configs, answer, m in ready, m)
    decreases |ready|
  {
    hide Pipeline, UniqueNames, OutcomesKept, DepsCompleted, Apply;
    if ready != [] {
      var i := ready[0];
      assert ReadyToStart(v.jobs, configs.Keys, i);
      var v' := Started(v, configs, i, answer(i));
      OneStarted(v, configs, i, answer(i));
      StillReady(v, configs, ready, answer(i));
      InOrderStarts(v', configs, ready[1..], answer);
      var r := StartInOrder(v', configs, ready[1..], answer);
      forall m: nat | m < |v.jobs| ensures StartedIn(v, r, configs, answer, m in ready, m) {
        assert StartedIn(v', r, configs, answer, m in ready[1..], m);
        StartedThrough(v, v', r, configs, ready, answer, m);
      }
    }
  }

  lemma StillReady(v: Run, configs: Configs, ready: seq<nat>, a: PipelineAnswers)
    requires UniqueNames(v.jobs) && AllReady(v.jobs, configs.Keys, ready) && ready != [] && ready[0] < |v.jobs|
    requires v.jobs[ready[0]].name in configs && v.jobs[ready[0]].status == Pending
    ensures AllReady(Started(v, configs, ready[0], a).jobs, configs.Keys, ready[1..])
    ensures forall k :: 0 < k < |ready| ==>
              ready[k] < |v.jobs| && Started(v, configs, ready[0], a).jobs[ready[k]] == v.jobs[ready[k]]
    ensures var r := Started(v, configs, ready[0], a).jobs; DepsCompleted(r, r[ready[0]])
  {
    hide Pipeline, Settle, StepKeeps, DepsCompleted;
    var i := ready[0];
    var l, cfg := LocalOf(v, i), configs[v.jobs[i].name];
    PipelineLawful(l, cfg, a);
    var o := Pipeline(l, cfg, a, false);
    OthersStayReady(v.jobs, configs.Keys, ready, o.at.job, o.spread);
    forall k | 0 < k < |ready|
      ensures ready[k] < |v.jobs| && Started(v, configs, i, a).jobs[ready[k]] == v.jobs[ready[k]]
    {
      assert ReadyToStart(v.jobs, configs.Keys, ready[k]);
      ReadyStays(v.jobs, i, o.at.job, o.spread, ready[k]);
    }
    assert ReadyToStart(v.jobs, configs.Keys, i);
    SettleKeepsOutcomes(v.jobs, i, o.at.job, o.spread);
    CompletedDepsKept(v.jobs, Started(v, configs, i, a).jobs, v.jobs[i]);
    SameDeps(Started(v, configs, i, a).jobs, v.jobs[i], Started(v, configs, i, a).jobs[i]);
  }

  lemma SameDeps(jobs: seq<Job>, j: Job, j': Job)
    requires DepsCompleted(jobs, j) && j'.dependsOn == j.dependsOn
    ensures DepsCompleted(jobs, j')
  {
  }

  lemma StartedThrough(v: Run, v': Run, r: Run, configs: Configs, ready: seq<nat>, answer: nat -> PipelineAnswers,
                       m: nat)
    requires |v.jobs| == |v'.jobs| == |r.jobs| && m < |v.jobs| && OutcomesKept(v.jobs, v'.jobs)
    requires AllReady(v.jobs, configs.Keys, ready) && ready != [] && v.jobs[ready[0]].name in configs
    requires v'.jobs[ready[0]] == Pipeline(Alone(v.jobs[ready[0]]), configs[v.jobs[ready[0]].name], answer(ready[0]),
                                           false).at.job
    requires DepsCompleted(v'.jobs, v'.jobs[ready[0]])
    requires forall k :: 0 < k < |ready| ==> v'.jobs[ready[k]] == v.jobs[ready[k]]
    requires m != ready[0] ==> LeftAlone(v.jobs, v'.jobs, m)
    requires StartedIn(v', r, configs, answer, m in ready[1..], m)
    ensures StartedIn(v, r, configs, answer, m in ready, m)
  {
    hide Pipeline, OutcomesKept, DepsCompleted;
    assert ready == [ready[0]] + ready[1..];
    if m in ready[1..] {
      var k: nat :| k < |ready[1..]| && ready[1..][k] == m;
      assert ReadyToStart(v.jobs, configs.Keys, ready[k + 1]) && v'.jobs[m] == v.jobs[m];
    } else if m != ready[0] {
      LeftAloneThrough(v.jobs, v'.jobs, r.jobs, m);
    }
  }

  /** A start phase runs the pipeline of every due job, and of no other; no other job changes,
      unless it is skipped. */
  lemma StartAttends(v: Run, configs: Configs, answer: nat -> PipelineAnswers)
    requires UniqueNames(v.jobs)
    ensures var r := Start(v, configs, false, answer);
      forall m: nat :: m < |v.jobs| ==> StartedIn(v, r, configs, answer, Due(v.jobs, configs, m), m)
  {
    hide Pipeline, StartInOrder, RunInv, LeavesSettled, OutcomesKept, Closed;
    var (jobs, ready) := ScanFrom(v.jobs, configs.Keys, 0, []);
    S.Beginning(v);
    ScanKeeps(v, configs, v);
    var s := v.(jobs := jobs);
    InvNames(v, s);
    InOrderStarts(s, configs, ready, answer);
    var r := Start(v, configs, false, answer);
    forall m: nat | m < |v.jobs| ensures StartedIn(v, r, configs, answer, Due(v.jobs, configs, m), m) {
      assert StartedIn(s, r, configs, answer, m in ready, m);
      ScannedDue(v, s, configs, ready, m);
      if m !in ready {
        LeftAloneThrough(v.jobs, jobs, r.jobs, m);
      }
    }
  }

  lemma InvNames(start: Run, v: Run)
    requires RunInv(start, v)
    ensures UniqueNames(v.jobs) && SkipsJustified(start.jobs, v.jobs)
  {
  }

  /** The scan lists exactly the due jobs, and leaves those as they are. */
  lemma ScannedDue(v: Run, s: Run, configs: Configs, ready: seq<nat>, m: nat)
    requires m < |v.jobs| && UniqueNames(v.jobs) && UniqueNames(s.jobs) && OnlySkips(v.jobs, s.jobs)
    requires SkipsJustified(v.jobs, s.jobs) && ReadyBelow(s.jobs, configs.Keys, |s.jobs|, ready)
    ensures |s.jobs| == |v.jobs| && (m in ready <==> Due(v.jobs, configs, m)) && LeftAlone(v.jobs, s.jobs, m)
    ensures Due(v.jobs, configs, m) ==> s.jobs[m] == v.jobs[m]
  {
    hide DepsMet, HasSpoiledDep, UniqueNames, DepsCompleted, StatusOf;
    SkipAt(v.jobs, s.jobs, m);
    DepsMetUnderSkips(v.jobs, s.jobs, v.jobs[m]);
    MetIsCompleted(v.jobs, v.jobs[m]);
    assert s.jobs[m] == v.jobs[m] || NewlySkipped(v.jobs, s.jobs, m);
    if s.jobs[m] != v.jobs[m] {
      SpoiledNotCompleted(v.jobs, s.jobs, m);
    }
  }

  lemma SpoiledNotCompleted(a: seq<Job>, b: seq<Job>, m: nat)
    requires UniqueNames(a) && OnlySkips(a, b) && m < |a| && HasSpoiledDep(b, b[m])
    ensures !DepsCompleted(a, a[m])
  {
    SkipAt(a, b, m);
    var k :| 0 <= k < |b| && DependsOn(b[m], b[k].name) && b[k].status in {Failed, Skipped, SyncFailed};
    SkipAt(a, b, k);
    assert a[k].name in a[m].dependsOn && !IsCompleted(a, a[k].name);
  }

  lemma MetIsCompleted(jobs: seq<Job>, j: Job)
    requires UniqueNames(jobs)
    ensures DepsMet(jobs, j) <==> DepsCompleted(jobs, j)
  {
    if DepsMet(jobs, j) {
      DepsMetMeansCompleted(jobs, j);
    }
    if DepsCompleted(jobs, j) {
      forall d | d in j.dependsOn ensures StatusOf(jobs, d) == Some(Completed) {
        assert IsCompleted(jobs, d);
        var k :| 0 <= k < |jobs| && jobs[k].name == d && jobs[k].status == Completed;
        StatusOfAt(jobs, k);
      }
    }
  }

  // ---- a whole tick ----

  /** A tick that a shutdown cuts short, in its pass or before its start phase, starts no
      pending job; any other starts exactly those that are due after the pass. */
  lemma TickStarts(v: Run, configs: Configs, t: TickScript)
    requires UniqueNames(v.jobs)
    ensures var m, r := MonitorFrom(v, configs, t.job, 0).0, MonitorTick(v, configs, t);
      if Ends(v, configs, t.job, 0) || t.shutdownBeforeStart
      then forall i :: 0 <= i < |v.jobs| && v.jobs[i].status == Pending ==> LeftAlone(v.jobs, r.jobs, i)
      else forall i: nat :: i < |v.jobs| ==> StartedIn(m, r, configs, t.start, Due(m.jobs, configs, i), i)
  {
    hide MonitorFrom, ScanFrom, StartInOrder, Due, StartedIn, Ends, LeftAlone, StopsBefore, RunInv,
      LeavesSettled, Closed, OutcomesKept;
    PassAttends(v, configs, t.job, 0);
    S.Beginning(v);
    MonitorKeeps(v, configs, v, t.job, 0);
    var m := MonitorFrom(v, configs, t.job, 0).0;
    forall i | 0 <= i < |v.jobs| && v.jobs[i].status == Pending ensures LeftAlone(v.jobs, m.jobs, i) {
      assert Attended(v, m, configs, t.job, 0, i);
    }
    InvNames(v, m);
    StartAttends(m, configs, t.start);
  }
}
