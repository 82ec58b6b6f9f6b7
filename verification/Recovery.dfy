/** Recovery from a lost pod: when it starts, and how often it can happen. */
module Recovery {
  import opened Base
  import opened State
  import opened Scheduler
  import opened Scan
  import opened JobSteps
  import opened JobFacts
  import opened Lifecycle
  import opened RunFacts

  // ---- how often ----

  /** Re-provisions of a job, each of which begins with a backoff. */
  function Retries(calls: seq<Call>, name: Name): nat {
    if calls == [] then 0
    else
      var last := calls[|calls| - 1];
      Retries(calls[..|calls| - 1], name) + if last.Backoff? && last.job == name then 1 else 0
  }

  /** What is left of a job's attempts; nothing once it is over. */
  function Left(j: Job, cfg: JobConfig): nat {
    if Terminal(j.status) || j.attempts >= cfg.maxAttempts then 0 else cfg.maxAttempts - j.attempts
  }

  ghost predicate NoBackoff(before: seq<Call>, after: seq<Call>, name: Name) {
    before <= after && forall k :: |before| <= k < |after| ==> !(after[k].Backoff? && after[k].job == name)
  }

  lemma {:induction false} QuietRetries(before: seq<Call>, after: seq<Call>, name: Name)
    requires NoBackoff(before, after, name)
    ensures Retries(after, name) == Retries(before, name)
    decreases |after|
  {
    if |after| > |before| {
      QuietRetries(before, after[..|after| - 1], name);
    } else {
      assert before == after;
    }
  }

  lemma OneRetry(calls: seq<Call>, name: Name, seconds: real)
    ensures Retries(calls + [Backoff(name, seconds)], name) == Retries(calls, name) + 1
  {
  }

  /** The step spends at most what it takes from the attempts left. */
  ghost predicate Spends(l: Local, cfg: JobConfig, l': Local) {
    && Retries(l'.calls, l.job.name) + Left(l'.job, cfg) <= Retries(l.calls, l.job.name) + Left(l.job, cfg)
  }

  lemma PipelineRetries(l: Local, l': Local)
    requires PipelineKeeps(l, l')
    ensures Retries(l'.calls, l.job.name) == Retries(l.calls, l.job.name)
  {
    QuietRetries(l.calls, l'.calls, l.job.name);
  }

  lemma PipelineSpends(l: Local, cfg: JobConfig, l': Local)
    requires PipelineKeeps(l, l') && !Terminal(l.job.status)
    ensures Spends(l, cfg, l')
  {
    PipelineRetries(l, l');
  }

  lemma FinishSpends(l: Local, cfg: JobConfig, status: Status, force: bool, a: FinishAnswers)
    requires status in {Completed, Failed}
    ensures Spends(l, cfg, Finish(l, cfg, status, force, a).at)
  {
    hide Finish;
    var o := Finish(l, cfg, status, force, a);
    FinishQuiet(l, cfg, status, force, a);
    QuietRetries(l.calls, o.at.calls, l.job.name);
  }

  lemma RetryCounted(l: Local, cfg: JobConfig, tornDown: bool)
    ensures var b := BeforeRetry(l, cfg, tornDown);
      b.job == l.job && Retries(b.calls, l.job.name) == Retries(l.calls, l.job.name) + 1
  {
    var dead := ReleaseDead(l, tornDown);
    assert NoBackoff(l.calls, dead.calls, l.job.name);
    QuietRetries(l.calls, dead.calls, l.job.name);
    OneRetry(dead.calls, l.job.name, BackoffSeconds(cfg, l.job.attempts));
  }

  /** A recovery that is not interrupted ends the job or uses up an attempt. */
  lemma RecoverSpends(l: Local, cfg: JobConfig, a: RecoverAnswers)
    requires l.job.status == Running && !a.interrupted
    ensures Spends(l, cfg, Recover(l, cfg, a).at)
  {
    hide BeforeRetry, Pipeline, Retries, NoBackoff;
    if AttemptsLeft(l.job, cfg) {
      var b := BeforeRetry(l, cfg, a.tornDown);
      RetryCounted(l, cfg, a.tornDown);
      var p := b.(job := Podless(b.job));
      PipelineFacts(p, cfg, a.pipeline, false);
      PipelineRetries(p, Pipeline(p, cfg, a.pipeline, false).at);
    }
  }

  /** No step in this answer is cut short by a shutdown. */
  predicate Unstopped(a: JobAnswer) {
    a.Regular? ==> !a.tick.recover.interrupted
  }

  lemma SpendsThrough(l: Local, m: Local, cfg: JobConfig, l': Local)
    requires m.job.name == l.job.name && m.calls == l.calls && Left(m.job, cfg) == Left(l.job, cfg)
    requires Spends(m, cfg, l')
    ensures Spends(l, cfg, l')
  {
  }

  lemma GoneSpends(l: Local, cfg: JobConfig, existence: Tri, a: RecoverAnswers)
    requires l.job.status == Running && existence != Yes && !a.interrupted
    ensures Spends(l, cfg, TickGone(l, cfg, existence, a).at)
  {
    hide Recover;
    if existence == No {
      var c := l.(job := l.job.(gone := l.job.gone + 1));
      RecoverSpends(c, cfg, a);
      if c.job.gone >= Confirmations(cfg) {
        SpendsThrough(l, c, cfg, Recover(c, cfg, a).at);
      }
    }
  }

  lemma TickSpends(l0: Local, cfg: JobConfig, a: TickAnswers)
    requires l0.job.status == Running && !a.recover.interrupted
    ensures Spends(l0, cfg, Tick(l0, cfg, a).at)
  {
    var l := Accrue(l0, a.accrueAt);
    hide Accrue;
    assert l.calls == l0.calls && l.job.name == l0.job.name && Left(l.job, cfg) == Left(l0.job, cfg)
        && l.job.status == Running by {
      AccrueIsStep(l0, a.accrueAt);
      AccrueLeaves(l0, a.accrueAt, cfg);
    }
    hide Finish, TickGone, Spends, Left;
    if OverBudget(l.job, cfg) {
      FinishSpends(l, cfg, Failed, true, a.finish);
    } else {
      match Observed(l.job, a.process)
      case ExitedWith(code) =>
        ExitSpends(l, cfg, code, a.finish);
      case StillRunning => RunningSpends(l, cfg, a);
      case Vanished => VanishedSpends(l, cfg, a);
      case NoAnswer => NoAnswerSpends(l, cfg, a);
    }
    SpendsThrough(l0, l, cfg, Tick(l0, cfg, a).at);
  }

  lemma AccrueLeaves(l: Local, at: real, cfg: JobConfig)
    ensures var l' := Accrue(l, at);
      && l'.calls == l.calls && l'.job.name == l.job.name && Left(l'.job, cfg) == Left(l.job, cfg)
      && l'.job.status == l.job.status
  {
  }

  lemma PartlySpends(l: Local, at: real, cfg: JobConfig, reached: Reached)
    ensures var p := Partly(Accrue(l, at), cfg, reached);
      && p.calls == l.calls && p.job.name == l.job.name && Left(p.job, cfg) == Left(l.job, cfg)
      && p.job.status == l.job.status && p.job.attempts == l.job.attempts
  {
  }

  lemma ExitSpends(l: Local, cfg: JobConfig, code: int, a: FinishAnswers)
    ensures Spends(l, cfg, Finish(l.(job := l.job.(exitCode := Some(code))), cfg, ExitOutcome(code), false, a).at)
  {
    var c := l.(job := l.job.(exitCode := Some(code)));
    hide Finish;
    FinishSpends(c, cfg, ExitOutcome(code), false, a);
  }

  lemma RunningSpends(l: Local, cfg: JobConfig, a: TickAnswers)
    requires l.job.status == Running
    ensures Spends(l, cfg, TickRunning(l, cfg, a).at)
  {
    var c := l.(job := l.job.(idleSince := None, gone := 0));
    hide Finish;
    FinishSpends(c, cfg, Failed, false, a.finish);
  }

  lemma VanishedSpends(l: Local, cfg: JobConfig, a: TickAnswers)
    requires l.job.status == Running && !a.recover.interrupted
    ensures Spends(l, cfg, TickVanished(l, cfg, a).at)
  {
    var c := l.(job := l.job.(gone := 0));
    hide Finish, TickGone;
    FinishSpends(c, cfg, Completed, false, a.finish);
    var existence := if HasPod(l.job) then a.existence else No;
    if existence != Yes {
      GoneSpends(l, cfg, existence, a.recover);
    }
  }

  lemma NoAnswerSpends(l: Local, cfg: JobConfig, a: TickAnswers)
    requires l.job.status == Running && !a.recover.interrupted
    ensures Spends(l, cfg, TickNoAnswer(l, cfg, a).at)
  {
    var c := l.(job := l.job.(gone := 0));
    hide TickGone;
    LaunchFacts(c, a.launched, a.launchTornDown, a.now);
    PipelineSpends(c, cfg, Launch(c, a.launched, a.launchTornDown, a.now).at);
    hide Launch, PipelineKeeps;
    var existence := if HasPod(l.job) then a.existence else Unknown;
    if existence != Yes {
      GoneSpends(l, cfg, existence, a.recover);
    }
  }

  lemma ResumeSpends(l0: Local, cfg: JobConfig, a: ResumeAnswers)
    requires l0.job.status in {Provisioning, Deploying}
    ensures Spends(l0, cfg, Resume(l0, cfg, a).at)
  {
    var l := Accrue(l0, a.accrueAt);
    AccrueLeaves(l0, a.accrueAt, cfg);
    hide Accrue;
    if !(HasPod(l.job) && a.existence == Unknown) {
      var p := if HasPod(l.job) && a.existence == No then LosePod(l) else l;
      assert NoBackoff(l.calls, p.calls, l.job.name);
      QuietRetries(l.calls, p.calls, l.job.name);
      PipelineFacts(p, cfg, a.pipeline, true);
      PipelineSpends(p, cfg, Pipeline(p, cfg, a.pipeline, true).at);
    }
  }

  lemma MonitorSpends(l: Local, cfg: JobConfig, a: JobAnswer)
    requires Active(l.job.status) && Unstopped(a)
    ensures Spends(l, cfg, Monitor(l, cfg, a).at)
  {
    match a
    case Regular(tick, resume) =>
      if l.job.status == Running {
        TickSpends(l, cfg, tick);
      } else {
        ResumeSpends(l, cfg, resume);
      }
    case Transient(at, reached) => PartlySpends(l, at, cfg, reached);
    case StoppedBy(at, reached) => PartlySpends(l, at, cfg, reached);
    case Unexpected(at, reached, finish, raises) =>
      var b := Partly(Accrue(l, at), cfg, reached);
      PartlySpends(l, at, cfg, reached);
      if !raises {
        FinishSpends(b, cfg, Failed, false, finish);
        hide Accrue, Finish;
      }
  }

  // ---- over whole runs ----

  /** Between two states of a run, job `m` spends at most what its attempts left allow. */
  ghost predicate RunSpends(v: Run, v': Run, m: nat, cfg: JobConfig) {
    && m < |v.jobs| == |v'.jobs| && v'.jobs[m].name == v.jobs[m].name
    && Retries(v'.calls, v.jobs[m].name) + Left(v'.jobs[m], cfg) <=
         Retries(v.calls, v.jobs[m].name) + Left(v.jobs[m], cfg)
  }

  ghost predicate HasConfig(v: Run, configs: Configs, m: nat, cfg: JobConfig) {
    m < |v.jobs| && v.jobs[m].name in configs && configs[v.jobs[m].name] == cfg
  }

  lemma NothingSpent(v: Run, configs: Configs, m: nat, cfg: JobConfig)
    requires HasConfig(v, configs, m, cfg)
    ensures RunSpends(v, v, m, cfg)
  {
  }

  lemma SpendingAdds(a: Run, b: Run, c: Run, configs: Configs, m: nat, cfg: JobConfig)
    requires RunSpends(a, b, m, cfg) && (HasConfig(b, configs, m, cfg) ==> RunSpends(b, c, m, cfg))
    requires HasConfig(a, configs, m, cfg)
    ensures RunSpends(a, c, m, cfg)
  {
  }

  lemma ConfigStays(a: Run, b: Run, configs: Configs, m: nat, cfg: JobConfig)
    requires HasConfig(a, configs, m, cfg) && RunSpends(a, b, m, cfg)
    ensures HasConfig(b, configs, m, cfg)
  {
  }

  lemma StepSpends(v: Run, configs: Configs, k: nat, o: Outcome, m: nat, cfg: JobConfig)
    requires UniqueNames(v.jobs) && HasConfig(v, configs, m, cfg)
    requires k < |v.jobs| && v.jobs[k].name in configs
    requires Lawful(LocalOf(v, k), o) && Spends(LocalOf(v, k), configs[v.jobs[k].name], o.at)
    ensures RunSpends(v, Apply(v, k, o), m, cfg)
  {
    SettledJob(v.jobs, k, o.at.job, o.spread);
    if m != k {
      SkipAt(v.jobs[k := o.at.job], Apply(v, k, o).jobs, m);
      assert NoBackoff(v.calls, o.at.calls, v.jobs[m].name);
      QuietRetries(v.calls, o.at.calls, v.jobs[m].name);
    }
  }

  lemma MonitoredSpends(start: Run, configs: Configs, v: Run, a: JobAnswer, k: nat, m: nat, cfg: JobConfig)
    requires RunInv(start, v) && HasConfig(v, configs, m, cfg)
    requires k < |v.jobs| && Active(v.jobs[k].status) && v.jobs[k].name in configs && Unstopped(a)
    ensures RunSpends(v, Monitored(v, configs, a, k), m, cfg)
  {
    var l, own := LocalOf(v, k), configs[v.jobs[k].name];
    hide Monitor, Spends;
    MonitorFacts(l, own, a);
    MonitorSpends(l, own, a);
    StepSpends(v, configs, k, Monitor(l, own, a), m, cfg);
  }

  lemma {:induction false} MonitorPassSpends(start: Run, configs: Configs, v: Run, answer: nat -> JobAnswer, k: nat,
                                             m: nat, cfg: JobConfig)
    requires RunInv(start, v) && k <= |v.jobs| && HasConfig(v, configs, m, cfg)
    requires forall i: nat :: Unstopped(answer(i))
    ensures RunSpends(v, MonitorFrom(v, configs, answer, k).0, m, cfg)
    decreases |v.jobs| - k
  {
    hide RunInv, Monitored, RunSpends, HasConfig, OutcomesKept, LeavesSettled, Closed;
    NothingSpent(v, configs, m, cfg);
    if k < |v.jobs| {
      if !Active(v.jobs[k].status) || v.jobs[k].name !in configs {
        MonitorPassSpends(start, configs, v, answer, k + 1, m, cfg);
      } else {
        MonitoredSpends(start, configs, v, answer(k), k, m, cfg);
        MonitoredKeeps(start, configs, v, answer(k), k);
        if !answer(k).StoppedBy? {
          var v' := Monitored(v, configs, answer(k), k);
          ConfigStays(v, v', configs, m, cfg);
          MonitorPassSpends(start, configs, v', answer, k + 1, m, cfg);
          SpendingAdds(v, v', MonitorFrom(v', configs, answer, k + 1).0, configs, m, cfg);
        }
      }
    }
  }

  lemma StartedSpends(start: Run, configs: Configs, v: Run, i: nat, a: PipelineAnswers, m: nat, cfg: JobConfig)
    requires RunInv(start, v) && HasConfig(v, configs, m, cfg)
    requires i < |v.jobs| && v.jobs[i].status == Pending && v.jobs[i].name in configs
    ensures RunSpends(v, Started(v, configs, i, a), m, cfg)
  {
    var l, own := LocalOf(v, i), configs[v.jobs[i].name];
    var o := Pipeline(l, own, a, false);
    hide Pipeline, Spends;
    PipelineFacts(l, own, a, false);
    PipelineSpends(l, own, o.at);
    PipelineLawful(l, own, a);
    StepSpends(v, configs, i, o, m, cfg);
  }

  lemma {:induction false} StartsSpend(start: Run, configs: Configs, v: Run, ready: seq<nat>,
                                       answer: nat -> PipelineAnswers, m: nat, cfg: JobConfig)
    requires RunInv(start, v) && AllReady(v.jobs, configs.Keys, ready) && HasConfig(v, configs, m, cfg)
    ensures RunSpends(v, StartInOrder(v, configs, ready, answer), m, cfg)
    decreases |ready|
  {
    hide RunInv, Pipeline, RunSpends, HasConfig, OutcomesKept, LeavesSettled, Closed;
    NothingSpent(v, configs, m, cfg);
    if ready != [] {
      StartedKeeps(start, configs, v, ready, answer(ready[0]));
      assert ReadyToStart(v.jobs, configs.Keys, ready[0]);
      StartedSpends(start, configs, v, ready[0], answer(ready[0]), m, cfg);
      var v' := Started(v, configs, ready[0], answer(ready[0]));
      hide Apply, AllReady;
      ConfigStays(v, v', configs, m, cfg);
      StartsSpend(start, configs, v', ready[1..], answer, m, cfg);
      SpendingAdds(v, v', StartInOrder(v', configs, ready[1..], answer), configs, m, cfg);
    }
  }

  lemma StartSpends(start: Run, configs: Configs, v: Run, shutdown: bool, answer: nat -> PipelineAnswers, m: nat,
                    cfg: JobConfig)
    requires RunInv(start, v) && HasConfig(v, configs, m, cfg)
    ensures RunSpends(v, Start(v, configs, shutdown, answer), m, cfg)
  {
    if !shutdown {
      ScanKeeps(start, configs, v);
      var (jobs, ready) := ScanFrom(v.jobs, configs.Keys, 0, []);
      SkipAt(v.jobs, jobs, m);
      hide RunInv, AllReady, StartInOrder, Retries;
      StartsSpend(start, configs, v.(jobs := jobs), ready, answer, m, cfg);
    }
  }

  /** No shutdown is requested while this tick runs. */
  ghost predicate QuietTick(t: TickScript) {
    forall i: nat :: Unstopped(t.job(i))
  }

  lemma TickSpendsRun(start: Run, configs: Configs, v: Run, t: TickScript, m: nat, cfg: JobConfig)
    requires RunInv(start, v) && HasConfig(v, configs, m, cfg) && QuietTick(t)
    ensures RunSpends(v, MonitorTick(v, configs, t), m, cfg)
  {
    hide RunInv, Start, MonitorFrom, RunSpends, HasConfig, OutcomesKept, LeavesSettled, Closed;
    MonitorKeeps(start, configs, v, t.job, 0);
    MonitorPassSpends(start, configs, v, t.job, 0, m, cfg);
    var x := MonitorFrom(v, configs, t.job, 0).0;
    ConfigStays(v, x, configs, m, cfg);
    StartSpends(start, configs, x, t.shutdownBeforeStart, t.start, m, cfg);
    SpendingAdds(v, x, Start(x, configs, t.shutdownBeforeStart, t.start), configs, m, cfg);
  }

  lemma TornDownSpends(start: Run, configs: Configs, v: Run, k: nat, a: FinishAnswers, m: nat, cfg: JobConfig)
    requires RunInv(start, v) && HasConfig(v, configs, m, cfg)
    requires k < |v.jobs| && Live(v.jobs[k].status) && v.jobs[k].name in configs
    ensures RunSpends(v, Apply(v, k, Finish(LocalOf(v, k), configs[v.jobs[k].name], Failed, true, a)), m, cfg)
  {
    var l, own := LocalOf(v, k), configs[v.jobs[k].name];
    hide Finish, Spends;
    FinishFacts(l, own, Failed, true, a);
    FinishSpends(l, own, Failed, true, a);
    StepSpends(v, configs, k, Finish(l, own, Failed, true, a), m, cfg);
  }

  lemma {:induction false} TeardownSpends(start: Run, configs: Configs, v: Run, answer: nat -> FinishAnswers, k: nat,
                                          m: nat, cfg: JobConfig)
    requires RunInv(start, v) && k <= |v.jobs| && HasConfig(v, configs, m, cfg)
    ensures RunSpends(v, TeardownFrom(v, configs, answer, k), m, cfg)
    decreases |v.jobs| - k
  {
    hide RunInv, Apply, Finish, RunSpends, HasConfig, OutcomesKept, Closed;
    NothingSpent(v, configs, m, cfg);
    if k < |v.jobs| {
      if !Live(v.jobs[k].status) || v.jobs[k].name !in configs {
        TeardownSpends(start, configs, v, answer, k + 1, m, cfg);
      } else {
        TornDownSpends(start, configs, v, k, answer(k), m, cfg);
        TornDownKeeps(start, configs, v, answer(k), k);
        var v' := Apply(v, k, Finish(LocalOf(v, k), configs[v.jobs[k].name], Failed, true, answer(k)));
        ConfigStays(v, v', configs, m, cfg);
        TeardownSpends(start, configs, v', answer, k + 1, m, cfg);
        SpendingAdds(v, v', TeardownFrom(v', configs, answer, k + 1), configs, m, cfg);
      }
    }
  }

  lemma {:induction false} LoopSpends(start: Run, configs: Configs, v: Run, budget: real, script: seq<TickScript>,
                                      sleeps: seq<real>, m: nat, cfg: JobConfig)
    requires RunInv(start, v) && HasConfig(v, configs, m, cfg)
    requires forall t :: t in script ==> QuietTick(t)
    ensures RunSpends(v, Loop(v, configs, budget, script, sleeps).v, m, cfg)
    decreases |script|
  {
    hide RunInv, MonitorTick, TeardownFrom, RunSpends, HasConfig, Lifecycle.AllDone, QuietTick, OutcomesKept,
      LeavesSettled, Closed;
    NothingSpent(v, configs, m, cfg);
    if !Lifecycle.AllDone(v.jobs) && script != [] {
      var t := script[0];
      var x := MonitorTick(v, configs, t);
      TickKeeps(start, configs, v, t);
      TickSpendsRun(start, configs, v, t, m, cfg);
      ConfigStays(v, x, configs, m, cfg);
      TeardownSpends(start, configs, x, t.teardown, 0, m, cfg);
      if !t.shutdownAfter && !BudgetReached(x.total, budget) && !t.shutdownAsleep {
        LoopSpends(start, configs, x, budget, script[1..], sleeps + [x.total], m, cfg);
      }
      SpendingAdds(v, x, if t.shutdownAfter then x else Loop(v, configs, budget, script, sleeps).v, configs, m, cfg);
    }
  }

  /** In a run without shutdown each job is re-provisioned at most as often as it had attempts
      left when the run began, whatever the provider does. */
  lemma BoundedRecovery(configs: Configs, v: Run, budget: real, answer: nat -> PipelineAnswers, script: seq<TickScript>,
                        m: nat, cfg: JobConfig)
    requires UniqueNames(v.jobs) && HasConfig(v, configs, m, cfg)
    requires forall t :: t in script ==> QuietTick(t)
    ensures var r := Loop(Start(v, configs, false, answer), configs, budget, script, []).v;
      Retries(r.calls, v.jobs[m].name) - Retries(v.calls, v.jobs[m].name)
        <= if cfg.maxAttempts > v.jobs[m].attempts then cfg.maxAttempts - v.jobs[m].attempts else 0
  {
    var s := Start(v, configs, false, answer);
    StartKeeps(v, configs, v, false, answer);
    StartSpends(v, configs, v, false, answer, m, cfg);
    ConfigStays(v, s, configs, m, cfg);
    LoopSpends(v, configs, s, budget, script, [], m, cfg);
    hide Start, Loop, Retries;
  }

  // ---- how long it waits ----

  lemma {:induction false} Pow2Grows(a: int, b: int)
    requires a <= b
    ensures 0.0 < Pow2(a) <= Pow2(b)
    decreases if a < 0 then -a else a, if b < 0 then -b else b
  {
    if a == 0 && b == 0 {
    } else if b > 0 {
      if a <= b - 1 {
        if a > 0 { Pow2Grows(a - 1, b - 1); } else { Pow2Grows(a, b - 1); }
      } else {
        Pow2Grows(a - 1, b - 1);
      }
    } else {
      Pow2Grows(a + 1, if b < 0 then b + 1 else b);
    }
  }

  /** The wait before a re-provision never exceeds base * 2^(max - 2). */
  lemma BackoffBounded(l: Local, cfg: JobConfig, tornDown: bool)
    requires AttemptsLeft(l.job, cfg) && cfg.backoffBase >= 0.0
    ensures var b := BeforeRetry(l, cfg, tornDown);
      b.calls != [] && b.calls[|b.calls| - 1].Backoff? &&
      0.0 <= b.calls[|b.calls| - 1].seconds <= cfg.backoffBase * Pow2(cfg.maxAttempts - 2)
  {
    var x, y := Pow2(l.job.attempts - 1), Pow2(cfg.maxAttempts - 2);
    Pow2Grows(l.job.attempts - 1, cfg.maxAttempts - 2);
    assert cfg.backoffBase * (y - x) >= 0.0 && cfg.backoffBase * x >= 0.0;
  }
}
