/** A whole run, from its reconciliation with the provider's instances to its end: by itself,
    by the budget, by a shutdown, or by an exception. */
module WholeRun {
  import opened State
  import opened Ledger
  import opened Propagation
  import opened Scheduler
  import opened JobSteps
  import opened Lifecycle
  import opened RunFacts
  import B = BudgetStop
  import R = Reconcile
  import S = Shutdown

  /** Everything the world does during one run. */
  datatype Plan = Plan(
    configs: Configs,
    runId: string,
    listed: seq<R.Listed>,
    matching: R.Answers,
    budget: real,
    stopBeforeStart: bool,                  // shutdown requested while reconciling
    stopInStart: bool,                      // shutdown requested in the first start phase
    start: nat -> PipelineAnswers,
    script: seq<TickScript>,
    tearDown: bool,                         // a shutdown tears down rather than detaches
    interrupt: nat -> S.InterruptAnswers,
    raises: bool,                           // an exception ends the loop where the script ends
    lastResort: nat -> FinishAnswers)

  /** Some pod that may still exist belongs to a job that asks for a teardown on a crash. */
  predicate CrashTearsDown(jobs: seq<Job>, configs: Configs) {
    exists i :: 0 <= i < |jobs| && Live(jobs[i].status) && HasPod(jobs[i]) &&
                jobs[i].name in configs && configs[jobs[i].name].teardownOnCrash
  }

  ghost function Crashed(v: Run, configs: Configs, answer: nat -> FinishAnswers): (r: Run)
    ensures |r.jobs| == |v.jobs|
  {
    if CrashTearsDown(v.jobs, configs) then TeardownFrom(v, configs, answer, 0) else v
  }

  ghost function Matched(v: Run, p: Plan): Run {
    R.All(v, p.configs, p.runId, p.listed, p.matching)
  }

  /** The run up to the end of its loop, */
  ghost function Looped(v: Run, p: Plan): (r: LoopResult)
    ensures |r.v.jobs| == |v.jobs|
  {
    var s := Start(Matched(v, p), p.configs, p.stopBeforeStart, p.start);
    if p.stopBeforeStart || p.stopInStart then LoopResult(s, ShutdownRequested, [])
    else Loop(s, p.configs, p.budget, p.script, [])
  }

  /** and what follows. */
  ghost function Ended(l: LoopResult, p: Plan): (r: Run)
    ensures |r.jobs| == |l.v.jobs|
  {
    if l.end.ShutdownRequested? && p.tearDown then S.GracefulFrom(l.v, p.configs, p.interrupt, 0)
    else if l.end.StillGoing? && p.raises then Crashed(l.v, p.configs, p.lastResort)
    else l.v
  }

  /** What is true of a run that began in `v` and was matched to `m`. */
  ghost predicate Kept(v: Run, m: Run, r: Run) {
    && UniqueNames(r.jobs) && OutcomesKept(v.jobs, r.jobs) && SkipsJustified(v.jobs, r.jobs)
    && Drift(r) == Drift(v) && (UniqueStops(v.log) ==> UniqueStops(r.log))
    && (DepSafe(m.jobs) ==> DepSafe(r.jobs))
  }

  lemma OutcomesCompose(a: seq<Job>, b: seq<Job>, c: seq<Job>)
    requires OutcomesKept(a, b) && OutcomesKept(b, c)
    ensures OutcomesKept(a, c)
  {
  }

  lemma MatchingKeeps(v: Run, p: Plan)
    requires UniqueNames(v.jobs)
    ensures Kept(v, Matched(v, p), Matched(v, p)) && RunInv(Matched(v, p), Matched(v, p))
    ensures Closed(v.jobs, p.configs.Keys) ==> Closed(Matched(v, p).jobs, p.configs.Keys)
    ensures forall i :: 0 <= i < |v.jobs| ==> (Matched(v, p).jobs[i].status == Skipped <==> v.jobs[i].status == Skipped)
  {
    hide R.All, Closed, DepSafe, UniqueStops, Drift;
    R.ReconcileKeepsOutcomes(v, p.configs, p.runId, p.listed, p.matching, p.configs.Keys);
    R.OnlyOwnPodsTouched(v, p.configs, p.runId, p.listed, p.matching);
  }

  /** The invariants of the matched run are those of the run. */
  lemma InvIsKept(v: Run, m: Run, r: Run)
    requires Kept(v, m, m) && RunInv(m, r) && OutcomesKept(m.jobs, r.jobs)
    requires |m.jobs| == |v.jobs| && forall i :: 0 <= i < |v.jobs| ==>
               (m.jobs[i].status == Skipped <==> v.jobs[i].status == Skipped)
    ensures Kept(v, m, r)
  {
    OutcomesCompose(v.jobs, m.jobs, r.jobs);
  }

  lemma LoopedKeeps(v: Run, p: Plan)
    requires UniqueNames(v.jobs)
    ensures Kept(v, Matched(v, p), Looped(v, p).v)
    ensures RunInv(Matched(v, p), Looped(v, p).v) && OutcomesKept(Matched(v, p).jobs, Looped(v, p).v.jobs)
    ensures !p.stopBeforeStart || Closed(v.jobs, p.configs.Keys) ==> Closed(Looped(v, p).v.jobs, p.configs.Keys)
  {
    hide Matched, Start, Loop, RunInv, Kept, Closed, LeavesSettled;
    var m := Matched(v, p);
    MatchingKeeps(v, p);
    var s := Start(m, p.configs, p.stopBeforeStart, p.start);
    StartKeeps(m, p.configs, m, p.stopBeforeStart, p.start);
    LoopKeeps(m, p.configs, s, p.budget, p.script, []);
    OutcomesCompose(m.jobs, s.jobs, Loop(s, p.configs, p.budget, p.script, []).v.jobs);
    InvIsKept(v, m, Looped(v, p).v);
  }

  lemma GracefulKeeps(start: Run, v: Run, configs: Configs, answer: nat -> S.InterruptAnswers)
    requires RunInv(start, v)
    ensures RunInv(start, S.GracefulFrom(v, configs, answer, 0))
    ensures OutcomesKept(v.jobs, S.GracefulFrom(v, configs, answer, 0).jobs)
  {
    hide S.GracefulFrom, UniqueStops, Drift;
    var r := S.GracefulFrom(v, configs, answer, 0);
    S.GracefulFacts(v, configs, answer, 0);
    forall i | 0 <= i < |r.jobs| && r.jobs[i].status == Skipped && start.jobs[i].status != Skipped
      ensures HasSpoiledDep(r.jobs, r.jobs[i])
    {
      assert HasSpoiledDep(v.jobs, v.jobs[i]);
      var k :| 0 <= k < |v.jobs| && DependsOn(v.jobs[i], v.jobs[k].name) &&
        v.jobs[k].status in {Failed, Skipped, SyncFailed};
      assert DependsOn(r.jobs[i], r.jobs[k].name) && r.jobs[k] == v.jobs[k];
    }
    if DepSafe(v.jobs) {
      GracefulDepSafe(v.jobs, r.jobs, configs);
    }
  }

  lemma GracefulDepSafe(a: seq<Job>, b: seq<Job>, configs: Configs)
    requires DepSafe(a) && SameShape(a, b)
    requires forall m :: 0 <= m < |a| ==> b[m] == a[m] || (S.ToInterrupt(a[m], configs) && b[m].status == Failed)
    ensures DepSafe(b)
  {
    forall i | 0 <= i < |b| && (Active(b[i].status) || b[i].status == Completed) ensures DepsCompleted(b, b[i]) {
      assert DepsCompleted(a, a[i]);
      forall d | d in b[i].dependsOn ensures IsCompleted(b, d) {
        assert IsCompleted(a, d);
        var k :| 0 <= k < |a| && a[k].name == d && a[k].status == Completed;
        assert b[k] == a[k];
      }
    }
  }

  lemma CrashedKeeps(start: Run, v: Run, configs: Configs, answer: nat -> FinishAnswers)
    requires RunInv(start, v)
    ensures RunInv(start, Crashed(v, configs, answer)) && OutcomesKept(v.jobs, Crashed(v, configs, answer).jobs)
    ensures Closed(v.jobs, configs.Keys) ==> Closed(Crashed(v, configs, answer).jobs, configs.Keys)
  {
    hide RunInv, Closed, TeardownFrom;
    TeardownKeeps(start, configs, v, answer, 0);
  }

  /** The one way to end with a configured pending job that depends on a failed one: a shutdown
      that tears down a job somebody waits for. */
  ghost predicate LeavesOpen(l: LoopResult, p: Plan) {
    l.end.ShutdownRequested? && p.tearDown && S.SomeoneWaits(l.v.jobs, p.configs)
  }

  /** Every whole run, whatever the world does: outcomes are final, every skip has a spoiled
      dependency, the spend and the cost counters move together, no pod gets a second stop
      event; the order of the dependencies is kept from the matching on; and no configured
      pending job depends on a failed or skipped one at the end, exactly unless a shutdown
      leaves it so. */
  lemma WholeRunKeeps(v: Run, p: Plan)
    requires UniqueNames(v.jobs)
    ensures Kept(v, Matched(v, p), Ended(Looped(v, p), p))
    ensures !p.stopBeforeStart || Closed(v.jobs, p.configs.Keys) ==>
              (Closed(Ended(Looped(v, p), p).jobs, p.configs.Keys) <==> !LeavesOpen(Looped(v, p), p))
  {
    hide Matched, Looped, Crashed, RunInv, Kept, Closed, S.GracefulFrom, S.SomeoneWaits;
    var m, l := Matched(v, p), Looped(v, p);
    MatchingKeeps(v, p);
    LoopedKeeps(v, p);
    GracefulKeeps(m, l.v, p.configs, p.interrupt);
    S.ShutdownClosure(l.v, p.configs, p.interrupt);
    CrashedKeeps(m, l.v, p.configs, p.lastResort);
    OutcomesCompose(m.jobs, l.v.jobs, S.GracefulFrom(l.v, p.configs, p.interrupt, 0).jobs);
    OutcomesCompose(m.jobs, l.v.jobs, Crashed(l.v, p.configs, p.lastResort).jobs);
    InvIsKept(v, m, Ended(l, p));
  }

  // ---- how a whole run ends ----

  /** What the end of a run leaves: by itself, every job over; by the budget or a shutdown that
      tears down, nothing of it under way; after an exception, no live pod of a job that asks
      for a teardown. A shutdown before the loop is the end of it, and a loop that ends for no
      reason has gone through its script. */
  ghost predicate EndsWell(end: LoopEnd, sleeps: seq<real>, jobs: seq<Job>, p: Plan) {
    && (p.stopBeforeStart || p.stopInStart ==> end.ShutdownRequested? && sleeps == [])
    && (end.Done? ==> forall j :: j in jobs ==> j.status in {Completed, Failed, Skipped, SyncFailed})
    && (end.StillGoing? ==> |sleeps| == |p.script|)
    && (end.BudgetStop? ==>
          p.budget > 0.0 && end.totalAtCheck >= p.budget &&
          forall j :: j in jobs && j.name in p.configs ==> j.status !in {Provisioning, Deploying, Running, SyncFailed})
    && (end.ShutdownRequested? && p.tearDown ==>
          forall j :: j in jobs && j.name in p.configs ==> j.status !in {Provisioning, Deploying, Running})
    && (end.StillGoing? && p.raises ==>
          forall j :: j in jobs && j.name in p.configs && AsksForTeardown(j, p.configs) ==>
            j.status !in {Provisioning, Deploying, Running, SyncFailed})
  }

  predicate AsksForTeardown(j: Job, configs: Configs)
    requires j.name in configs
  {
    configs[j.name].teardownOnCrash && j.podId.Some? && j.podId.value.text != ""
  }

  lemma NobodyAsks(jobs: seq<Job>, configs: Configs)
    ensures CrashTearsDown(jobs, configs) <==>
              !forall j :: j in jobs && j.name in configs && AsksForTeardown(j, configs) ==>
                 j.status !in {Provisioning, Deploying, Running, SyncFailed}
  {
  }

  lemma CrashClears(v: Run, configs: Configs, answer: nat -> FinishAnswers)
    ensures forall j :: j in Crashed(v, configs, answer).jobs && j.name in configs && AsksForTeardown(j, configs) ==>
              j.status !in {Provisioning, Deploying, Running, SyncFailed}
  {
    hide TeardownFrom;
    if CrashTearsDown(v.jobs, configs) {
      B.TeardownClears(v, configs, answer, 0);
      B.ClearMeans(TeardownFrom(v, configs, answer, 0).jobs, configs);
    }
  }

  lemma GracefulClears(v: Run, configs: Configs, answer: nat -> S.InterruptAnswers)
    ensures forall j :: j in S.GracefulFrom(v, configs, answer, 0).jobs && j.name in configs ==>
              j.status !in {Provisioning, Deploying, Running}
  {
    hide S.GracefulFrom;
    S.GracefulFacts(v, configs, answer, 0);
  }

  lemma RunEndsWell(v: Run, p: Plan)
    ensures EndsWell(Looped(v, p).end, Looped(v, p).sleeps, Ended(Looped(v, p), p).jobs, p)
  {
    hide Matched, Start, Loop, S.GracefulFrom, Crashed;
    var s := Start(Matched(v, p), p.configs, p.stopBeforeStart, p.start);
    B.LoopEnds(s, p.configs, p.budget, p.script, []);
    GracefulClears(Looped(v, p).v, p.configs, p.interrupt);
    CrashClears(Looped(v, p).v, p.configs, p.lastResort);
  }

  // ---- the pods a run begins with ----

  lemma CallsGrow(v: Run, p: Plan)
    requires UniqueNames(v.jobs)
    ensures Matched(v, p).calls <= Ended(Looped(v, p), p).calls
  {
    hide Matched, Start, Loop, RunInv, Closed, LeavesSettled, OutcomesKept, S.GracefulFrom, TeardownFrom;
    var m := Matched(v, p);
    MatchingKeeps(v, p);
    var s := Start(m, p.configs, p.stopBeforeStart, p.start);
    StartKeeps(m, p.configs, m, p.stopBeforeStart, p.start);
    LoopKeeps(m, p.configs, s, p.budget, p.script, []);
    var l := Looped(v, p);
    S.GracefulCalls(l.v, p.configs, p.interrupt, 0);
    TeardownKeeps(m, p.configs, l.v, p.lastResort, 0);
  }

  /** Before the run creates any instance, each one listed alive under one of its names, and
      tracked by no job, has been registered or its termination requested. */
  ghost predicate NoneOverlooked(jobs: seq<Job>, before: seq<Call>, after: seq<Call>, p: Plan) {
    p.runId != "" ==>
      forall m :: 0 <= m < |p.listed| && R.Ours(p.runId, p.listed[m].instance) ==>
        R.Tracked(jobs, p.listed[m].instance.id) || R.DealtWith(before, after, p.listed[m].instance.id)
  }

  /** A run that stops before its start phase, and does not tear down, leaves each of them the
      pod of the job it is named after, or its termination requested. */
  ghost predicate NoneLost(r: Run, p: Plan) {
    p.runId != "" && p.stopBeforeStart && !p.tearDown && R.Truthful(p.listed, p.matching) ==>
      forall m :: 0 <= m < |p.listed| && R.Ours(p.runId, p.listed[m].instance) ==>
        R.Kept(r, p.runId, p.listed[m].instance)
  }

  lemma RunOverlooksNone(v: Run, p: Plan)
    ensures UniqueNames(v.jobs) ==> NoneOverlooked(v.jobs, v.calls, Ended(Looped(v, p), p).calls, p)
    ensures NoneLost(Ended(Looped(v, p), p), p)
  {
    hide Start, Loop, R.All, R.DealtWith, R.Kept, R.Tracked, UniqueNames, R.Ours, R.Truthful;
    var m, r := Matched(v, p), Ended(Looped(v, p), p);
    if p.runId != "" {
      R.UntrackedAreDealtWith(v, p.configs, p.runId, p.listed, p.matching);
      if UniqueNames(v.jobs) {
        CallsGrow(v, p);
        forall i | 0 <= i < |p.listed| && R.Ours(p.runId, p.listed[i].instance)
          ensures R.Tracked(v.jobs, p.listed[i].instance.id) || R.DealtWith(v.calls, r.calls, p.listed[i].instance.id)
        {
          if R.DealtWith(v.calls, m.calls, p.listed[i].instance.id) {
            R.DealtLater(v.calls, m.calls, r.calls, p.listed[i].instance.id);
          }
        }
      }
      if R.Truthful(p.listed, p.matching) {
        forall i | 0 <= i < |p.listed| && R.Ours(p.runId, p.listed[i].instance)
          ensures R.Kept(m, p.runId, p.listed[i].instance)
        {
          R.NoListedPodLost(v, p.configs, p.runId, p.listed, p.matching, i);
        }
      }
      StoppedIsMatched(v, p);
    }
  }

  lemma StoppedIsMatched(v: Run, p: Plan)
    ensures p.stopBeforeStart && !p.tearDown ==> Ended(Looped(v, p), p) == Matched(v, p)
  {
  }
}
