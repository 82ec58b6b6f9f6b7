/** The whole life of a run: orchestrators coming and going, reconciling, running, shutting
    down, tearing down after a crash, with retries and manual teardowns in between. */
module Sessions {
  import opened State
  import opened Ledger
  import opened Scheduler
  import opened JobSteps
  import opened Lifecycle
  import opened RunFacts
  import Commands
  import Reconcile
  import Shutdown
  import WholeRun

  datatype Act =
    | Reconciling(runId: string, listed: seq<Reconcile.Listed>, world: Reconcile.Answers)
    | Executing(budget: real, first: nat -> PipelineAnswers, script: seq<TickScript>)
    | ShuttingDown(interrupt: nat -> Shutdown.InterruptAnswers)
    | Crashing(lastResort: nat -> FinishAnswers)
    | Retrying(failed: bool, completed: bool)
    | TearingDown(i: nat, hand: Commands.ManualAnswers)

  ghost function Perform(v: Run, configs: Configs, act: Act): (r: Run)
    ensures |r.jobs| == |v.jobs|
  {
    match act
    case Reconciling(runId, listed, world) => Reconcile.All(v, configs, runId, listed, world)
    case Executing(budget, first, script) => Loop(Start(v, configs, false, first), configs, budget, script, []).v
    case ShuttingDown(interrupt) => Shutdown.GracefulFrom(v, configs, interrupt, 0)
    case Crashing(lastResort) => WholeRun.Crashed(v, configs, lastResort)
    case Retrying(failed, completed) => v.(jobs := Commands.RetriedAll(v.jobs, configs, failed, completed))
    case TearingDown(i, hand) =>
      if i < |v.jobs| && v.jobs[i].podId.Some? then
        var l := Commands.TornDownByHand(LocalOf(v, i), hand);
        Run(v.jobs[i := l.job], l.total, l.log, l.calls)
      else v
  }

  ghost function PerformAll(v: Run, configs: Configs, acts: seq<Act>): (r: Run)
    ensures |r.jobs| == |v.jobs|
    decreases |acts|
  {
    if acts == [] then v else PerformAll(Perform(v, configs, acts[0]), configs, acts[1..])
  }

  predicate IsReset(j: Job, configs: Configs, failed: bool, completed: bool) {
    Commands.Chosen(j, configs, failed, completed) || (failed && j.status == Skipped && j.name in configs)
  }

  /** The cost counters that a retry sets back to zero. */
  function ResetCost(jobs: seq<Job>, configs: Configs, failed: bool, completed: bool): real {
    if jobs == [] then 0.0
    else
      var last := jobs[|jobs| - 1];
      ResetCost(jobs[..|jobs| - 1], configs, failed, completed) +
        if IsReset(last, configs, failed, completed) then last.cost else 0.0
  }

  ghost function DroppedBy(v: Run, configs: Configs, acts: seq<Act>): real
    decreases |acts|
  {
    if acts == [] then 0.0
    else
      (if acts[0].Retrying? then ResetCost(v.jobs, configs, acts[0].failed, acts[0].completed) else 0.0) +
      DroppedBy(Perform(v, configs, acts[0]), configs, acts[1..])
  }

  lemma {:induction false} RetriedSum(jobs: seq<Job>, configs: Configs, failed: bool, completed: bool)
    ensures SumCost(Commands.RetriedAll(jobs, configs, failed, completed)) ==
              SumCost(jobs) - ResetCost(jobs, configs, failed, completed)
    decreases |jobs|
  {
    if jobs != [] {
      var n := |jobs| - 1;
      RetriedSum(jobs[..n], configs, failed, completed);
      assert Commands.RetriedAll(jobs, configs, failed, completed)[..n] ==
               Commands.RetriedAll(jobs[..n], configs, failed, completed);
    }
  }

  /** The list keeps its jobs, so names stay unique. */
  ghost predicate SameNames(a: seq<Job>, b: seq<Job>) {
    |a| == |b| && forall i :: 0 <= i < |a| ==> a[i].name == b[i].name
  }

  lemma NamesStay(a: seq<Job>, b: seq<Job>)
    requires SameNames(a, b) && UniqueNames(a)
    ensures UniqueNames(b)
  {
  }

  ghost predicate Sound(v: Run) {
    UniqueNames(v.jobs) && UniqueStops(v.log)
  }

  /** What one act keeps; only retries let the spend and the counters drift apart. */
  ghost predicate Accounts(v: Run, configs: Configs, act: Act, r: Run) {
    && SameNames(v.jobs, r.jobs) && UniqueStops(r.log)
    && Drift(r) == Drift(v) + if act.Retrying? then ResetCost(v.jobs, configs, act.failed, act.completed) else 0.0
  }

  lemma ExecutingKeeps(v: Run, configs: Configs, act: Act)
    requires Sound(v) && act.Executing?
    ensures Accounts(v, configs, act, Perform(v, configs, act))
  {
    hide UniqueStops, Closed, DepSafe, Drift;
    EveryRunKeeps(configs, v, act.budget, act.first, act.script);
  }

  lemma ReconcilingKeeps(v: Run, configs: Configs, act: Act)
    requires Sound(v) && act.Reconciling?
    ensures Accounts(v, configs, act, Perform(v, configs, act))
  {
    hide UniqueStops, Drift;
    Reconcile.OnlyOwnPodsTouched(v, configs, act.runId, act.listed, act.world);
  }

  lemma ShuttingDownKeeps(v: Run, configs: Configs, act: Act)
    requires Sound(v) && act.ShuttingDown?
    ensures Accounts(v, configs, act, Perform(v, configs, act))
  {
    hide UniqueStops, Drift;
    Shutdown.GracefulFacts(v, configs, act.interrupt, 0);
  }

  lemma CrashingKeeps(v: Run, configs: Configs, act: Act)
    requires Sound(v) && act.Crashing?
    ensures Accounts(v, configs, act, Perform(v, configs, act))
  {
    hide UniqueStops, Closed, DepSafe, Drift, WholeRun.Crashed;
    WholeRun.CrashedKeeps(v, v, configs, act.lastResort);
  }

  lemma RetryingKeeps(v: Run, configs: Configs, act: Act)
    requires Sound(v) && act.Retrying?
    ensures Accounts(v, configs, act, Perform(v, configs, act))
  {
    hide UniqueStops, Commands.Chosen;
    RetriedSum(v.jobs, configs, act.failed, act.completed);
  }

  lemma TearingDownKeeps(v: Run, configs: Configs, act: Act)
    requires Sound(v) && act.TearingDown?
    ensures Accounts(v, configs, act, Perform(v, configs, act))
  {
    hide UniqueStops, Commands.TornDownByHand;
    if act.i < |v.jobs| && v.jobs[act.i].podId.Some? {
      var l := LocalOf(v, act.i);
      Commands.ManualTeardownFacts(l, act.hand);
      HandKeepsName(l, act.hand);
      SumCostUpdate(v.jobs, act.i, Commands.TornDownByHand(l, act.hand).job);
    }
  }

  lemma ActKeeps(v: Run, configs: Configs, act: Act)
    requires Sound(v)
    ensures Accounts(v, configs, act, Perform(v, configs, act))
  {
    hide Sound, Perform, Accounts;
    match act
    case Reconciling(_, _, _) => ReconcilingKeeps(v, configs, act);
    case Executing(_, _, _) => ExecutingKeeps(v, configs, act);
    case ShuttingDown(_) => ShuttingDownKeeps(v, configs, act);
    case Crashing(_) => CrashingKeeps(v, configs, act);
    case Retrying(_, _) => RetryingKeeps(v, configs, act);
    case TearingDown(_, _) => TearingDownKeeps(v, configs, act);
  }

  lemma HandKeepsName(l: Local, hand: Commands.ManualAnswers)
    requires l.job.podId.Some?
    ensures Commands.TornDownByHand(l, hand).job.name == l.job.name
  {
  }

  /** Whatever is done to a run, in whatever order: no pod ever has two stop events, and what
      was spent differs from what the jobs' counters show by exactly the counters that
      retries set back. */
  lemma {:induction false} EverySessionAccounts(v: Run, configs: Configs, acts: seq<Act>)
    requires Sound(v)
    ensures var r := PerformAll(v, configs, acts);
      Sound(r) && Drift(r) == Drift(v) + DroppedBy(v, configs, acts)
    decreases |acts|
  {
    hide Perform, Drift, UniqueStops, ResetCost;
    if acts != [] {
      ActKeeps(v, configs, acts[0]);
      NamesStay(v.jobs, Perform(v, configs, acts[0]).jobs);
      EverySessionAccounts(Perform(v, configs, acts[0]), configs, acts[1..]);
    }
  }
}
