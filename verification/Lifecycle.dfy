/** The lifecycle of a whole run: monitor ticks, start phases, the loop with its budget check,
    and the two ways of tearing everything down. */
module Lifecycle {
  import opened Base
  import opened State
  import opened Scheduler
  import opened Scan
  import opened JobSteps

  type Configs = map<Name, JobConfig>

  function LocalOf(v: Run, i: nat): Local
    requires i < |v.jobs|
  {
    Local(v.jobs[i], v.total, v.log, v.calls)
  }

  /** A step on job `i` takes effect; a failure is spread. */
  ghost function Apply(v: Run, i: nat, o: Outcome): (r: Run)
    requires i < |v.jobs|
    ensures |r.jobs| == |v.jobs|
  {
    Run(Settle(v.jobs, i, o.at.job, o.spread), o.at.total, o.at.log, o.at.calls)
  }

  ghost function Monitored(v: Run, configs: Configs, a: JobAnswer, k: nat): (r: Run)
    requires k < |v.jobs| && v.jobs[k].name in configs
    ensures |r.jobs| == |v.jobs|
  {
    Apply(v, k, Monitor(LocalOf(v, k), configs[v.jobs[k].name], a))
  }

  /** The monitor's pass over the jobs from job `k` on; true if shutdown cut it short. */
  ghost function MonitorFrom(v: Run, configs: Configs, answer: nat -> JobAnswer, k: nat): (r: (Run, bool))
    requires k <= |v.jobs|
    ensures |r.0.jobs| == |v.jobs|
    decreases |v.jobs| - k
  {
    if k == |v.jobs| then (v, false)
    else if !Active(v.jobs[k].status) || v.jobs[k].name !in configs then MonitorFrom(v, configs, answer, k + 1)
    else
      var v' := Monitored(v, configs, answer(k), k);
      if answer(k).StoppedBy? then (v', true) else MonitorFrom(v', configs, answer, k + 1)
  }

  /** The pipelines of the ready jobs, one after the other. */
  ghost function StartInOrder(v: Run, configs: Configs, ready: seq<nat>, answer: nat -> PipelineAnswers): (r: Run)
    requires forall k :: 0 <= k < |ready| ==> ready[k] < |v.jobs|
    ensures |r.jobs| == |v.jobs|
    decreases |ready|
  {
    if ready == [] then v
    else
      var i := ready[0];
      var v' := if v.jobs[i].name in configs
                then Apply(v, i, Pipeline(LocalOf(v, i), configs[v.jobs[i].name], answer(i), false)) else v;
      StartInOrder(v', configs, ready[1..], answer)
  }

  /** A start phase: nothing once shutdown is requested. */
  ghost function Start(v: Run, configs: Configs, shutdown: bool, answer: nat -> PipelineAnswers): (r: Run)
    ensures |r.jobs| == |v.jobs|
  {
    if shutdown then v
    else
      var (jobs, ready) := ScanFrom(v.jobs, configs.Keys, 0, []);
      StartInOrder(v.(jobs := jobs), configs, ready, answer)
  }

  datatype TickScript = TickScript(
    job: nat -> JobAnswer,
    shutdownBeforeStart: bool,
    start: nat -> PipelineAnswers,
    shutdownAfter: bool,
    teardown: nat -> FinishAnswers,
    shutdownAsleep: bool)

  /** One tick of the monitor. */
  ghost function MonitorTick(v: Run, configs: Configs, t: TickScript): (r: Run)
    ensures |r.jobs| == |v.jobs|
  {
    var (m, stopped) := MonitorFrom(v, configs, t.job, 0);
    if stopped then m else Start(m, configs, t.shutdownBeforeStart, t.start)
  }

  /** The forced teardown of everything live, from job `k` on. */
  ghost function TeardownFrom(v: Run, configs: Configs, answer: nat -> FinishAnswers, k: nat): (r: Run)
    requires k <= |v.jobs|
    ensures |r.jobs| == |v.jobs|
    decreases |v.jobs| - k
  {
    if k == |v.jobs| then v
    else if !Live(v.jobs[k].status) || v.jobs[k].name !in configs then TeardownFrom(v, configs, answer, k + 1)
    else
      TeardownFrom(Apply(v, k, Finish(LocalOf(v, k), configs[v.jobs[k].name], Failed, true, answer(k))), configs,
                   answer, k + 1)
  }

  ghost predicate AllDone(jobs: seq<Job>) {
    forall j :: j in jobs ==> Terminal(j.status)
  }

  datatype LoopEnd = Done | ShutdownRequested | BudgetStop(totalAtCheck: real) | StillGoing

  datatype LoopResult = LoopResult(v: Run, end: LoopEnd, sleeps: seq<real>)

  predicate BudgetReached(total: real, budget: real) {
    budget > 0.0 && total >= budget
  }

  /** The monitoring loop over a script of ticks; a script that runs out leaves the loop
      asleep. `sleeps` records the spend each time the loop goes to sleep. */
  ghost function Loop(v: Run, configs: Configs, budget: real, script: seq<TickScript>,
                      sleeps: seq<real>): (r: LoopResult)
    ensures |r.v.jobs| == |v.jobs|
    decreases |script|
  {
    if AllDone(v.jobs) then LoopResult(v, Done, sleeps)
    else if script == [] then LoopResult(v, StillGoing, sleeps)
    else
      var t := script[0];
      var m := MonitorTick(v, configs, t);
      if t.shutdownAfter then LoopResult(m, ShutdownRequested, sleeps)
      else if BudgetReached(m.total, budget) then
        LoopResult(TeardownFrom(m, configs, t.teardown, 0), BudgetStop(m.total), sleeps)
      else if t.shutdownAsleep then LoopResult(m, ShutdownRequested, sleeps + [m.total])
      else Loop(m, configs, budget, script[1..], sleeps + [m.total])
  }
}
