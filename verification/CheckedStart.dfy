/** A run is started only after its dependencies have been checked. */
module CheckedStart {
  import opened DependencyGraph
  import opened State
  import opened Scan
  import opened JobSteps
  import opened JobFacts
  import opened Lifecycle
  import Progress
  import RunLoop
  import Validator

  /** The jobs are those of the configuration. */
  ghost predicate Fits(jobs: seq<Job>, entries: seq<Entry>, configs: Configs) {
    UniqueNames(jobs) && AllConfigured(jobs, configs.Keys) && Progress.Mirrors(jobs, entries)
  }

  /** Either the configuration is rejected, because it names an unknown dependency or has a
      cycle, and nothing starts; or the first start phase, unless a shutdown cuts it short,
      cannot leave the run stuck, in whatever state the jobs were loaded. */
  method CheckAndStart(state: RunState, entries: seq<Entry>, configs: Configs, answer: nat -> PipelineAnswers)
    returns (errors: seq<Validator.Error>)
    requires state.Distinct()
    modifies state, state.jobs
    ensures errors == [] <==> Validator.AllDepsKnown(entries) && !HasCycle(DepsMap(entries))
    ensures errors != [] ==> state.View() == old(state.View())
    ensures errors == [] ==> state.View() == Start(old(state.View()), configs, false, answer)
    ensures errors == [] && Fits(old(state.JobViews()), entries, configs) && (forall i: nat :: RunsToEnd(answer(i))) ==>
              Progress.Unstuck(state.JobViews())
  {
    hide Start, HasCycle, IsTopologicalOrder, RunsToEnd, Progress.Unstuck;
    ghost var v := state.View();
    ghost var order;
    errors, order := Validator.CheckDependencies(entries);
    if errors == [] {
      if Fits(v.jobs, entries, configs) && forall i: nat :: RunsToEnd(answer(i)) {
        Progress.NoDeadlock(configs, v, answer, entries, order);
      }
      RunLoop.StartUnblockedJobs(state, configs, false, answer);
    }
  }
}
