/** What a job is billed: in plain arithmetic, up to its finish and never after; and what it
    costs over several pods. */
module Billing {
  import opened Base
  import opened State
  import opened Ledger
  import opened Provisioner
  import opened JobSteps
  import C = Commands
  import S = Shutdown

  // ---- what is billed, in hours and rates ----

  /** What `rate` per hour comes to between two times. */
  function Charge(rate: real, from: real, to: real): real {
    Max(0.0, to - from) / 3600.0 * rate
  }

  /** A started job with a rate, finished or not, is billed to now or to its finish; never
      less than it was; any other job keeps its cost. Nothing else changes. */
  lemma AccruedIs(j: Job, now: real)
    ensures var end := if j.finishedAt.Some? && j.finishedAt.value < now then j.finishedAt.value else now;
      Accrued(j, now).cost ==
        if j.startedAt.Some? && j.startedAt.value != 0.0 && j.rate > 0.0
        then Max(j.cost, Charge(j.rate, j.startedAt.value, end))
        else j.cost
    ensures Accrued(j, now) == j.(cost := Accrued(j, now).cost)
  {
  }

  /** Between `l` and `l'` the job was finished at `at` and billed by a reading at `later`. */
  predicate BilledToFinish(l: Local, l': Local, at: real, later: real) {
    && l'.job.finishedAt == Some(at)
    && l'.total - l.total == l'.job.cost - l.job.cost
    && l'.job.cost == if l.job.startedAt.Some? && l.job.startedAt.value != 0.0 && l.job.rate > 0.0
                      then Max(l.job.cost, Charge(l.job.rate, l.job.startedAt.value, Min(at, later)))
                      else l.job.cost
  }

  /** Each of the three ways of ending a pod bills the last stretch: finishing, unless the pod
      is kept for its results; */
  lemma FinishBills(l: Local, cfg: JobConfig, status: Status, force: bool, a: FinishAnswers)
    requires status in {Completed, Failed}
    ensures var o := Finish(l, cfg, status, force, a);
      if o.at.job.status == SyncFailed then o.at.total == l.total && o.at.job.cost == l.job.cost && o.at.log == l.log
      else BilledToFinish(l, o.at, a.now, a.later)
  {
    hide RecordStop;
    AccruedIs(l.job.(finishedAt := Some(a.now)), a.later);
  }

  /** interrupting a started job that has a pod; */
  lemma InterruptBills(l: Local, cfg: JobConfig, a: S.InterruptAnswers)
    ensures var r := S.Interrupt(l, cfg, a);
      if HasPod(l.job) && IsSet(l.job.startedAt) then BilledToFinish(l, r, a.now, a.later)
      else r.total == l.total && r.job == l.job.(status := Failed) && r.log == l.log
  {
    hide RecordStop, CostAt;
    if HasPod(l.job) && IsSet(l.job.startedAt) {
      AccruedIs(l.job.(finishedAt := Some(a.now), status := Failed), a.later);
      Interrupted(l, cfg, a);
    }
  }

  lemma Interrupted(l: Local, cfg: JobConfig, a: S.InterruptAnswers)
    requires HasPod(l.job) && IsSet(l.job.startedAt)
    ensures var r, j := S.Interrupt(l, cfg, a), l.job.(finishedAt := Some(a.now), status := Failed);
      r.job == Accrued(j, a.later) && r.total - l.total == r.job.cost - l.job.cost
  {
    hide RecordStop, CostAt;
  }

  /** and a teardown by hand, unless the pod's stop is on record. */
  lemma TeardownByHandBills(l: Local, a: C.ManualAnswers)
    requires l.job.podId.Some?
    ensures var r := C.TornDownByHand(l, a);
      if l.job.finishedAt.Some? || StopRecorded(l.log, l.job.podId)
      then r.total == l.total && r.job.cost == l.job.cost && r.job.finishedAt == l.job.finishedAt && r.log == l.log
      else BilledToFinish(l, r, a.now, a.later)
  {
    hide RecordStop, StopRecorded;
    AccruedIs(l.job.(finishedAt := Some(a.now)), a.later);
  }

  // ---- and no more after that ----

  lemma FinishedJob(l: Local, cfg: JobConfig, status: Status, force: bool, a: FinishAnswers)
    requires !KeepsPod(l, cfg, status, force, a)
    ensures Finish(l, cfg, status, force, a).at.job ==
              Accrued(l.job.(finishedAt := Some(a.now)), a.later).(status := status)
  {
    hide CostAt, RecordStop;
  }

  lemma FinishedClock(j0: Job, now: real, later: real, status: Status)
    requires later >= now
    ensures var j := Accrued(j0.(finishedAt := Some(now)), later).(status := status);
      && j.finishedAt == Some(now) && (Billable(j) <==> Billable(j0))
      && (Billable(j0) ==>
            j.cost == Max(j0.cost, CostAt(j0.(finishedAt := Some(now)), now)) && CostAt(j, now) <= j.cost)
  {
    var f := j0.(finishedAt := Some(now));
    if Billable(j0) {
      assert CostAt(f, later) == CostAt(f, now);
    }
  }

  /** Once a job has finished and its clock was read at or after the finish, its cost is that
      of the time up to the finish, and no later reading changes anything about it. */
  lemma FinishIsFinal(l: Local, cfg: JobConfig, status: Status, force: bool, a: FinishAnswers, times: seq<real>)
    requires !KeepsPod(l, cfg, status, force, a) && a.later >= a.now
    ensures var j := Finish(l, cfg, status, force, a).at.job;
      && AccrueAll(j, times) == j
      && (Billable(l.job) ==> j.cost == Max(l.job.cost, CostAt(l.job.(finishedAt := Some(a.now)), a.now)))
  {
    hide Finish;
    var j := Finish(l, cfg, status, force, a).at.job;
    FinishedJob(l, cfg, status, force, a);
    FinishedClock(l.job, a.now, a.later, status);
    if Billable(j) {
      NothingPastFinish(j, times);
    } else {
      NotBillableNoCost(j, times);
    }
  }

  // ---- is a job's cost the sum over its pods? ----

  /** Re-provisioning restarts the clock and keeps the cost, so the cost becomes the larger of
      the old cost and the new pod's own; it is their sum exactly when one of them is zero. */
  lemma CostIsMaximumOverPods(j: Job, pod: PodId, price: real, at: real, fixedRate: real, now: real)
    requires j.cost >= 0.0 && at != 0.0 && Rate(price, fixedRate) > 0.0
    ensures var end := if j.finishedAt.Some? && j.finishedAt.value < now then j.finishedAt.value else now;
      var own := Charge(if fixedRate > 0.0 then fixedRate else price, at, end);
      var cost := Accrued(Recorded(j, pod, price, at, fixedRate), now).cost;
      && cost == Max(j.cost, own)
      && (cost == j.cost + own <==> j.cost == 0.0 || own == 0.0)
  {
  }
}
