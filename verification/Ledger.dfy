/** The cost ledger: accrual, retry resets and the deduplicated stop log. */
module Ledger {
  import opened Base
  import opened State

  method AccrueCost(state: RunState, job: PodState, now: real) returns (delta: real)
    modifies state`total, job`cost
    ensures job.View() == Accrued(old(job.View()), now)
    ensures var end := if job.finishedAt.Some? && job.finishedAt.value < now then job.finishedAt.value else now;
      job.cost == if job.startedAt.Some? && job.startedAt.value != 0.0 && job.rate > 0.0
                  then Max(old(job.cost), Max(0.0, end - job.startedAt.value) / 3600.0 * job.rate)
                  else old(job.cost)
    ensures state.total == old(state.total) + delta && delta == job.cost - old(job.cost) && delta >= 0.0
  {
    delta := 0.0;
    ghost var was := job.View();
    if IsSet(job.startedAt) && job.rate > 0.0 {
      var at := now;
      if job.finishedAt.Some? {
        at := Min(at, job.finishedAt.value);
      }
      var newCost := Max(0.0, at - job.startedAt.value) / 3600.0 * job.rate;
      assert at == Clamped(was, now) && newCost == CostAt(was, now);
      if newCost - job.cost > 0.0 {
        delta := newCost - job.cost;
        job.cost := newCost;
        state.total := state.total + delta;
      }
    }
  }

  method RewindJob(job: PodState)
    modifies job
    ensures job.View() == ResetForRetry(old(job.View()), true)
  {
    job.status := Pending;
    job.startedAt, job.lastSyncAt, job.idleSince, job.stalledSince := None, None, None, None;
    job.attempts, job.gone, job.cost := 0, 0, 0.0;
    job.pid, job.exitCode, job.finishedAt := None, None, None;
  }

  /** Returns a finished job to pending so that the next run starts it again. */
  method ResetJobForRetry(job: PodState, keepPod: bool)
    modifies job
    ensures job.View() == ResetForRetry(old(job.View()), keepPod)
  {
    if keepPod {
      RewindJob(job);
    } else {
      job.podId, job.ssh, job.rate := None, None, 0.0;
      RewindJob(job);
    }
  }

  method FinishJobClock(job: PodState, now: real)
    modifies job`finishedAt
    ensures job.View() == MarkFinished(old(job.View()), now)
  {
    if IsSet(job.startedAt) && job.finishedAt.None? {
      job.finishedAt := Some(now);
    }
  }

  method RecordPodStopped(state: RunState, pod: Option<PodId>, reason: StopReason, cost: Option<real>)
    returns (written: bool)
    modifies state`log
    ensures state.log == RecordStop(old(state.log), pod, reason, cost)
    ensures written <==> !(pod.Some? && pod.value.text != "" && exists k :: StopsAt(old(state.log), pod, k))
    ensures state.log == if written then old(state.log) + [PodStopped(pod, reason, cost)] else old(state.log)
  {
    StopsAnywhere(state.log, pod);
    written := !StopRecorded(state.log, pod);
    if written {
      state.log := state.log + [PodStopped(pod, reason, cost)];
    }
  }

  // ---- one stop event per pod ----

  /** No pod id has two stop events. */
  ghost predicate UniqueStops(log: seq<CostEvent>) {
    forall i, j :: 0 <= i < j < |log| && log[i].PodStopped? && log[j].PodStopped? && NonEmpty(log[i].stopped) ==>
      log[i].stopped != log[j].stopped
  }

  lemma RecordStopKeepsUnique(log: seq<CostEvent>, pod: Option<PodId>, reason: StopReason, cost: Option<real>)
    requires UniqueStops(log)
    ensures UniqueStops(RecordStop(log, pod, reason, cost))
    ensures log <= RecordStop(log, pod, reason, cost)
  {
  }

  /** Entry `k` is the stop of that pod. */
  predicate StopsAt(log: seq<CostEvent>, pod: Option<PodId>, k: int) {
    0 <= k < |log| && log[k].PodStopped? && log[k].stopped == pod
  }

  lemma StopsAnywhere(log: seq<CostEvent>, pod: Option<PodId>)
    ensures StopRecorded(log, pod) <==>
              pod.Some? && pod.value.text != "" && exists k :: StopsAt(log, pod, k)
  {
    if StopRecorded(log, pod) {
      var e :| e in log && e.PodStopped? && e.stopped == pod;
      var k :| 0 <= k < |log| && log[k] == e;
      assert StopsAt(log, pod, k);
    }
  }

  lemma RecordStopAdds(log: seq<CostEvent>, pod: Option<PodId>, reason: StopReason, cost: Option<real>)
    requires NonEmpty(pod)
    ensures StopRecorded(RecordStop(log, pod, reason, cost), pod)
  {
  }

  // ---- accrual over a fixed window ----

  /** The cost never falls as time passes. */
  lemma CostMonotone(j: Job, s: real, t: real)
    requires Billable(j) && s <= t
    ensures CostAt(j, s) <= CostAt(j, t)
  {
  }

  function AccrueAll(j: Job, times: seq<real>): Job
    decreases |times|
  {
    if times == [] then j else AccrueAll(Accrued(j, times[0]), times[1..])
  }

  ghost predicate NoneAfter(times: seq<real>, latest: real) {
    forall k :: 0 <= k < |times| ==> times[k] <= latest
  }

  /** Readings no later than one already accrued add nothing. */
  lemma {:induction false} AccrualAbsorbed(j: Job, times: seq<real>, latest: real)
    requires Billable(j) && j.cost >= CostAt(j, latest) && NoneAfter(times, latest)
    ensures AccrueAll(j, times) == j
    decreases |times|
  {
    if times != [] {
      CostMonotone(j, times[0], latest);
      AccrualAbsorbed(j, times[1..], latest);
    }
  }

  /** However the clock was read, the cost ends at the larger of the old cost and the cost at
      the latest reading; nothing else about the job changes. */
  lemma {:induction false} AccrualIsMaximum(j: Job, times: seq<real>, at: nat)
    requires Billable(j) && at < |times| && NoneAfter(times, times[at])
    ensures AccrueAll(j, times) == j.(cost := Max(j.cost, CostAt(j, times[at])))
    decreases |times|
  {
    var latest := times[at];
    var k := Accrued(j, times[0]);
    CostMonotone(j, times[0], latest);
    assert Billable(k) && CostAt(k, latest) == CostAt(j, latest);
    assert NoneAfter(times[1..], latest);
    if at > 0 {
      assert times[1..][at - 1] == latest;
      AccrualIsMaximum(k, times[1..], at - 1);
    } else {
      AccrualAbsorbed(k, times[1..], latest);
    }
  }

  /** The split of an interval into ticks does not matter. */
  lemma AccrualIndependentOfTicks(j: Job, times: seq<real>, others: seq<real>, at: nat, at': nat)
    requires at < |times| && at' < |others| && times[at] == others[at']
    requires NoneAfter(times, times[at]) && NoneAfter(others, others[at'])
    ensures AccrueAll(j, times) == AccrueAll(j, others)
  {
    if Billable(j) {
      AccrualIsMaximum(j, times, at);
      AccrualIsMaximum(j, others, at');
    } else {
      NotBillableNoCost(j, times);
      NotBillableNoCost(j, others);
    }
  }

  lemma {:induction false} NotBillableNoCost(j: Job, times: seq<real>)
    requires !Billable(j)
    ensures AccrueAll(j, times) == j
    decreases |times|
  {
    if times != [] {
      NotBillableNoCost(j, times[1..]);
    }
  }

  /** Once the cost at the finish time is booked, no reading adds anything. */
  lemma {:induction false} NothingPastFinish(j: Job, times: seq<real>)
    requires Billable(j) && j.finishedAt.Some? && j.cost >= CostAt(j, j.finishedAt.value)
    ensures AccrueAll(j, times) == j
    decreases |times|
  {
    if times != [] {
      CostMonotone(j, Min(times[0], j.finishedAt.value), j.finishedAt.value);
      assert CostAt(j, times[0]) == CostAt(j, Min(times[0], j.finishedAt.value));
      NothingPastFinish(j, times[1..]);
    }
  }

  // ---- conservation ----

  function SumCost(jobs: seq<Job>): real {
    if jobs == [] then 0.0 else SumCost(jobs[..|jobs| - 1]) + jobs[|jobs| - 1].cost
  }

  lemma {:induction false} SumCostUpdate(jobs: seq<Job>, i: nat, j: Job)
    requires i < |jobs|
    ensures SumCost(jobs[i := j]) == SumCost(jobs) - jobs[i].cost + j.cost
    decreases |jobs|
  {
    var last := |jobs| - 1;
    if i == last {
      assert jobs[i := j][..last] == jobs[..last];
    } else {
      assert jobs[i := j][..last] == jobs[..last][i := j];
      SumCostUpdate(jobs[..last], i, j);
    }
  }

  lemma {:induction false} SumCostSame(a: seq<Job>, b: seq<Job>)
    requires |a| == |b| && forall i :: 0 <= i < |a| ==> a[i].cost == b[i].cost
    ensures SumCost(a) == SumCost(b)
    decreases |a|
  {
    if a != [] {
      SumCostSame(a[..|a| - 1], b[..|b| - 1]);
    }
  }

  /** Spend not attributed to any job's current counter. */
  function Drift(v: Run): real {
    v.total - SumCost(v.jobs)
  }

  datatype LedgerOp =
    | AccrueAt(i: nat, now: real)
    | ResetJob(i: nat, keepPod: bool)
    | Rebill(i: nat, startedAt: Option<real>, rate: real, finishedAt: Option<real>)  // a new pod, or a finish

  function ApplyOp(v: Run, op: LedgerOp): (v': Run)
    requires op.i < |v.jobs|
    ensures |v'.jobs| == |v.jobs|
  {
    match op
    case AccrueAt(i, now) => AccrueRun(v, i, now)
    case ResetJob(i, keepPod) => v.(jobs := v.jobs[i := ResetForRetry(v.jobs[i], keepPod)])
    case Rebill(i, startedAt, rate, finishedAt) =>
      v.(jobs := v.jobs[i := v.jobs[i].(startedAt := startedAt, rate := rate, finishedAt := finishedAt)])
  }

  ghost function ApplyOps(v: Run, ops: seq<LedgerOp>): Run
    requires forall k :: 0 <= k < |ops| ==> ops[k].i < |v.jobs|
    decreases |ops|
  {
    if ops == [] then v else ApplyOps(ApplyOp(v, ops[0]), ops[1..])
  }

  /** The cost counters that resets set back to zero. */
  ghost function Dropped(v: Run, ops: seq<LedgerOp>): real
    requires forall k :: 0 <= k < |ops| ==> ops[k].i < |v.jobs|
    decreases |ops|
  {
    if ops == [] then 0.0
    else (if ops[0].ResetJob? then v.jobs[ops[0].i].cost else 0.0) + Dropped(ApplyOp(v, ops[0]), ops[1..])
  }

  /** Over any mix of accruals, re-billings and resets, the spend and the counters drift apart
      by exactly what the resets drop. */
  lemma {:induction false} LedgerConserved(v: Run, ops: seq<LedgerOp>)
    requires forall k :: 0 <= k < |ops| ==> ops[k].i < |v.jobs|
    ensures Drift(ApplyOps(v, ops)) == Drift(v) + Dropped(v, ops)
    decreases |ops|
  {
    if ops != [] {
      var op := ops[0];
      var v' := ApplyOp(v, op);
      SumCostUpdate(v.jobs, op.i, v'.jobs[op.i]);
      LedgerConserved(v', ops[1..]);
    }
  }
}
