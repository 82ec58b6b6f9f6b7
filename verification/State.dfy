/** The state of a run: one record per job, the spend so far, the cost log, and the calls
    made to the world outside in the order they were made. Each class has a value view; the
    specifications of the operations are functions on views. */
module State {
  import opened Base

  datatype Status =
    | Pending | Provisioning | Deploying | Running
    | Completed | Failed | Skipped | SyncFailed

  predicate Active(s: Status) {
    s in {Provisioning, Deploying, Running}
  }

  /** The pod exists and is billing. */
  predicate Live(s: Status) {
    Active(s) || s == SyncFailed
  }

  predicate Terminal(s: Status) {
    s in {Completed, Failed, Skipped, SyncFailed}
  }

  datatype Endpoint = Endpoint(host: string, port: int)

  /** The value of a PodState. */
  datatype Job = Job(
    name: Name,
    dependsOn: seq<Name>,
    status: Status,
    podId: Option<PodId>,
    rate: real,
    ssh: Option<Endpoint>,
    startedAt: Option<real>,
    finishedAt: Option<real>,
    lastSyncAt: Option<real>,
    idleSince: Option<real>,
    stalledSince: Option<real>,
    attempts: int,
    gone: int,
    cost: real,
    pid: Option<int>,
    exitCode: Option<int>)

  /** An absent or empty pod id counts as "no pod". */
  predicate HasPod(j: Job) {
    NonEmpty(j.podId)
  }

  predicate NonEmpty(pod: Option<PodId>) {
    pod.Some? && pod.value.text != ""
  }

  /** A time that is absent or exactly zero counts as "not set". */
  predicate IsSet(t: Option<real>) {
    t.Some? && t.value != 0.0
  }

  function SetOr(t: Option<real>, now: real): Option<real> {
    if IsSet(t) then t else Some(now)
  }

  datatype StopReason =
    | Finished(outcome: Status) | SpotInterruption | Interrupted | ManualTeardown(verified: bool)
    | StrayTerminated | StrayTerminateFailed

  datatype CostEvent =
    | PodStarted(job: Name, pod: PodId)
    | PodStopped(stopped: Option<PodId>, reason: StopReason, cost: Option<real>)
    | PodOrphaned(job: Name, pod: PodId)

  /** A call to the world outside, with the answer it got. */
  datatype Call =
    | Create(job: Name, pod: PodId)
    | Teardown(job: Name, pod: PodId, verified: bool)
    | FinalSync(job: Name, ok: bool)
    | Register(pod: PodId)
    | MarkRegistry(pod: PodId, terminated: bool)
    | Backoff(job: Name, seconds: real)

  /** The value of a RunState. */
  datatype Run = Run(jobs: seq<Job>, total: real, log: seq<CostEvent>, calls: seq<Call>)

  /** Whether the log already holds a stop event for this pod. */
  predicate StopRecorded(log: seq<CostEvent>, pod: Option<PodId>) {
    NonEmpty(pod) && exists e :: e in log && e.PodStopped? && e.stopped == pod
  }

  function RecordStop(log: seq<CostEvent>, pod: Option<PodId>, reason: StopReason, cost: Option<real>): seq<CostEvent> {
    if StopRecorded(log, pod) then log else log + [PodStopped(pod, reason, cost)]
  }

  /** Cost accrues only for a started job with a positive rate. */
  predicate Billable(j: Job) {
    IsSet(j.startedAt) && j.rate > 0.0
  }

  /** The billing clock stops at the finish time. */
  function Clamped(j: Job, now: real): real {
    if j.finishedAt.Some? then Min(now, j.finishedAt.value) else now
  }

  function CostAt(j: Job, now: real): real
    requires Billable(j)
  {
    Max(0.0, Clamped(j, now) - j.startedAt.value) / 3600.0 * j.rate
  }

  function Accrued(j: Job, now: real): Job {
    if Billable(j) && CostAt(j, now) > j.cost then j.(cost := CostAt(j, now)) else j
  }

  function AccrueRun(v: Run, i: nat, now: real): Run
    requires i < |v.jobs|
  {
    var j := Accrued(v.jobs[i], now);
    v.(jobs := v.jobs[i := j], total := v.total + (j.cost - v.jobs[i].cost))
  }

  function ResetForRetry(j: Job, keepPod: bool): Job {
    j.(podId := if keepPod then j.podId else None,
       ssh := if keepPod then j.ssh else None,
       rate := if keepPod then j.rate else 0.0,
       status := Pending, startedAt := None, lastSyncAt := None, idleSince := None, stalledSince := None,
       attempts := 0, gone := 0, cost := 0.0, pid := None, exitCode := None, finishedAt := None)
  }

  /** The job is over: its elapsed time stops, unless it stopped before. */
  function MarkFinished(j: Job, now: real): Job {
    if IsSet(j.startedAt) && j.finishedAt.None? then j.(finishedAt := Some(now)) else j
  }

  function StatusOf(jobs: seq<Job>, name: Name): Option<Status> {
    if jobs == [] then None
    else if jobs[0].name == name then Some(jobs[0].status)
    else StatusOf(jobs[1..], name)
  }

  ghost predicate UniqueNames(jobs: seq<Job>) {
    forall i, j :: 0 <= i < j < |jobs| ==> jobs[i].name != jobs[j].name
  }

  lemma {:induction false} StatusOfAt(jobs: seq<Job>, k: nat)
    requires UniqueNames(jobs) && k < |jobs|
    ensures StatusOf(jobs, jobs[k].name) == Some(jobs[k].status)
  {
    if k > 0 {
      StatusOfAt(jobs[1..], k - 1);
    }
  }

  lemma {:induction false} StatusOfFound(jobs: seq<Job>, name: Name) returns (k: nat)
    requires StatusOf(jobs, name).Some?
    ensures k < |jobs| && jobs[k].name == name && StatusOf(jobs, name) == Some(jobs[k].status)
  {
    if jobs[0].name == name {
      k := 0;
    } else {
      var m := StatusOfFound(jobs[1..], name);
      k := m + 1;
    }
  }

  class PodState {
    const name: Name
    const dependsOn: seq<Name>
    var status: Status
    var podId: Option<PodId>
    var rate: real
    var ssh: Option<Endpoint>
    var startedAt: Option<real>
    var finishedAt: Option<real>
    var lastSyncAt: Option<real>
    var idleSince: Option<real>
    var stalledSince: Option<real>
    var attempts: int
    var gone: int
    var cost: real
    var pid: Option<int>
    var exitCode: Option<int>

    function View(): Job
      reads this
    {
      Job(name, dependsOn, status, podId, rate, ssh, startedAt, finishedAt, lastSyncAt, idleSince,
          stalledSince, attempts, gone, cost, pid, exitCode)
    }

    constructor (name: Name, dependsOn: seq<Name>)
      ensures View() == Job(name, dependsOn, Pending, None, 0.0, None, None, None, None, None, None,
                            0, 0, 0.0, None, None)
    {
      this.name, this.dependsOn := name, dependsOn;
      status, podId, rate, ssh := Pending, None, 0.0, None;
      startedAt, finishedAt, lastSyncAt, idleSince, stalledSince := None, None, None, None, None;
      attempts, gone, cost, pid, exitCode := 0, 0, 0.0, None, None;
    }
  }

  class RunState {
    const jobs: seq<PodState>
    var total: real
    var log: seq<CostEvent>
    var calls: seq<Call>

    /** The records are separate objects. */
    ghost predicate Distinct() {
      forall i, j :: 0 <= i < j < |jobs| ==> jobs[i] != jobs[j]
    }

    ghost function JobViews(): (views: seq<Job>)
      reads jobs
      ensures |views| == |jobs|
      ensures forall i :: 0 <= i < |jobs| ==> views[i] == jobs[i].View()
    {
      seq(|jobs|, i requires 0 <= i < |jobs| reads jobs => jobs[i].View())
    }

    ghost function View(): Run
      reads this, jobs
    {
      Run(JobViews(), total, log, calls)
    }

    twostate lemma OneJobChanged(i: nat)
      requires Distinct() && i < |jobs|
      requires forall j :: j in jobs && j != jobs[i] ==> unchanged(j)
      ensures JobViews() == old(JobViews())[i := jobs[i].View()]
    {
      forall k | 0 <= k < |jobs| && k != i ensures JobViews()[k] == old(JobViews())[k] {
        assert jobs[k] in jobs && unchanged(jobs[k]);
        assert jobs[k].View() == old(jobs[k].View());
      }
      assert JobViews() == old(JobViews())[i := jobs[i].View()];
    }
  }
}
