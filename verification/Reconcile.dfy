/** Matching the provider's instances to the run's jobs by name: adopt what the state lost,
    terminate what the run has no use for, leave everything else. */
module Reconcile {
  import opened Base
  import opened State
  import opened Ledger
  import opened Propagation
  import opened Scheduler
  import opened JobSteps
  import opened PodNames

  /** An instance as a provider lists it. */
  datatype Instance = Instance(id: PodId, name: string, alive: bool)

  /** A listed instance with the provider that listed it. */
  datatype Listed = Listed(provider: string, instance: Instance)

  /** Answers of the world while instance `k` is dealt with. */
  datatype Answers = Answers(existence: (nat, PodId) -> Tri, tornDown: nat -> bool, now: nat -> real)

  type Configs = map<Name, JobConfig>

  /** The first job of that name, as the lookup finds it; the number of jobs if there is none. */
  function IndexOf(jobs: seq<Job>, name: Name): (k: nat)
    ensures k <= |jobs|
    ensures k < |jobs| ==> jobs[k].name == name
    ensures forall i :: 0 <= i < k ==> jobs[i].name != name
  {
    if jobs == [] || jobs[0].name == name then 0 else 1 + IndexOf(jobs[1..], name)
  }

  function Strayed(v: Run, e: Instance, ok: bool): Run {
    v.(calls := v.calls + [Teardown(Name(e.name), e.id, ok), MarkRegistry(e.id, ok)],
       log := RecordStop(v.log, Some(e.id), if ok then StrayTerminated else StrayTerminateFailed, None))
  }

  predicate Over(s: Status) {
    s in {Completed, Failed, Skipped}
  }

  /** A pod that was created but never persisted becomes the job's pod. */
  function Adopted(j: Job, id: PodId, now: real): Job {
    j.(podId := Some(id), startedAt := SetOr(j.startedAt, now),
       status := if j.status == Pending then Provisioning else j.status)
  }

  /** The tracked pod is gone and another carries the job's name. */
  function Replaced(j: Job, id: PodId): Job {
    j.(podId := Some(id), ssh := None, pid := None, status := if j.status == Running then Provisioning else j.status)
  }

  /** What becomes of an instance that carries a name of this run. */
  function Matched(v: Run, configs: Configs, e: Listed, name: Name, existence: PodId -> Tri, ok: bool,
                   now: real): (r: Run)
    ensures |r.jobs| == |v.jobs|
  {
    var k := IndexOf(v.jobs, name);
    if k == |v.jobs| || name !in configs || configs[name].provider != e.provider then Strayed(v, e.instance, ok)
    else
      var j := v.jobs[k];
      if j.podId == Some(e.instance.id) then v
      else if j.podId.None? then
        if Over(j.status) then Strayed(v, e.instance, ok)
        else v.(jobs := v.jobs[k := Adopted(j, e.instance.id, now)], calls := v.calls + [Register(e.instance.id)])
      else if existence(j.podId.value) == No then
        v.(jobs := v.jobs[k := Replaced(j, e.instance.id)],
           calls := v.calls + [MarkRegistry(j.podId.value, true), Register(e.instance.id)])
      else Strayed(v, e.instance, ok)
  }

  function One(v: Run, configs: Configs, runId: string, e: Listed, existence: PodId -> Tri, ok: bool,
               now: real): (r: Run)
    ensures |r.jobs| == |v.jobs|
  {
    var name := JobOf(runId, e.instance.name);
    if !e.instance.alive || name.None? then v else Matched(v, configs, e, name.value, existence, ok, now)
  }

  /** All the instances listed, from the `k`-th on. */
  function From(v: Run, configs: Configs, runId: string, listed: seq<Listed>, a: Answers, k: nat): (r: Run)
    requires k <= |listed|
    ensures |r.jobs| == |v.jobs|
    decreases |listed| - k
  {
    if k == |listed| then v
    else From(One(v, configs, runId, listed[k], id => a.existence(k, id), a.tornDown(k), a.now(k)), configs, runId,
              listed, a, k + 1)
  }

  /** Nothing is reconciled for a run without an id. */
  function All(v: Run, configs: Configs, runId: string, listed: seq<Listed>, a: Answers): (r: Run)
    ensures |r.jobs| == |v.jobs|
  {
    if runId == "" then v else From(v, configs, runId, listed, a, 0)
  }

  // ---- no pod is lost ----

  ghost predicate TeardownAsked(calls: seq<Call>, id: PodId) {
    exists c :: c in calls && c.Teardown? && c.pod == id
  }

  /** The instance is the pod of the job it is named after, or its termination was requested. */
  ghost predicate Kept(v: Run, runId: string, e: Instance) {
    || TeardownAsked(v.calls, e.id)
    || exists i :: 0 <= i < |v.jobs| && v.jobs[i].podId == Some(e.id) && JobOf(runId, e.name) == Some(v.jobs[i].name)
  }

  predicate Ours(runId: string, e: Instance) {
    e.alive && JobOf(runId, e.name).Some?
  }

  /** A "gone" from a provider is true: it is never said of an instance that is alive. */
  ghost predicate Truthful(listed: seq<Listed>, a: Answers) {
    forall k: nat, m :: 0 <= m < |listed| && listed[m].instance.alive ==> a.existence(k, listed[m].instance.id) != No
  }

  lemma StrayAsked(v: Run, e: Instance, ok: bool)
    ensures TeardownAsked(Strayed(v, e, ok).calls, e.id)
  {
  }

  /** The instance at hand is kept. */
  lemma OneKeepsIts(v: Run, configs: Configs, runId: string, e: Listed, existence: PodId -> Tri, ok: bool, now: real)
    requires Ours(runId, e.instance)
    ensures Kept(One(v, configs, runId, e, existence, ok, now), runId, e.instance)
  {
    var name := JobOf(runId, e.instance.name).value;
    var k := IndexOf(v.jobs, name);
    var r := One(v, configs, runId, e, existence, ok, now);
    StrayAsked(v, e.instance, ok);
    if k < |v.jobs| && r != Strayed(v, e.instance, ok) {
      assert r.jobs[k].podId == Some(e.instance.id) && r.jobs[k].name == name;
    }
  }

  /** Nor does dealing with one instance lose another that is alive. */
  lemma OneKeepsOthers(v: Run, configs: Configs, runId: string, e: Listed, existence: PodId -> Tri, ok: bool,
                       now: real, other: Instance)
    requires Kept(v, runId, other) && existence(other.id) != No
    ensures Kept(One(v, configs, runId, e, existence, ok, now), runId, other)
  {
    var r := One(v, configs, runId, e, existence, ok, now);
    if TeardownAsked(v.calls, other.id) {
      var c :| c in v.calls && c.Teardown? && c.pod == other.id;
      assert c in r.calls;
    } else {
      var i :| 0 <= i < |v.jobs| && v.jobs[i].podId == Some(other.id) &&
        JobOf(runId, other.name) == Some(v.jobs[i].name);
      assert r.jobs[i].podId == Some(other.id) && r.jobs[i].name == v.jobs[i].name;
    }
  }

  lemma {:induction false} FromKeeps(v: Run, configs: Configs, runId: string, listed: seq<Listed>, a: Answers, k: nat)
    requires k <= |listed| && Truthful(listed, a)
    requires forall m :: 0 <= m < k && Ours(runId, listed[m].instance) ==> Kept(v, runId, listed[m].instance)
    ensures forall m :: 0 <= m < |listed| && Ours(runId, listed[m].instance) ==>
              Kept(From(v, configs, runId, listed, a, k), runId, listed[m].instance)
    decreases |listed| - k
  {
    hide Kept, One;
    if k < |listed| {
      var existence := id => a.existence(k, id);
      var v' := One(v, configs, runId, listed[k], existence, a.tornDown(k), a.now(k));
      forall m | 0 <= m < k + 1 && Ours(runId, listed[m].instance) ensures Kept(v', runId, listed[m].instance) {
        if m == k {
          OneKeepsIts(v, configs, runId, listed[k], existence, a.tornDown(k), a.now(k));
        } else {
          OneKeepsOthers(v, configs, runId, listed[k], existence, a.tornDown(k), a.now(k), listed[m].instance);
        }
      }
      FromKeeps(v', configs, runId, listed, a, k + 1);
    }
  }

  /** After reconciling, whatever state was loaded: every instance listed as alive under a name
      of this run is the pod of that job, or its termination has been requested. */
  lemma NoListedPodLost(v: Run, configs: Configs, runId: string, listed: seq<Listed>, a: Answers, m: nat)
    requires runId != "" && Truthful(listed, a) && m < |listed| && Ours(runId, listed[m].instance)
    ensures Kept(All(v, configs, runId, listed, a), runId, listed[m].instance)
  {
    FromKeeps(v, configs, runId, listed, a, 0);
  }

  // ---- is every pod still in somebody's care? ----

  lemma {:induction false} IndexOfSame(a: seq<Job>, b: seq<Job>, name: Name)
    requires |a| == |b| && forall i :: 0 <= i < |a| ==> a[i].name == b[i].name
    ensures IndexOf(a, name) == IndexOf(b, name)
    decreases |a|
  {
    if a != [] {
      IndexOfSame(a[1..], b[1..], name);
    }
  }

  ghost predicate AskedSince(base: seq<Call>, calls: seq<Call>, id: PodId) {
    exists k :: |base| <= k < |calls| && calls[k].Teardown? && calls[k].pod == id
  }

  /** The instance is the pod of the job it is named after, and that job is not over. */
  predicate PodUnderWay(jobs: seq<Job>, runId: string, e: Instance) {
    JobOf(runId, e.name).Some? &&
    var k := IndexOf(jobs, JobOf(runId, e.name).value);
    k < |jobs| && jobs[k].podId == Some(e.id) && !Over(jobs[k].status)
  }

  /** The job that has the instance is not over, or its termination has been requested. */
  ghost predicate WellKept(base: seq<Call>, v: Run, runId: string, e: Instance) {
    AskedSince(base, v.calls, e.id) || PodUnderWay(v.jobs, runId, e)
  }

  /** The instance is named after a job that is over, and it is that job's pod already, or
      replaces one that is gone: nobody is asked to terminate it. */
  predicate Strands(v: Run, configs: Configs, runId: string, e: Listed, existence: PodId -> Tri) {
    JobOf(runId, e.instance.name).Some? &&
    var name := JobOf(runId, e.instance.name).value;
    var k := IndexOf(v.jobs, name);
    && k < |v.jobs| && name in configs && configs[name].provider == e.provider && Over(v.jobs[k].status)
    && v.jobs[k].podId.Some?
    && (v.jobs[k].podId.value == e.instance.id || existence(v.jobs[k].podId.value) == No)
  }

  lemma StrayAskedSince(v: Run, e: Instance, ok: bool)
    ensures AskedSince(v.calls, Strayed(v, e, ok).calls, e.id)
  {
    assert Strayed(v, e, ok).calls[|v.calls|].Teardown?;
  }

  /** One instance of this run: well kept exactly unless it strands. */
  lemma OneWellKept(v: Run, configs: Configs, runId: string, e: Listed, existence: PodId -> Tri, ok: bool, now: real)
    requires Ours(runId, e.instance)
    ensures WellKept(v.calls, One(v, configs, runId, e, existence, ok, now), runId, e.instance)
       <==> !Strands(v, configs, runId, e, existence)
  {
    hide Strayed;
    var name := JobOf(runId, e.instance.name).value;
    var k := IndexOf(v.jobs, name);
    var r := One(v, configs, runId, e, existence, ok, now);
    StrayAskedSince(v, e.instance, ok);
    if r != Strayed(v, e.instance, ok) {
      IndexOfSame(v.jobs, r.jobs, name);
    }
  }

  /** What reconciling may make of a job. */
  predicate MayBecome(j: Job, j': Job, existence: PodId -> Tri) {
    && j'.name == j.name && j'.dependsOn == j.dependsOn && StatusMoves(j.status, j'.status)
    && (if j.podId.Some? then existence(j.podId.value) == No else !Over(j.status))
  }

  /** Only a pending or running job changes its status: it is to be resumed on its new pod. */
  predicate StatusMoves(s: Status, s': Status) {
    s' == s || (s in {Pending, Running} && s' == Provisioning)
  }

  /** At most one job changes, the first of its name. */
  lemma OneJob(v: Run, configs: Configs, runId: string, e: Listed, existence: PodId -> Tri, ok: bool, now: real)
    returns (k: nat)
    ensures var r := One(v, configs, runId, e, existence, ok, now);
      && v.calls <= r.calls
      && (r.jobs != v.jobs ==>
            && k < |v.jobs| && r.jobs == v.jobs[k := r.jobs[k]] && IndexOf(v.jobs, v.jobs[k].name) == k
            && v.jobs[k].name in configs && MayBecome(v.jobs[k], r.jobs[k], existence))
  {
    k := if JobOf(runId, e.instance.name).Some? then IndexOf(v.jobs, JobOf(runId, e.instance.name).value) else |v.jobs|;
  }

  lemma OneNames(v: Run, configs: Configs, runId: string, e: Listed, existence: PodId -> Tri, ok: bool, now: real)
    ensures var r := One(v, configs, runId, e, existence, ok, now);
      && v.calls <= r.calls
      && (forall i :: 0 <= i < |v.jobs| ==> r.jobs[i].name == v.jobs[i].name)
      && (forall i :: 0 <= i < |v.jobs| ==> (Over(r.jobs[i].status) <==> Over(v.jobs[i].status)))
      && (forall i :: 0 <= i < |v.jobs| && r.jobs[i].podId != v.jobs[i].podId ==>
            IndexOf(v.jobs, v.jobs[i].name) == i && v.jobs[i].name in configs &&
            MayBecome(v.jobs[i], r.jobs[i], existence))
  {
    hide One, MayBecome, Over, IndexOf;
    var k := OneJob(v, configs, runId, e, existence, ok, now);
    var r := One(v, configs, runId, e, existence, ok, now);
    if r.jobs != v.jobs {
      BecomingKeeps(v.jobs[k], r.jobs[k], existence);
    }
  }

  lemma BecomingKeeps(j: Job, j': Job, existence: PodId -> Tri)
    requires MayBecome(j, j', existence)
    ensures j'.name == j.name && j'.dependsOn == j.dependsOn && StatusMoves(j.status, j'.status)
    ensures Over(j'.status) <==> Over(j.status)
  {
  }

  /** Dealing with one instance leaves another that is alive well kept. */
  lemma OneKeepsWell(base: seq<Call>, v: Run, configs: Configs, runId: string, e: Listed, existence: PodId -> Tri,
                     ok: bool, now: real, other: Instance)
    requires base <= v.calls && WellKept(base, v, runId, other) && existence(other.id) != No
    ensures WellKept(base, One(v, configs, runId, e, existence, ok, now), runId, other)
  {
    hide One;
    var r := One(v, configs, runId, e, existence, ok, now);
    OneNames(v, configs, runId, e, existence, ok, now);
    if AskedSince(base, v.calls, other.id) {
      var k :| |base| <= k < |v.calls| && v.calls[k].Teardown? && v.calls[k].pod == other.id;
      assert r.calls[k].Teardown?;
    } else {
      IndexOfSame(v.jobs, r.jobs, JobOf(runId, other.name).value);
    }
  }

  /** The job is configured, and the one found under its name. */
  predicate FirstConfigured(jobs: seq<Job>, configs: Configs, i: nat)
    requires i < |jobs|
  {
    IndexOf(jobs, jobs[i].name) == i && jobs[i].name in configs
  }

  /** No configured job that is over still refers to a pod. */
  ghost predicate OverHavePodless(jobs: seq<Job>, configs: Configs) {
    forall i :: 0 <= i < |jobs| && FirstConfigured(jobs, configs, i) && Over(jobs[i].status) ==> jobs[i].podId.None?
  }

  lemma OneKeepsPodless(v: Run, configs: Configs, runId: string, e: Listed, existence: PodId -> Tri, ok: bool,
                        now: real)
    requires OverHavePodless(v.jobs, configs)
    ensures OverHavePodless(One(v, configs, runId, e, existence, ok, now).jobs, configs)
  {
    hide One;
    var r := One(v, configs, runId, e, existence, ok, now);
    OneNames(v, configs, runId, e, existence, ok, now);
    forall i | 0 <= i < |r.jobs| ensures IndexOf(r.jobs, r.jobs[i].name) == IndexOf(v.jobs, v.jobs[i].name) {
      IndexOfSame(v.jobs, r.jobs, r.jobs[i].name);
    }
  }

  lemma {:induction false} FromWellKept(base: seq<Call>, v: Run, configs: Configs, runId: string, listed: seq<Listed>,
                                        a: Answers, k: nat)
    requires k <= |listed| && Truthful(listed, a) && OverHavePodless(v.jobs, configs) && base <= v.calls
    requires forall m :: 0 <= m < k && Ours(runId, listed[m].instance) ==> WellKept(base, v, runId, listed[m].instance)
    ensures forall m :: 0 <= m < |listed| && Ours(runId, listed[m].instance) ==>
              WellKept(base, From(v, configs, runId, listed, a, k), runId, listed[m].instance)
    decreases |listed| - k
  {
    hide WellKept, One, Strands, OverHavePodless;
    if k < |listed| {
      var existence := id => a.existence(k, id);
      var v' := One(v, configs, runId, listed[k], existence, a.tornDown(k), a.now(k));
      OneNames(v, configs, runId, listed[k], existence, a.tornDown(k), a.now(k));
      OneKeepsPodless(v, configs, runId, listed[k], existence, a.tornDown(k), a.now(k));
      forall m | 0 <= m < k + 1 && Ours(runId, listed[m].instance)
        ensures WellKept(base, v', runId, listed[m].instance)
      {
        if m == k {
          PodlessNeverStrands(v, configs, runId, listed[k], existence);
          OneWellKept(v, configs, runId, listed[k], existence, a.tornDown(k), a.now(k));
          WellKeptSince(base, v.calls, v', runId, listed[k].instance);
        } else {
          OneKeepsWell(base, v, configs, runId, listed[k], existence, a.tornDown(k), a.now(k), listed[m].instance);
        }
      }
      FromWellKept(base, v', configs, runId, listed, a, k + 1);
    }
  }

  lemma PodlessNeverStrands(v: Run, configs: Configs, runId: string, e: Listed, existence: PodId -> Tri)
    requires OverHavePodless(v.jobs, configs)
    ensures !Strands(v, configs, runId, e, existence)
  {
  }

  lemma WellKeptSince(base: seq<Call>, later: seq<Call>, v: Run, runId: string, e: Instance)
    requires base <= later && WellKept(later, v, runId, e)
    ensures WellKept(base, v, runId, e)
  {
  }

  /** After reconciling this listing, every listed instance of the run is well kept. */
  ghost predicate AllWellKept(v: Run, configs: Configs, runId: string, listed: seq<Listed>, a: Answers) {
    forall m :: 0 <= m < |listed| && Ours(runId, listed[m].instance) ==>
      WellKept(v.calls, All(v, configs, runId, listed, a), runId, listed[m].instance)
  }

  /** The pod of a job that is over, listed alive, stays as it is. */
  lemma OverKeepsPod(v: Run, configs: Configs, runId: string, i: nat) returns (listed: seq<Listed>, a: Answers)
    requires runId != "" && i < |v.jobs| && IndexOf(v.jobs, v.jobs[i].name) == i
    requires v.jobs[i].name in configs && Over(v.jobs[i].status) && v.jobs[i].podId.Some?
    ensures Truthful(listed, a) && !AllWellKept(v, configs, runId, listed, a)
  {
    var j := v.jobs[i];
    var e := Instance(j.podId.value, PodName(runId, j.name), true);
    NameRoundTrip(runId, j.name);
    listed := [Listed(configs[j.name].provider, e)];
    a := Answers((k, id) => Yes, k => true, k => 0.0);
    OneWellKept(v, configs, runId, listed[0], id => a.existence(0, id), true, 0.0);
    var r := One(v, configs, runId, listed[0], id => a.existence(0, id), true, 0.0);
    assert From(r, configs, runId, listed, a, 1) == r;
    assert All(v, configs, runId, listed, a) == r;
    assert Ours(runId, listed[0].instance);
  }

  /** Whatever is listed: every instance of the run ends as the pod of a job that is not over,
      or its termination has been requested, exactly when no configured job that is over still
      refers to a pod beforehand. */
  lemma WellKeptExactlyWhen(v: Run, configs: Configs, runId: string)
    requires runId != ""
    ensures (forall listed: seq<Listed>, a: Answers :: Truthful(listed, a) ==>
               AllWellKept(v, configs, runId, listed, a))
       <==> OverHavePodless(v.jobs, configs)
  {
    if OverHavePodless(v.jobs, configs) {
      forall listed: seq<Listed>, a: Answers | Truthful(listed, a) ensures AllWellKept(v, configs, runId, listed, a) {
        FromWellKept(v.calls, v, configs, runId, listed, a, 0);
      }
    } else {
      var i :| 0 <= i < |v.jobs| && IndexOf(v.jobs, v.jobs[i].name) == i && v.jobs[i].name in configs &&
               Over(v.jobs[i].status) && v.jobs[i].podId.Some?;
      var listed, a := OverKeepsPod(v, configs, runId, i);
    }
  }

  // ---- who has heard of an instance ----

  /** Some job has the instance for its pod. */
  ghost predicate Tracked(jobs: seq<Job>, id: PodId) {
    exists i :: 0 <= i < |jobs| && jobs[i].podId == Some(id)
  }

  ghost predicate NothingCreated(base: seq<Call>, calls: seq<Call>) {
    base <= calls && forall k :: |base| <= k < |calls| ==> !calls[k].Create?
  }

  /** Since `base` the instance was registered, or its termination requested, before any other
      was created. */
  ghost predicate DealtWith(base: seq<Call>, calls: seq<Call>, id: PodId) {
    exists k :: |base| <= k < |calls| && Addresses(calls[k], id) && forall j :: |base| <= j < k ==> !calls[j].Create?
  }

  predicate Addresses(c: Call, id: PodId) {
    c == Register(id) || (c.Teardown? && c.pod == id)
  }

  lemma DealtLater(base: seq<Call>, calls: seq<Call>, later: seq<Call>, id: PodId)
    requires DealtWith(base, calls, id) && calls <= later
    ensures DealtWith(base, later, id)
  {
    var k :| |base| <= k < |calls| && Addresses(calls[k], id) && forall j :: |base| <= j < k ==> !calls[j].Create?;
    assert Addresses(later[k], id);
  }

  lemma DealtBy(base: seq<Call>, calls: seq<Call>, later: seq<Call>, k: nat, id: PodId)
    requires NothingCreated(base, calls) && NothingCreated(calls, later) && |calls| <= k < |later| &&
             Addresses(later[k], id)
    ensures NothingCreated(base, later) && DealtWith(base, later, id)
  {
    forall j | |base| <= j < |later| ensures !later[j].Create? {
      assert j < |calls| ==> later[j] == calls[j];
    }
  }

  /** Dealing with one instance of the run: it was tracked before or is dealt with; and so is
      any instance that a job tracks afterwards. */
  lemma OneDeals(base: seq<Call>, v: Run, configs: Configs, runId: string, e: Listed, existence: PodId -> Tri, ok: bool,
                 now: real)
    requires NothingCreated(base, v.calls)
    ensures var r := One(v, configs, runId, e, existence, ok, now);
      && v.calls <= r.calls && NothingCreated(base, r.calls)
      && (Ours(runId, e.instance) ==> Tracked(v.jobs, e.instance.id) || DealtWith(base, r.calls, e.instance.id))
      && forall id :: Tracked(r.jobs, id) ==> Tracked(v.jobs, id) || DealtWith(base, r.calls, id)
  {
    var r := One(v, configs, runId, e, existence, ok, now);
    var n, id := |v.calls|, e.instance.id;
    hide NothingCreated, DealtWith, Strayed;
    StrayedCalls(v, e.instance, ok);
    QuietCalls(v.calls, r.calls);
    if r.calls != v.calls {
      var k := if r.calls[n].MarkRegistry? then n + 1 else n;
      DealtBy(base, v.calls, r.calls, k, id);
    }
    forall other | Tracked(r.jobs, other) && !Tracked(v.jobs, other) ensures DealtWith(base, r.calls, other) {
      var i :| 0 <= i < |r.jobs| && r.jobs[i].podId == Some(other);
      assert r.jobs[i] != v.jobs[i];
    }
  }

  lemma StrayedCalls(v: Run, e: Instance, ok: bool)
    ensures var r := Strayed(v, e, ok);
      && r.jobs == v.jobs && |r.calls| == |v.calls| + 2 && v.calls <= r.calls
      && r.calls[|v.calls|] == Teardown(Name(e.name), e.id, ok) && r.calls[|v.calls| + 1] == MarkRegistry(e.id, ok)
  {
  }

  lemma QuietCalls(calls: seq<Call>, later: seq<Call>)
    ensures calls <= later && (forall k :: |calls| <= k < |later| ==> !later[k].Create?) ==>
              NothingCreated(calls, later)
    ensures forall base :: NothingCreated(base, calls) && later == calls ==> NothingCreated(base, later)
  {
  }

  lemma {:induction false} FromDeals(base: seq<Call>, start: seq<Job>, v: Run, configs: Configs, runId: string,
                                     listed: seq<Listed>, a: Answers, k: nat)
    requires k <= |listed| && NothingCreated(base, v.calls)
    requires forall id :: Tracked(v.jobs, id) ==> Tracked(start, id) || DealtWith(base, v.calls, id)
    ensures var r := From(v, configs, runId, listed, a, k);
      && v.calls <= r.calls && NothingCreated(base, r.calls)
      && forall m :: k <= m < |listed| && Ours(runId, listed[m].instance) ==>
           Tracked(start, listed[m].instance.id) || DealtWith(base, r.calls, listed[m].instance.id)
    decreases |listed| - k
  {
    hide NothingCreated, DealtWith, Tracked, One;
    if k < |listed| {
      var existence := id => a.existence(k, id);
      var v' := One(v, configs, runId, listed[k], existence, a.tornDown(k), a.now(k));
      OneDeals(base, v, configs, runId, listed[k], existence, a.tornDown(k), a.now(k));
      forall id | Tracked(v'.jobs, id) && !Tracked(start, id) ensures DealtWith(base, v'.calls, id) {
        if Tracked(v.jobs, id) {
          DealtLater(base, v.calls, v'.calls, id);
        }
      }
      FromDeals(base, start, v', configs, runId, listed, a, k + 1);
      var r, id := From(v', configs, runId, listed, a, k + 1), listed[k].instance.id;
      if Ours(runId, listed[k].instance) && !Tracked(start, id) {
        if Tracked(v.jobs, id) {
          DealtLater(base, v.calls, r.calls, id);
        } else {
          DealtLater(base, v'.calls, r.calls, id);
        }
      }
    }
  }

  /** Reconciling deals with every instance listed alive under a name of the run that no job
      tracked, and creates none. */
  lemma UntrackedAreDealtWith(v: Run, configs: Configs, runId: string, listed: seq<Listed>, a: Answers)
    requires runId != ""
    ensures var r := All(v, configs, runId, listed, a);
      && v.calls <= r.calls
      && forall m :: 0 <= m < |listed| && Ours(runId, listed[m].instance) ==>
           Tracked(v.jobs, listed[m].instance.id) || DealtWith(v.calls, r.calls, listed[m].instance.id)
  {
    FromDeals(v.calls, v.jobs, v, configs, runId, listed, a, 0);
  }

  /** What becomes of one instance of the run, case by case: it is a stray if no configured job
      of that provider carries its name, or that job is over and has no pod, or has another pod
      that is not known to be gone; a job without a pod adopts it; and in place of a pod that is
      gone it is taken anew, nothing of the old pod's address or process kept. */
  lemma OneDecides(v: Run, configs: Configs, runId: string, e: Listed, existence: PodId -> Tri, ok: bool, now: real)
    requires Ours(runId, e.instance)
    ensures var r, id := One(v, configs, runId, e, existence, ok, now), e.instance.id;
      var k := IndexOf(v.jobs, JobOf(runId, e.instance.name).value);
      var known := k < |v.jobs| && v.jobs[k].name in configs && configs[v.jobs[k].name].provider == e.provider;
      if known && v.jobs[k].podId == Some(id) then r == v
      else if known && v.jobs[k].podId == None && v.jobs[k].status !in {Completed, Failed, Skipped} then
        var j := v.jobs[k];
        r == v.(jobs := v.jobs[k := j.(podId := Some(id),
                                       startedAt := if IsSet(j.startedAt) then j.startedAt else Some(now),
                                       status := if j.status == Pending then Provisioning else j.status)],
                calls := v.calls + [Register(id)])
      else if known && v.jobs[k].podId.Some? && existence(v.jobs[k].podId.value) == No then
        var j := v.jobs[k];
        r == v.(jobs := v.jobs[k := j.(podId := Some(id), ssh := None, pid := None,
                                       status := if j.status == Running then Provisioning else j.status)],
                calls := v.calls + [MarkRegistry(j.podId.value, true), Register(id)])
      else
        && r.jobs == v.jobs && r.total == v.total
        && r.calls == v.calls + [Teardown(Name(e.instance.name), id, ok), MarkRegistry(id, ok)]
        && r.log == RecordStop(v.log, Some(id), if ok then StrayTerminated else StrayTerminateFailed, None)
  {
    hide IndexOf;
  }

  // ---- nothing else is touched ----

  /** Instance `id` is listed alive under a name of this run. */
  ghost predicate ListedAsOurs(listed: seq<Listed>, runId: string, id: PodId) {
    exists m :: 0 <= m < |listed| && listed[m].instance.id == id && Ours(runId, listed[m].instance)
  }

  /** The pod is one listed alive under the job's own name. */
  ghost predicate ListedFor(listed: seq<Listed>, runId: string, job: Name, pod: Option<PodId>) {
    exists m :: 0 <= m < |listed| && listed[m].instance.alive && pod == Some(listed[m].instance.id) &&
                JobOf(runId, listed[m].instance.name) == Some(job)
  }

  /** The registry has been told of the pod. */
  predicate Announced(calls: seq<Call>, pod: Option<PodId>) {
    pod.Some? && Register(pod.value) in calls
  }

  /** Between the two states only the run's own instances were terminated, and a job's pod
      changed only to an instance that carries the job's name, of which the registry was
      told. */
  ghost predicate OnlyOurs(v: Run, v': Run, runId: string, listed: seq<Listed>) {
    && |v'.jobs| == |v.jobs| && v.calls <= v'.calls
    && (forall c :: |v.calls| <= c < |v'.calls| && v'.calls[c].Teardown? ==>
          ListedAsOurs(listed, runId, v'.calls[c].pod))
    && (forall i :: 0 <= i < |v.jobs| ==> v'.jobs[i].name == v.jobs[i].name)
    && (forall i :: 0 <= i < |v.jobs| && v'.jobs[i].podId != v.jobs[i].podId ==>
          ListedFor(listed, runId, v.jobs[i].name, v'.jobs[i].podId) && Announced(v'.calls, v'.jobs[i].podId))
    && (UniqueStops(v.log) ==> UniqueStops(v'.log)) && Drift(v') == Drift(v)
  }

  lemma StrayOnlyOurs(v: Run, runId: string, listed: seq<Listed>, e: Instance, ok: bool)
    requires ListedAsOurs(listed, runId, e.id)
    ensures OnlyOurs(v, Strayed(v, e, ok), runId, listed)
  {
  }

  lemma AdoptionOnlyOurs(v: Run, runId: string, listed: seq<Listed>, k: nat, j: Job, more: seq<Call>)
    requires k < |v.jobs| && j.name == v.jobs[k].name && j.cost == v.jobs[k].cost
    requires ListedFor(listed, runId, j.name, j.podId) && (forall c :: c in more ==> !c.Teardown?) &&
             Announced(more, j.podId)
    ensures OnlyOurs(v, v.(jobs := v.jobs[k := j], calls := v.calls + more), runId, listed)
  {
    hide ListedFor, UniqueStops;
    SumCostUpdate(v.jobs, k, j);
  }

  lemma OneOnlyOurs(v: Run, configs: Configs, runId: string, listed: seq<Listed>, k: nat, existence: PodId -> Tri,
                    ok: bool, now: real)
    requires k < |listed|
    ensures OnlyOurs(v, One(v, configs, runId, listed[k], existence, ok, now), runId, listed)
  {
    hide OnlyOurs, Strayed;
    var e := listed[k].instance;
    NothingTouched(v, runId, listed);
    if Ours(runId, e) {
      assert ListedAsOurs(listed, runId, e.id);
      StrayOnlyOurs(v, runId, listed, e, ok);
      var name := JobOf(runId, e.name).value;
      var i := IndexOf(v.jobs, name);
      if i < |v.jobs| {
        assert ListedFor(listed, runId, name, Some(e.id));
        AdoptionOnlyOurs(v, runId, listed, i, Adopted(v.jobs[i], e.id, now), [Register(e.id)]);
        if v.jobs[i].podId.Some? {
          AdoptionOnlyOurs(v, runId, listed, i, Replaced(v.jobs[i], e.id),
                           [MarkRegistry(v.jobs[i].podId.value, true), Register(e.id)]);
        }
      }
    }
  }

  lemma OnlyOursComposes(a: Run, b: Run, c: Run, runId: string, listed: seq<Listed>)
    requires OnlyOurs(a, b, runId, listed) && OnlyOurs(b, c, runId, listed)
    ensures OnlyOurs(a, c, runId, listed)
  {
  }

  lemma {:induction false} FromOnlyOurs(v: Run, configs: Configs, runId: string, listed: seq<Listed>, a: Answers,
                                        k: nat)
    requires k <= |listed|
    ensures OnlyOurs(v, From(v, configs, runId, listed, a, k), runId, listed)
    decreases |listed| - k
  {
    hide One, OnlyOurs;
    if k < |listed| {
      var v' := One(v, configs, runId, listed[k], id => a.existence(k, id), a.tornDown(k), a.now(k));
      OneOnlyOurs(v, configs, runId, listed, k, id => a.existence(k, id), a.tornDown(k), a.now(k));
      FromOnlyOurs(v', configs, runId, listed, a, k + 1);
      OnlyOursComposes(v, v', From(v', configs, runId, listed, a, k + 1), runId, listed);
    } else {
      NothingTouched(v, runId, listed);
    }
  }

  lemma NothingTouched(v: Run, runId: string, listed: seq<Listed>)
    ensures OnlyOurs(v, v, runId, listed)
  {
  }

  /** Reconciling terminates no instance of another run and adopts none. */
  lemma OnlyOwnPodsTouched(v: Run, configs: Configs, runId: string, listed: seq<Listed>, a: Answers)
    ensures OnlyOurs(v, All(v, configs, runId, listed, a), runId, listed)
  {
    hide OnlyOurs;
    NothingTouched(v, runId, listed);
    FromOnlyOurs(v, configs, runId, listed, a, 0);
  }

  // ---- the order of the dependencies ----

  /** Adoption does not look at dependencies: a pending job that gets a pod this way is in
      order exactly when its dependencies happen to be completed. */
  lemma AdoptionInOrder(jobs: seq<Job>, k: nat, id: PodId, now: real)
    requires k < |jobs| && jobs[k].status == Pending && DepSafe(jobs)
    ensures DepSafe(jobs[k := Adopted(jobs[k], id, now)]) <==> DepsCompleted(jobs, jobs[k])
  {
    var r := jobs[k := Adopted(jobs[k], id, now)];
    forall d ensures IsCompleted(jobs, d) <==> IsCompleted(r, d) {
      if IsCompleted(jobs, d) {
        var i :| 0 <= i < |jobs| && jobs[i].name == d && jobs[i].status == Completed;
        assert r[i].name == d && r[i].status == Completed;
      }
      if IsCompleted(r, d) {
        var i :| 0 <= i < |r| && r[i].name == d && r[i].status == Completed;
        assert jobs[i].name == d && jobs[i].status == Completed;
      }
    }
    if DepsCompleted(jobs, jobs[k]) {
      forall i | 0 <= i < |r| && (Active(r[i].status) || r[i].status == Completed) ensures DepsCompleted(r, r[i]) {
        assert DepsCompleted(jobs, jobs[i]);
      }
    }
    if DepSafe(r) {
      assert DepsCompleted(r, r[k]);
    }
  }

  // ---- what it leaves of the statuses ----

  ghost predicate OnlyResumes(a: seq<Job>, b: seq<Job>) {
    SameShape(a, b) && forall i :: 0 <= i < |a| ==> StatusMoves(a[i].status, b[i].status)
  }

  lemma OneOnlyResumes(v: Run, configs: Configs, runId: string, e: Listed, existence: PodId -> Tri, ok: bool, now: real)
    ensures OnlyResumes(v.jobs, One(v, configs, runId, e, existence, ok, now).jobs)
  {
    hide One, MayBecome, StatusMoves, Over, IndexOf;
    var k := OneJob(v, configs, runId, e, existence, ok, now);
    var r := One(v, configs, runId, e, existence, ok, now);
    forall s ensures StatusMoves(s, s) {
      NoMove(s);
    }
    if r.jobs != v.jobs {
      BecomingKeeps(v.jobs[k], r.jobs[k], existence);
    }
  }

  lemma NoMove(s: Status)
    ensures StatusMoves(s, s)
  {
  }

  lemma OnlyResumesComposes(a: seq<Job>, b: seq<Job>, c: seq<Job>)
    requires OnlyResumes(a, b) && OnlyResumes(b, c)
    ensures OnlyResumes(a, c)
  {
  }

  lemma {:induction false} FromOnlyResumes(v: Run, configs: Configs, runId: string, listed: seq<Listed>, a: Answers,
                                           k: nat)
    requires k <= |listed|
    ensures OnlyResumes(v.jobs, From(v, configs, runId, listed, a, k).jobs)
    decreases |listed| - k
  {
    hide One, OnlyResumes;
    if k < |listed| {
      var existence := id => a.existence(k, id);
      var v' := One(v, configs, runId, listed[k], existence, a.tornDown(k), a.now(k));
      OneOnlyResumes(v, configs, runId, listed[k], existence, a.tornDown(k), a.now(k));
      FromOnlyResumes(v', configs, runId, listed, a, k + 1);
      OnlyResumesComposes(v.jobs, v'.jobs, From(v', configs, runId, listed, a, k + 1).jobs);
    } else {
      NothingResumed(v.jobs);
    }
  }

  lemma NothingResumed(jobs: seq<Job>)
    ensures OnlyResumes(jobs, jobs)
  {
  }

  /** Reconciling keeps every outcome and the closure, and skips nobody. */
  lemma ReconcileKeepsOutcomes(v: Run, configs: Configs, runId: string, listed: seq<Listed>, a: Answers,
                               configured: set<Name>)
    ensures var r := All(v, configs, runId, listed, a);
      && OutcomesKept(v.jobs, r.jobs) && (Closed(v.jobs, configured) ==> Closed(r.jobs, configured))
      && (UniqueNames(v.jobs) ==> UniqueNames(r.jobs))
      && forall i :: 0 <= i < |v.jobs| ==> (r.jobs[i].status == Skipped <==> v.jobs[i].status == Skipped)
  {
    NothingResumed(v.jobs);
    if runId != "" {
      FromOnlyResumes(v, configs, runId, listed, a, 0);
    }
    ResumingKeepsClosed(v.jobs, All(v, configs, runId, listed, a).jobs, configured);
  }

  lemma ResumingKeepsClosed(a: seq<Job>, b: seq<Job>, configured: set<Name>)
    requires OnlyResumes(a, b)
    ensures Closed(a, configured) ==> Closed(b, configured)
  {
    if Closed(a, configured) {
      forall k | 0 <= k < |b| && Bad(b[k].status) ensures ShutFor(b, configured, b[k].name, |b|) {
        assert ShutFor(a, configured, a[k].name, |a|);
        forall m | 0 <= m < |b| && DependsOn(b[m], b[k].name) && b[m].name in configured
          ensures b[m].status != Pending
        {
          assert DependsOn(a[m], a[k].name);
        }
      }
    }
  }

  // ---- on the records ----

  method GetJob(state: RunState, name: Name) returns (k: nat)
    ensures k == IndexOf(state.JobViews(), name)
  {
    ghost var views := state.JobViews();
    for i := 0 to |state.jobs|
      invariant views == state.JobViews()
      invariant IndexOf(views, name) == i + IndexOf(views[i..], name)
    {
      if state.jobs[i].name == name {
        return i;
      }
    }
    return |state.jobs|;
  }

  method TerminateStray(state: RunState, e: Instance, ok: bool)
    modifies state`calls, state`log
    ensures state.View() == Strayed(old(state.View()), e, ok)
  {
    state.calls := state.calls + [Teardown(Name(e.name), e.id, ok), MarkRegistry(e.id, ok)];
    var _ := RecordPodStopped(state, Some(e.id), if ok then StrayTerminated else StrayTerminateFailed, None);
  }

  method AdoptInto(state: RunState, job: PodState, id: PodId, now: real)
    modifies state`calls, job
    ensures job.View() == Adopted(old(job.View()), id, now) && state.calls == old(state.calls) + [Register(id)]
  {
    job.podId, job.startedAt := Some(id), SetOr(job.startedAt, now);
    job.status := if job.status == Pending then Provisioning else job.status;
    state.calls := state.calls + [Register(id)];
  }

  method ReplacePod(state: RunState, job: PodState, id: PodId)
    requires job.podId.Some?
    modifies state`calls, job
    ensures job.View() == Replaced(old(job.View()), id)
    ensures state.calls == old(state.calls) + [MarkRegistry(old(job.podId.value), true), Register(id)]
  {
    state.calls := state.calls + [MarkRegistry(job.podId.value, true), Register(id)];
    job.podId, job.ssh, job.pid := Some(id), None, None;
    job.status := if job.status == Running then Provisioning else job.status;
  }

  method ReconcileOne(state: RunState, configs: Configs, runId: string, e: Listed, existence: PodId -> Tri, ok: bool,
                      now: real)
    requires state.Distinct()
    modifies state`calls, state`log, state.jobs
    ensures state.View() == One(old(state.View()), configs, runId, e, existence, ok, now)
  {
    hide Strayed, Adopted, Replaced, IndexOf;
    if !e.instance.alive || !(RunPrefix(runId) <= e.instance.name) {
      return;
    }
    var name := Name(e.instance.name[|RunPrefix(runId)|..]);
    var k := GetJob(state, name);
    if k == |state.jobs| || name !in configs || configs[name].provider != e.provider {
      TerminateStray(state, e.instance, ok);
      return;
    }
    var job := state.jobs[k];
    if job.podId == Some(e.instance.id) {
      return;
    }
    if job.podId.None? {
      if job.status in {Completed, Failed, Skipped} {
        TerminateStray(state, e.instance, ok);
      } else {
        AdoptInto(state, job, e.instance.id, now);
        state.OneJobChanged(k);
      }
      return;
    }
    if existence(job.podId.value) == No {
      ReplacePod(state, job, e.instance.id);
      state.OneJobChanged(k);
    } else {
      TerminateStray(state, e.instance, ok);
    }
  }

  /** `listed` holds the instances of the providers whose listing succeeded. */
  method ReconcileRunPods(state: RunState, configs: Configs, runId: string, listed: seq<Listed>, a: Answers)
    requires state.Distinct()
    modifies state`calls, state`log, state.jobs
    ensures state.View() == All(old(state.View()), configs, runId, listed, a)
  {
    hide One;
    if runId == "" {
      return;
    }
    ghost var result := From(state.View(), configs, runId, listed, a, 0);
    for k := 0 to |listed|
      invariant From(state.View(), configs, runId, listed, a, k) == result
    {
      ReconcileOne(state, configs, runId, listed[k], id => a.existence(k, id), a.tornDown(k), a.now(k));
    }
  }
}
