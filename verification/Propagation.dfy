/** Failure propagation: a failed job skips the pending jobs that depend on it, each of which
    skips its own pending dependents in turn. */
module Propagation {
  import opened Base
  import opened State

  predicate DependsOn(j: Job, name: Name) {
    name in j.dependsOn
  }

  /** A chain of pending jobs, the first depending on `name`, each later one on the job
      before it. */
  ghost predicate PendingChain(jobs: seq<Job>, name: Name, path: seq<nat>) {
    && |path| > 0
    && (forall k :: 0 <= k < |path| ==> path[k] < |jobs| && jobs[path[k]].status == Pending)
    && DependsOn(jobs[path[0]], name)
    && forall k :: 0 < k < |path| ==> DependsOn(jobs[path[k]], jobs[path[k - 1]].name)
  }

  /** Job `i` is pending and reachable from `name` through pending jobs. */
  ghost predicate Doomed(jobs: seq<Job>, name: Name, i: nat) {
    exists path: seq<nat> :: PendingChain(jobs, name, path) && path[|path| - 1] == i
  }

  /** The specification: exactly the doomed jobs become skipped. */
  ghost function Propagated(jobs: seq<Job>, name: Name): (r: seq<Job>)
    ensures |r| == |jobs|
    ensures forall i :: 0 <= i < |jobs| ==>
              r[i] == if Doomed(jobs, name, i) then jobs[i].(status := Skipped) else jobs[i]
  {
    seq(|jobs|, i requires 0 <= i < |jobs| =>
      if Doomed(jobs, name, i) then jobs[i].(status := Skipped) else jobs[i])
  }

  /** None of the first `k` jobs is pending and depends on `name`. */
  ghost predicate ShutBelow(jobs: seq<Job>, name: Name, k: nat) {
    forall j :: 0 <= j < |jobs| && j < k && DependsOn(jobs[j], name) ==> jobs[j].status != Pending
  }

  /** No pending job depends on `name`. */
  ghost predicate Shut(jobs: seq<Job>, name: Name) {
    ShutBelow(jobs, name, |jobs|)
  }

  /** `after` differs from `before` only by pending jobs turned skipped. */
  ghost predicate OnlySkips(before: seq<Job>, after: seq<Job>) {
    && |after| == |before|
    && forall i :: 0 <= i < |before| ==>
         after[i] == before[i] || NewlySkipped(before, after, i)
  }

  ghost predicate NewlySkipped(before: seq<Job>, after: seq<Job>, i: nat)
    requires i < |before| == |after|
  {
    before[i].status == Pending && after[i] == before[i].(status := Skipped)
  }

  /** Between `before` and `now`, only doomed jobs were skipped and every one of them has
      had its own dependents dealt with. */
  ghost predicate Progress(before: seq<Job>, now: seq<Job>, name: Name) {
    && OnlySkips(before, now)
    && forall i :: 0 <= i < |before| && NewlySkipped(before, now, i) ==>
         Doomed(before, name, i) && Shut(now, now[i].name)
  }

  lemma DoomedDirectly(jobs: seq<Job>, name: Name, i: nat)
    requires i < |jobs| && jobs[i].status == Pending && DependsOn(jobs[i], name)
    ensures Doomed(jobs, name, i)
  {
    var path: seq<nat> := [i];
    assert PendingChain(jobs, name, path) && path[|path| - 1] == i;
  }

  lemma DoomedNext(jobs: seq<Job>, name: Name, i: nat, j: nat)
    requires i < |jobs| && Doomed(jobs, name, i)
    requires j < |jobs| && jobs[j].status == Pending && DependsOn(jobs[j], jobs[i].name)
    ensures Doomed(jobs, name, j)
  {
    var path: seq<nat> :| PendingChain(jobs, name, path) && path[|path| - 1] == i;
    var longer: seq<nat> := path + [j];
    forall k | 0 < k < |longer| ensures DependsOn(jobs[longer[k]], jobs[longer[k - 1]].name) {
      if k < |path| {
        assert DependsOn(jobs[path[k]], jobs[path[k - 1]].name);
      }
    }
    assert PendingChain(jobs, name, longer) && longer[|longer| - 1] == j;
  }

  /** A chain found after job `k` was skipped continues a chain through `k`. */
  lemma DoomedThrough(before: seq<Job>, now: seq<Job>, name: Name, k: nat, i: nat)
    requires OnlySkips(before, now) && k < |before| && i < |before|
    requires before[k].status == Pending && DependsOn(before[k], name)
    requires Doomed(now, before[k].name, i)
    ensures Doomed(before, name, i)
  {
    var path: seq<nat> :| PendingChain(now, before[k].name, path) && path[|path| - 1] == i;
    var longer: seq<nat> := [k] + path;
    forall m | 0 <= m < |longer| ensures longer[m] < |before| && before[longer[m]].status == Pending {
      if m > 0 {
        assert path[m - 1] < |now| && now[path[m - 1]].status == Pending;
      }
    }
    forall m | 0 < m < |longer| ensures DependsOn(before[longer[m]], before[longer[m - 1]].name) {
      if m > 1 {
        assert DependsOn(now[path[m - 1]], now[path[m - 2]].name);
      }
    }
    assert PendingChain(before, name, longer) && longer[|longer| - 1] == i;
  }

  lemma ChainPrefix(jobs: seq<Job>, name: Name, path: seq<nat>)
    requires PendingChain(jobs, name, path) && |path| > 1
    ensures PendingChain(jobs, name, path[..|path| - 1])
    ensures DependsOn(jobs[path[|path| - 1]], jobs[path[|path| - 2]].name)
  {
  }

  /** A doomed job depends on the origin or on another doomed job. */
  lemma DoomedVia(jobs: seq<Job>, name: Name, i: nat) returns (p: Option<nat>)
    requires i < |jobs| && Doomed(jobs, name, i)
    ensures jobs[i].status == Pending
    ensures p.None? ==> DependsOn(jobs[i], name)
    ensures p.Some? ==> p.value < |jobs| && DependsOn(jobs[i], jobs[p.value].name)
    ensures p.Some? ==> jobs[p.value].status == Pending && Doomed(jobs, name, p.value)
  {
    var path: seq<nat> :| PendingChain(jobs, name, path) && path[|path| - 1] == i;
    if |path| == 1 {
      p := None;
    } else {
      ChainPrefix(jobs, name, path);
      var shorter := path[..|path| - 1];
      var q := path[|path| - 2];
      assert shorter[|shorter| - 1] == q;
      assert shorter[|shorter| - 1] < |jobs| && jobs[q].status == Pending;
      p := Some(q);
    }
  }

  lemma DoomedIsPending(jobs: seq<Job>, name: Name, i: nat)
    requires i < |jobs| && Doomed(jobs, name, i)
    ensures jobs[i].status == Pending
  {
  }

  /** What propagation leaves behind: no pending job depends on `name` or on a job it
      skipped. */
  lemma PropagatedIsClosed(jobs: seq<Job>, name: Name)
    ensures Progress(jobs, Propagated(jobs, name), name)
    ensures Shut(Propagated(jobs, name), name)
  {
    var r := Propagated(jobs, name);
    forall i | 0 <= i < |jobs| ensures r[i] == jobs[i] || NewlySkipped(jobs, r, i) {
      if Doomed(jobs, name, i) {
        DoomedIsPending(jobs, name, i);
      }
    }
    forall j | 0 <= j < |jobs| && DependsOn(r[j], name) ensures r[j].status != Pending {
      if jobs[j].status == Pending {
        DoomedDirectly(jobs, name, j);
      }
    }
    forall i | 0 <= i < |jobs| && NewlySkipped(jobs, r, i) ensures Doomed(jobs, name, i) && Shut(r, r[i].name) {
      forall j | 0 <= j < |jobs| && DependsOn(r[j], r[i].name) ensures r[j].status != Pending {
        if jobs[j].status == Pending {
          DoomedNext(jobs, name, i, j);
        }
      }
    }
  }

  ghost function Skipping(jobs: seq<Job>, k: nat): seq<Job>
    requires k < |jobs|
  {
    jobs[k := jobs[k].(status := Skipped)]
  }

  /** Skipping job `k` and propagating from it keeps the progress made so far. */
  lemma ProgressThrough(before: seq<Job>, now: seq<Job>, name: Name, k: nat)
    requires Progress(before, now, name) && k < |before| && ShutBelow(now, name, k)
    requires now[k].status == Pending && DependsOn(now[k], name)
    ensures Progress(before, Propagated(Skipping(now, k), now[k].name), name)
    ensures ShutBelow(Propagated(Skipping(now, k), now[k].name), name, k + 1)
  {
    var mid := Skipping(now, k);
    var r := Propagated(mid, now[k].name);
    PropagatedIsClosed(mid, now[k].name);
    assert OnlySkips(now, mid) && OnlySkips(before, mid);
    assert OnlySkips(mid, r);
    forall i | 0 <= i < |before| ensures r[i] == now[i] || NewlySkipped(now, r, i) {
      assert r[i] == mid[i] || NewlySkipped(mid, r, i);
    }
    forall i | 0 <= i < |before| && NewlySkipped(before, r, i)
      ensures Doomed(before, name, i) && Shut(r, r[i].name)
    {
      if i == k {
        DoomedDirectly(before, name, k);
      } else if NewlySkipped(mid, r, i) {
        DoomedThrough(before, mid, name, k, i);
      } else {
        assert NewlySkipped(before, now, i);
        assert Shut(now, now[i].name);
      }
    }
  }

  ghost function PendingSet(jobs: seq<Job>): set<nat> {
    set i: nat | i < |jobs| && jobs[i].status == Pending
  }

  lemma FewerPending(before: seq<Job>, now: seq<Job>, name: Name, k: nat)
    requires Progress(before, now, name) && k < |before| && now[k].status == Pending
    ensures PendingSet(Skipping(now, k)) < PendingSet(before)
  {
    assert k in PendingSet(before) && k !in PendingSet(Skipping(now, k));
  }

  /** Progress that has dealt with every direct dependent is complete. */
  lemma ProgressComplete(before: seq<Job>, now: seq<Job>, name: Name)
    requires Progress(before, now, name) && Shut(now, name)
    ensures now == Propagated(before, name)
  {
    forall i | 0 <= i < |before| ensures now[i] == Propagated(before, name)[i] {
      if Doomed(before, name, i) {
        var path: seq<nat> :| PendingChain(before, name, path) && path[|path| - 1] == i;
        ChainSkipped(before, now, name, path);
      }
    }
  }

  lemma {:induction false} ChainSkipped(before: seq<Job>, now: seq<Job>, name: Name, path: seq<nat>)
    requires Progress(before, now, name) && Shut(now, name)
    requires PendingChain(before, name, path)
    ensures NewlySkipped(before, now, path[|path| - 1])
    decreases |path|
  {
    var i := path[|path| - 1];
    assert path[|path| - 1] < |before| && before[i].status == Pending;
    if |path| > 1 {
      ChainPrefix(before, name, path);
      ChainSkipped(before, now, name, path[..|path| - 1]);
      assert Shut(now, now[path[|path| - 2]].name);
    }
    assert now[i].status != Pending;
  }

  lemma NoProgressYet(jobs: seq<Job>, name: Name)
    ensures Progress(jobs, jobs, name) && ShutBelow(jobs, name, 0)
  {
  }

  lemma ShutMore(jobs: seq<Job>, name: Name, k: nat)
    requires ShutBelow(jobs, name, k) && k < |jobs| && !(DependsOn(jobs[k], name) && jobs[k].status == Pending)
    ensures ShutBelow(jobs, name, k + 1)
  {
  }

  lemma ShutAll(jobs: seq<Job>, name: Name)
    requires ShutBelow(jobs, name, |jobs|)
    ensures Shut(jobs, name)
  {
  }

  /** Terminates on every graph, cyclic ones included: each recursive call follows a job that
      has just left the pending set. */
  method PropagateFailure(state: RunState, name: Name)
    requires state.Distinct()
    modifies state.jobs
    ensures state.JobViews() == Propagated(old(state.JobViews()), name)
    decreases PendingSet(state.JobViews())
  {
    hide Progress, ShutBelow, Shut, Doomed, Propagated, PendingSet;
    ghost var before := state.JobViews();
    NoProgressYet(before, name);
    for k := 0 to |state.jobs|
      invariant Progress(before, state.JobViews(), name)
      invariant ShutBelow(state.JobViews(), name, k)
    {
      var j := state.jobs[k];
      ghost var now := state.JobViews();
      if name in j.dependsOn && j.status == Pending {
        ProgressThrough(before, now, name, k);
        FewerPending(before, now, name, k);
        label unskipped:
        j.status := Skipped;
        state.OneJobChanged@unskipped(k);
        PropagateFailure(state, j.name);
      } else {
        ShutMore(now, name, k);
      }
    }
    ShutAll(state.JobViews(), name);
    ProgressComplete(before, state.JobViews(), name);
  }
}
