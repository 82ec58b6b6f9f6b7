/** Which pending jobs may start, which must be skipped, and what every change of a job's
    status keeps true of the whole list. */
module Scheduler {
  import opened Base
  import opened State
  import opened Propagation

  predicate DepsMet(jobs: seq<Job>, j: Job) {
    forall d :: d in j.dependsOn ==> StatusOf(jobs, d) == Some(Completed)
  }

  predicate DepsFailed(jobs: seq<Job>, j: Job) {
    exists d :: d in j.dependsOn && StatusOf(jobs, d) in {Some(Failed), Some(Skipped)}
  }

  predicate Bad(s: Status) {
    s == Failed || s == Skipped
  }

  // ---- invariants of the job list ----

  /** None of the first `k` jobs is configured, pending, and depends on `name`. */
  ghost predicate ShutFor(jobs: seq<Job>, configured: set<Name>, name: Name, k: nat) {
    forall j :: 0 <= j < |jobs| && j < k && DependsOn(jobs[j], name) && jobs[j].name in configured ==>
      jobs[j].status != Pending
  }

  /** None of the first `k` jobs is configured and pending while a job it depends on failed or
      was skipped. */
  ghost predicate ClosedBelow(jobs: seq<Job>, configured: set<Name>, k: nat) {
    forall b :: 0 <= b < |jobs| && Bad(jobs[b].status) ==> ShutFor(jobs, configured, jobs[b].name, k)
  }

  ghost predicate Closed(jobs: seq<Job>, configured: set<Name>) {
    ClosedBelow(jobs, configured, |jobs|)
  }

  ghost predicate IsCompleted(jobs: seq<Job>, name: Name) {
    exists k :: 0 <= k < |jobs| && jobs[k].name == name && jobs[k].status == Completed
  }

  ghost predicate DepsCompleted(jobs: seq<Job>, j: Job) {
    forall d :: d in j.dependsOn ==> IsCompleted(jobs, d)
  }

  /** Every job that started, and has not failed, started after its dependencies completed. */
  ghost predicate DepSafe(jobs: seq<Job>) {
    forall i :: 0 <= i < |jobs| && (Active(jobs[i].status) || jobs[i].status == Completed) ==>
      DepsCompleted(jobs, jobs[i])
  }

  ghost predicate HasSpoiledDep(jobs: seq<Job>, j: Job) {
    exists k :: 0 <= k < |jobs| && DependsOn(j, jobs[k].name) && jobs[k].status in {Failed, Skipped, SyncFailed}
  }

  /** Every job skipped since `start` has a dependency that failed, was skipped or could not
      be synced. */
  ghost predicate SkipsJustified(start: seq<Job>, jobs: seq<Job>) {
    && |start| == |jobs|
    && forall i :: 0 <= i < |jobs| && jobs[i].status == Skipped && start[i].status != Skipped ==>
         HasSpoiledDep(jobs, jobs[i])
  }

  ghost predicate SameShape(a: seq<Job>, b: seq<Job>) {
    && |a| == |b|
    && forall i :: 0 <= i < |a| ==> a[i].name == b[i].name && a[i].dependsOn == b[i].dependsOn
  }

  /** Completed, failed and skipped are final; a job whose sync failed can only turn failed. */
  ghost predicate OutcomesKept(a: seq<Job>, b: seq<Job>) {
    && SameShape(a, b)
    && forall i :: 0 <= i < |a| ==>
         && (a[i].status in {Completed, Failed, Skipped} ==> b[i].status == a[i].status)
         && (a[i].status == SyncFailed ==> b[i].status in {SyncFailed, Failed})
  }

  // ---- one job settles, possibly spreading its failure ----

  /** Job `i` becomes `j`; a failure is spread to the pending jobs that depend on it. */
  ghost function Settle(jobs: seq<Job>, i: nat, j: Job, spread: bool): (r: seq<Job>)
    requires i < |jobs|
    ensures |r| == |jobs|
  {
    if spread then Propagated(jobs[i := j], j.name) else jobs[i := j]
  }

  /** The changes the lifecycle makes to one job. */
  predicate Legal(was: Job, j: Job, spread: bool) {
    && j.name == was.name && j.dependsOn == was.dependsOn
    && !(was.status in {Completed, Failed, Skipped})
    && (was.status == SyncFailed ==> j.status in {SyncFailed, Failed})
    && j.status != Skipped
    && (j.status == Pending ==> was.status == Pending)
    && (j.status == Failed ==> spread)
    && (spread ==> j.status in {Failed, SyncFailed})
  }

  lemma SkipAt(a: seq<Job>, b: seq<Job>, m: nat)
    requires OnlySkips(a, b) && m < |a|
    ensures b[m].name == a[m].name && b[m].dependsOn == a[m].dependsOn
    ensures b[m].status != Skipped ==> b[m] == a[m]
    ensures b[m].status == Skipped ==> a[m].status in {Pending, Skipped}
  {
  }

  lemma SettledJob(jobs: seq<Job>, i: nat, j: Job, spread: bool)
    requires i < |jobs| && Legal(jobs[i], j, spread)
    ensures Settle(jobs, i, j, spread)[i] == j
    ensures OnlySkips(jobs[i := j], Settle(jobs, i, j, spread))
  {
  }

  lemma SettleKeepsOutcomes(jobs: seq<Job>, i: nat, j: Job, spread: bool)
    requires i < |jobs| && Legal(jobs[i], j, spread)
    ensures OutcomesKept(jobs, Settle(jobs, i, j, spread))
  {
  }

  lemma OnlySkipsKeepsOutcomes(a: seq<Job>, b: seq<Job>)
    requires OnlySkips(a, b)
    ensures OutcomesKept(a, b)
  {
  }

  lemma PropagationKeepsClosedBelow(jobs: seq<Job>, configured: set<Name>, name: Name, k: nat)
    requires forall b :: 0 <= b < |jobs| && Bad(jobs[b].status) && jobs[b].name != name ==>
               ShutFor(jobs, configured, jobs[b].name, k)
    ensures ClosedBelow(Propagated(jobs, name), configured, k)
  {
    var r := Propagated(jobs, name);
    PropagatedIsClosed(jobs, name);
    forall b | 0 <= b < |r| && Bad(r[b].status) ensures ShutFor(r, configured, r[b].name, k) {
      if r[b].name != name {
        if NewlySkipped(jobs, r, b) {
          assert Shut(r, r[b].name);
        } else {
          assert ShutFor(jobs, configured, jobs[b].name, k);
          forall m | 0 <= m < |r| && m < k && DependsOn(r[m], r[b].name) && r[m].name in configured
            ensures r[m].status != Pending
          {
            SkipAt(jobs, r, m);
          }
        }
      } else {
        assert Shut(r, name);
      }
    }
  }

  lemma SettleKeepsClosed(jobs: seq<Job>, configured: set<Name>, i: nat, j: Job, spread: bool)
    requires i < |jobs| && Legal(jobs[i], j, spread) && Closed(jobs, configured)
    ensures Closed(Settle(jobs, i, j, spread), configured)
  {
    var mid := jobs[i := j];
    forall b | 0 <= b < |mid| && Bad(mid[b].status) && !(b == i && spread)
      ensures ShutFor(mid, configured, mid[b].name, |mid|)
    {
      assert mid[b] == jobs[b] && ShutFor(jobs, configured, jobs[b].name, |jobs|);
      forall m | 0 <= m < |mid| && DependsOn(mid[m], mid[b].name) && mid[m].name in configured
        ensures mid[m].status != Pending
      {
        assert DependsOn(jobs[m], jobs[b].name);
      }
    }
    if spread {
      PropagationKeepsClosedBelow(mid, configured, j.name, |mid|);
    }
  }

  /** A status change that keeps outcomes keeps completed dependencies completed. */
  lemma CompletedDepsKept(a: seq<Job>, b: seq<Job>, j: Job)
    requires OutcomesKept(a, b) && DepsCompleted(a, j)
    ensures DepsCompleted(b, j)
  {
  }

  lemma DepsMetMeansCompleted(jobs: seq<Job>, j: Job)
    requires DepsMet(jobs, j)
    ensures DepsCompleted(jobs, j)
  {
    forall d | d in j.dependsOn ensures IsCompleted(jobs, d) {
      var k := StatusOfFound(jobs, d);
    }
  }

  lemma SettleKeepsDepSafe(jobs: seq<Job>, i: nat, j: Job, spread: bool)
    requires i < |jobs| && Legal(jobs[i], j, spread) && DepSafe(jobs)
    requires jobs[i].status in {Pending, SyncFailed} && (Active(j.status) || j.status == Completed) ==>
               DepsCompleted(jobs, jobs[i])
    ensures DepSafe(Settle(jobs, i, j, spread))
  {
    var r := Settle(jobs, i, j, spread);
    SettleKeepsOutcomes(jobs, i, j, spread);
    SettledJob(jobs, i, j, spread);
    forall m | 0 <= m < |r| && (Active(r[m].status) || r[m].status == Completed)
      ensures DepsCompleted(r, r[m])
    {
      SkipAt(jobs[i := j], r, m);
      CompletedDepsKept(jobs, r, jobs[m]);
    }
  }

  /** Every job newly skipped by propagation hangs on the origin or on another skipped job. */
  lemma PropagatedSkipsJustified(jobs: seq<Job>, name: Name, i: nat, m: nat)
    requires i < |jobs| && jobs[i].name == name && jobs[i].status in {Failed, SyncFailed, Skipped}
    requires m < |jobs| && Doomed(jobs, name, m)
    ensures HasSpoiledDep(Propagated(jobs, name), Propagated(jobs, name)[m])
  {
    var r := Propagated(jobs, name);
    var p := DoomedVia(jobs, name, m);
    if p.None? {
      if Doomed(jobs, name, i) {
        DoomedIsPending(jobs, name, i);
      }
      assert DependsOn(r[m], r[i].name) && r[i].status in {Failed, Skipped, SyncFailed};
    } else {
      assert DependsOn(r[m], r[p.value].name) && r[p.value].status == Skipped;
    }
  }

  lemma SpoiledDepKept(a: seq<Job>, b: seq<Job>, j: Job)
    requires OutcomesKept(a, b) && HasSpoiledDep(a, j)
    ensures HasSpoiledDep(b, j)
  {
  }

  lemma SettleKeepsJustified(start: seq<Job>, jobs: seq<Job>, i: nat, j: Job, spread: bool)
    requires i < |jobs| && Legal(jobs[i], j, spread) && SkipsJustified(start, jobs)
    ensures SkipsJustified(start, Settle(jobs, i, j, spread))
  {
    var r := Settle(jobs, i, j, spread);
    SettleKeepsOutcomes(jobs, i, j, spread);
    SettledJob(jobs, i, j, spread);
    forall m | 0 <= m < |r| && r[m].status == Skipped && start[m].status != Skipped
      ensures HasSpoiledDep(r, r[m])
    {
      assert m != i;
      if r[m] == jobs[m] {
        SpoiledDepKept(jobs, r, jobs[m]);
      } else {
        assert Doomed(jobs[i := j], j.name, m);
        PropagatedSkipsJustified(jobs[i := j], j.name, i, m);
      }
    }
  }
}
