/** The scan that opens every start phase: pending jobs whose dependencies failed are
    skipped, those whose dependencies completed are ready. */
module Scan {
  import opened Base
  import opened State
  import opened Propagation
  import opened Scheduler

  /** Job `k` is skipped and its failure spread. */
  ghost function SkipAndSpread(jobs: seq<Job>, k: nat): (r: seq<Job>)
    requires k < |jobs|
    ensures |r| == |jobs|
  {
    Propagated(Skipping(jobs, k), jobs[k].name)
  }

  /** The scan from job `k` on, with the jobs found ready so far. */
  ghost function ScanFrom(jobs: seq<Job>, configured: set<Name>, k: nat, ready: seq<nat>): (r: (seq<Job>, seq<nat>))
    requires k <= |jobs| && forall m :: 0 <= m < |ready| ==> ready[m] < |jobs|
    ensures |r.0| == |jobs| && forall m :: 0 <= m < |r.1| ==> r.1[m] < |jobs|
    decreases |jobs| - k
  {
    if k == |jobs| then (jobs, ready)
    else if jobs[k].status != Pending || jobs[k].name !in configured then
      ScanFrom(jobs, configured, k + 1, ready)
    else if DepsFailed(jobs, jobs[k]) then
      ScanFrom(SkipAndSpread(jobs, k), configured, k + 1, ready)
    else if !DepsMet(jobs, jobs[k]) then
      ScanFrom(jobs, configured, k + 1, ready)
    else
      ScanFrom(jobs, configured, k + 1, ready + [k])
  }

  predicate AllConfigured(jobs: seq<Job>, configured: set<Name>) {
    forall j :: j in jobs ==> j.name in configured
  }

  predicate IsReady(jobs: seq<Job>, configured: set<Name>, i: nat)
    requires i < |jobs|
  {
    jobs[i].status == Pending && jobs[i].name in configured && DepsMet(jobs, jobs[i])
  }

  /** `ready` lists, in order, the ready jobs among the first `k`. */
  ghost predicate ReadyBelow(jobs: seq<Job>, configured: set<Name>, k: nat, ready: seq<nat>) {
    && (forall a, b :: 0 <= a < b < |ready| ==> ready[a] < ready[b])
    && (forall i: nat :: i in ready <==> i < |jobs| && i < k && IsReady(jobs, configured, i))
  }

  lemma {:induction false} CompletedUnderSkips(a: seq<Job>, b: seq<Job>, name: Name)
    requires OnlySkips(a, b)
    ensures StatusOf(a, name) == Some(Completed) <==> StatusOf(b, name) == Some(Completed)
    decreases |a|
  {
    if a != [] {
      SkipAt(a, b, 0);
      assert OnlySkips(a[1..], b[1..]) by {
        forall i | 0 <= i < |a| - 1 ensures a[1..][i] == b[1..][i] || NewlySkipped(a[1..], b[1..], i) {
          assert b[i + 1] == a[i + 1] || NewlySkipped(a, b, i + 1);
        }
      }
      CompletedUnderSkips(a[1..], b[1..], name);
    }
  }

  lemma DepsMetUnderSkips(a: seq<Job>, b: seq<Job>, j: Job)
    requires OnlySkips(a, b)
    ensures DepsMet(a, j) <==> DepsMet(b, j)
  {
    forall d ensures StatusOf(a, d) == Some(Completed) <==> StatusOf(b, d) == Some(Completed) {
      CompletedUnderSkips(a, b, d);
    }
  }

  lemma NoSkips(jobs: seq<Job>)
    ensures OnlySkips(jobs, jobs)
  {
  }

  lemma OnlySkipsCompose(a: seq<Job>, b: seq<Job>, c: seq<Job>)
    requires OnlySkips(a, b) && OnlySkips(b, c)
    ensures OnlySkips(a, c)
  {
  }

  /** A job that is not pending, not configured, or without a failed dependency. */
  predicate Unblocked(jobs: seq<Job>, configured: set<Name>, k: nat)
    requires k < |jobs|
  {
    jobs[k].status != Pending || jobs[k].name !in configured || !DepsFailed(jobs, jobs[k])
  }

  lemma UnblockedExtends(jobs: seq<Job>, configured: set<Name>, k: nat)
    requires UniqueNames(jobs) && k < |jobs| && Unblocked(jobs, configured, k) && ClosedBelow(jobs, configured, k)
    ensures ClosedBelow(jobs, configured, k + 1)
  {
    forall b | 0 <= b < |jobs| && Bad(jobs[b].status) ensures ShutFor(jobs, configured, jobs[b].name, k + 1) {
      StatusOfAt(jobs, b);
      assert ShutFor(jobs, configured, jobs[b].name, k);
    }
  }

  /** Skipping job `k` and propagating closes the list up to and including `k`. */
  lemma SkipCloses(jobs: seq<Job>, configured: set<Name>, k: nat)
    requires k < |jobs| && jobs[k].status == Pending && ClosedBelow(jobs, configured, k)
    ensures OnlySkips(jobs, SkipAndSpread(jobs, k))
    ensures ClosedBelow(SkipAndSpread(jobs, k), configured, k + 1)
    ensures SkipAndSpread(jobs, k)[k].status == Skipped
  {
    var mid := Skipping(jobs, k);
    var r := SkipAndSpread(jobs, k);
    PropagatedIsClosed(mid, jobs[k].name);
    assert OnlySkips(jobs, mid);
    OnlySkipsCompose(jobs, mid, r);
    forall b | 0 <= b < |mid| && Bad(mid[b].status) && mid[b].name != jobs[k].name
      ensures ShutFor(mid, configured, mid[b].name, k + 1)
    {
      assert mid[b] == jobs[b] && ShutFor(jobs, configured, jobs[b].name, k);
    }
    PropagationKeepsClosedBelow(mid, configured, jobs[k].name, k + 1);
    SkipAt(mid, r, k);
  }

  lemma SkipKeepsReady(jobs: seq<Job>, configured: set<Name>, k: nat, ready: seq<nat>)
    requires UniqueNames(jobs) && k < |jobs| && jobs[k].status == Pending
    requires OnlySkips(jobs, SkipAndSpread(jobs, k)) && SkipAndSpread(jobs, k)[k].status == Skipped
    requires ReadyBelow(jobs, configured, k, ready)
    ensures ReadyBelow(SkipAndSpread(jobs, k), configured, k + 1, ready)
  {
    var r := SkipAndSpread(jobs, k);
    forall i: nat ensures i in ready <==> i < |r| && i < k + 1 && IsReady(r, configured, i) {
      if i < k {
        ReadyUntouched(jobs, configured, r, k, i);
      }
    }
  }

  /** A ready job has only completed dependencies, so no later skip reaches it. */
  lemma ReadyUntouched(jobs: seq<Job>, configured: set<Name>, r: seq<Job>, k: nat, i: nat)
    requires k < |jobs| && jobs[k].status == Pending && UniqueNames(jobs) && i < k
    requires r == SkipAndSpread(jobs, k) && OnlySkips(jobs, r)
    ensures IsReady(jobs, configured, i) <==> IsReady(r, configured, i)
  {
    SkipAt(jobs, r, i);
    DepsMetUnderSkips(jobs, r, jobs[i]);
    if IsReady(jobs, configured, i) && r[i].status == Skipped {
      var mid := Skipping(jobs, k);
      assert Doomed(mid, jobs[k].name, i);
      var p := DoomedVia(mid, jobs[k].name, i);
      StatusOfAt(jobs, if p.None? then k else p.value);
      assert false;
    }
  }

  lemma SkipsJustifiedStep(start: seq<Job>, jobs: seq<Job>, k: nat)
    requires k < |jobs| && jobs[k].status == Pending && DepsFailed(jobs, jobs[k])
    requires SkipsJustified(start, jobs)
    requires OnlySkips(jobs, SkipAndSpread(jobs, k))
    ensures SkipsJustified(start, SkipAndSpread(jobs, k))
  {
    var mid := Skipping(jobs, k);
    var r := SkipAndSpread(jobs, k);
    OnlySkipsKeepsOutcomes(jobs, r);
    forall m | 0 <= m < |r| && r[m].status == Skipped && start[m].status != Skipped
      ensures HasSpoiledDep(r, r[m])
    {
      SkipAt(jobs, r, m);
      if jobs[m].status == Skipped {
        SpoiledDepKept(jobs, r, jobs[m]);
      } else if m == k {
        var d :| d in jobs[k].dependsOn && StatusOf(jobs, d) in {Some(Failed), Some(Skipped)};
        var f := StatusOfFound(jobs, d);
        assert DependsOn(jobs[k], jobs[f].name);
        assert HasSpoiledDep(jobs, jobs[k]);
        SpoiledDepKept(jobs, r, jobs[k]);
      } else {
        assert Doomed(mid, jobs[k].name, m);
        PropagatedSkipsJustified(mid, jobs[k].name, k, m);
      }
    }
  }

  /** What the scan of the first `k` jobs has established. */
  ghost predicate Scanned(start: seq<Job>, jobs: seq<Job>, configured: set<Name>, k: nat, ready: seq<nat>) {
    && k <= |jobs| && UniqueNames(jobs) && SkipsJustified(start, jobs)
    && ClosedBelow(jobs, configured, k) && ReadyBelow(jobs, configured, k, ready)
  }

  lemma ScanSkips(start: seq<Job>, jobs: seq<Job>, configured: set<Name>, k: nat, ready: seq<nat>)
    requires Scanned(start, jobs, configured, k, ready)
    requires k < |jobs| && jobs[k].status == Pending && DepsFailed(jobs, jobs[k])
    ensures Scanned(start, SkipAndSpread(jobs, k), configured, k + 1, ready)
    ensures OnlySkips(jobs, SkipAndSpread(jobs, k))
  {
    hide SkipAndSpread, SkipsJustified, DepsFailed;
    SkipCloses(jobs, configured, k);
    SkipKeepsReady(jobs, configured, k, ready);
    SkipsJustifiedStep(start, jobs, k);
    KeepsNames(jobs, SkipAndSpread(jobs, k), configured);
  }

  lemma ScanPasses(start: seq<Job>, jobs: seq<Job>, configured: set<Name>, k: nat, ready: seq<nat>)
    requires Scanned(start, jobs, configured, k, ready) && k < |jobs| && Unblocked(jobs, configured, k)
    ensures Scanned(start, jobs, configured, k + 1, if IsReady(jobs, configured, k) then ready + [k] else ready)
  {
    UnblockedExtends(jobs, configured, k);
    var ready' := if IsReady(jobs, configured, k) then ready + [k] else ready;
    forall i: nat ensures i in ready' <==> i < |jobs| && i < k + 1 && IsReady(jobs, configured, i) {
      assert i in ready' <==> i in ready || (i == k && IsReady(jobs, configured, k));
    }
    forall a, b | 0 <= a < b < |ready'| ensures ready'[a] < ready'[b] {
      assert ready'[a] in ready;
    }
  }

  lemma ScannedInRange(start: seq<Job>, jobs: seq<Job>, configured: set<Name>, k: nat, ready: seq<nat>)
    requires Scanned(start, jobs, configured, k, ready)
    ensures k <= |jobs| && forall m :: 0 <= m < |ready| ==> ready[m] < |jobs|
  {
    forall m | 0 <= m < |ready| ensures ready[m] < |jobs| {
      assert ready[m] in ready;
    }
  }

  /** After the scan no configured pending job depends on a failed or skipped one, exactly the
      configured pending jobs with completed dependencies are ready, and skips are the only
      changes. */
  lemma {:induction false} ScanResult(start: seq<Job>, jobs: seq<Job>, configured: set<Name>, k: nat, ready: seq<nat>)
    requires Scanned(start, jobs, configured, k, ready)
    ensures forall m :: 0 <= m < |ready| ==> ready[m] < |jobs|
    ensures var (r, rd) := ScanFrom(jobs, configured, k, ready);
      OnlySkips(jobs, r) && Scanned(start, r, configured, |r|, rd)
    decreases |jobs| - k
  {
    hide Scanned, OnlySkips, DepsFailed, DepsMet, SkipAndSpread;
    ScannedInRange(start, jobs, configured, k, ready);
    if k < |jobs| {
      if !Unblocked(jobs, configured, k) {
        ScanSkips(start, jobs, configured, k, ready);
        var r := SkipAndSpread(jobs, k);
        ScanResult(start, r, configured, k + 1, ready);
        OnlySkipsCompose(jobs, r, ScanFrom(r, configured, k + 1, ready).0);
      } else {
        ScanPasses(start, jobs, configured, k, ready);
        ScanResult(start, jobs, configured, k + 1, if IsReady(jobs, configured, k) then ready + [k] else ready);
      }
    } else {
      NoSkips(jobs);
    }
  }

  lemma KeepsNames(a: seq<Job>, b: seq<Job>, configured: set<Name>)
    requires SameShape(a, b) || OnlySkips(a, b)
    ensures UniqueNames(a) ==> UniqueNames(b)
    ensures AllConfigured(a, configured) ==> AllConfigured(b, configured)
  {
  }

  // ---- the scan on the records ----

  method GetStatus(state: RunState, name: Name) returns (s: Option<Status>)
    ensures s == StatusOf(state.JobViews(), name)
  {
    ghost var views := state.JobViews();
    for k := 0 to |state.jobs|
      invariant views == state.JobViews()
      invariant StatusOf(views, name) == StatusOf(views[k..], name)
    {
      if state.jobs[k].name == name {
        return Some(state.jobs[k].status);
      }
    }
    return None;
  }

  method CheckDepsMet(state: RunState, i: nat) returns (met: bool)
    requires i < |state.jobs|
    ensures met <==> DepsMet(state.JobViews(), state.JobViews()[i])
  {
    var deps := state.jobs[i].dependsOn;
    for k := 0 to |deps|
      invariant forall d :: d in deps[..k] ==> StatusOf(state.JobViews(), d) == Some(Completed)
    {
      var s := GetStatus(state, deps[k]);
      if s != Some(Completed) {
        assert deps[k] in deps;
        return false;
      }
    }
    assert deps[..|deps|] == deps;
    return true;
  }

  method CheckDepsFailed(state: RunState, i: nat) returns (failed: bool)
    requires i < |state.jobs|
    ensures failed <==> DepsFailed(state.JobViews(), state.JobViews()[i])
  {
    var deps := state.jobs[i].dependsOn;
    for k := 0 to |deps|
      invariant forall d :: d in deps[..k] ==> !(StatusOf(state.JobViews(), d) in {Some(Failed), Some(Skipped)})
    {
      var s := GetStatus(state, deps[k]);
      if s == Some(Failed) || s == Some(Skipped) {
        assert deps[k] in deps;
        return true;
      }
    }
    assert deps[..|deps|] == deps;
    return false;
  }

  method SkipJob(state: RunState, k: nat)
    requires state.Distinct() && k < |state.jobs|
    modifies state.jobs
    ensures state.JobViews() == SkipAndSpread(old(state.JobViews()), k)
  {
    hide Propagated;
    state.jobs[k].status := Skipped;
    state.OneJobChanged(k);
    PropagateFailure(state, state.jobs[k].name);
  }

  method ScanJobs(state: RunState, configured: set<Name>) returns (ready: seq<nat>)
    requires state.Distinct()
    modifies state.jobs
    ensures forall m :: 0 <= m < |ready| ==> ready[m] < |state.jobs|
    ensures (state.JobViews(), ready) == ScanFrom(old(state.JobViews()), configured, 0, [])
  {
    hide DepsFailed, DepsMet, SkipAndSpread;
    ghost var result := ScanFrom(state.JobViews(), configured, 0, []);
    ready := [];
    for k := 0 to |state.jobs|
      invariant forall m :: 0 <= m < |ready| ==> ready[m] < |state.jobs|
      invariant ScanFrom(state.JobViews(), configured, k, ready) == result
    {
      var job := state.jobs[k];
      if job.status != Pending || job.name !in configured {
        continue;
      }
      var failed := CheckDepsFailed(state, k);
      if failed {
        SkipJob(state, k);
        continue;
      }
      var met := CheckDepsMet(state, k);
      if met {
        ready := ready + [k];
      }
    }
  }
}
