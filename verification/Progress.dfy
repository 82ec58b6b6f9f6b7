/** Deadlock freedom: after a start phase, a run that is not over either has a job under way,
    or everything still pending waits for a job whose final sync failed. */
module Progress {
  import opened Base
  import opened DependencyGraph
  import opened State
  import opened Propagation
  import opened Scheduler
  import opened Scan
  import opened JobSteps
  import opened JobFacts
  import opened Lifecycle
  import opened Validator
  import opened RunFacts

  /** The jobs are those of the configuration, in any order and in any state. */
  ghost predicate Mirrors(jobs: seq<Job>, entries: seq<Entry>) {
    && (forall a, b :: 0 <= a < b < |entries| ==> entries[a].name != entries[b].name)
    && (forall i :: 0 <= i < |jobs| ==> Entry(jobs[i].name, jobs[i].dependsOn) in entries)
    && forall e :: e in entries ==> exists i :: 0 <= i < |jobs| && jobs[i].name == e.name
  }

  ghost predicate DepsKnown(jobs: seq<Job>) {
    forall i, d :: 0 <= i < |jobs| && d in jobs[i].dependsOn ==> exists q :: 0 <= q < |jobs| && jobs[q].name == d
  }

  /** Every job has a rank above the ranks of the jobs it depends on. */
  ghost predicate Ranked(jobs: seq<Job>, rank: seq<nat>) {
    && |rank| == |jobs|
    && forall i, q :: 0 <= i < |jobs| && 0 <= q < |jobs| && DependsOn(jobs[i], jobs[q].name) ==> rank[q] < rank[i]
  }

  /** A chain of pending jobs, each depending on the next, that ends at a job whose sync
      failed. */
  ghost predicate SyncChain(jobs: seq<Job>, path: seq<nat>) {
    && |path| >= 2
    && (forall k :: 0 <= k < |path| ==> path[k] < |jobs|)
    && (forall k :: 0 <= k < |path| - 1 ==>
          jobs[path[k]].status == Pending && DependsOn(jobs[path[k]], jobs[path[k + 1]].name))
    && jobs[path[|path| - 1]].status == SyncFailed
  }

  ghost predicate AwaitsSync(jobs: seq<Job>, i: nat) {
    exists path: seq<nat> :: SyncChain(jobs, path) && path[0] == i
  }

  lemma {:induction false} DepsMapAt(entries: seq<Entry>, k: nat)
    requires k < |entries| && forall a, b :: 0 <= a < b < |entries| ==> entries[a].name != entries[b].name
    ensures DepsMap(entries)[entries[k].name] == entries[k].dependsOn
  {
    var last := |entries| - 1;
    if k < last {
      DepsMapAt(entries[..last], k);
    }
  }

  function IndexIn(order: seq<Name>, n: Name): (k: nat)
    requires n in order
    ensures k < |order| && order[k] == n
  {
    if order[0] == n then 0 else 1 + IndexIn(order[1..], n)
  }

  lemma ConfiguredDeps(jobs: seq<Job>, entries: seq<Entry>, i: nat)
    requires Mirrors(jobs, entries) && i < |jobs|
    ensures jobs[i].name in DepsMap(entries) && DepsMap(entries)[jobs[i].name] == jobs[i].dependsOn
  {
    var e := Entry(jobs[i].name, jobs[i].dependsOn);
    var k :| 0 <= k < |entries| && entries[k] == e;
    assert e.name in Names(entries);
    DepsMapAt(entries, k);
  }

  /** An order that lists every job after its dependencies gives such ranks. */
  lemma OrderRanks(jobs: seq<Job>, entries: seq<Entry>, order: seq<Name>) returns (rank: seq<nat>)
    requires UniqueNames(jobs) && Mirrors(jobs, entries) && IsTopologicalOrder(DepsMap(entries), order)
    ensures Ranked(jobs, rank)
  {
    hide Mirrors, DepsMap, UniqueNames;
    var g := DepsMap(entries);
    forall i | 0 <= i < |jobs|
      ensures jobs[i].name in order && jobs[i].name in g && g[jobs[i].name] == jobs[i].dependsOn
    {
      ConfiguredDeps(jobs, entries, i);
    }
    rank := seq(|jobs|, i requires 0 <= i < |jobs| => IndexIn(order, jobs[i].name));
    forall i, q | 0 <= i < |jobs| && 0 <= q < |jobs| && DependsOn(jobs[i], jobs[q].name) ensures rank[q] < rank[i] {
      assert Edge(g, order[rank[i]], jobs[q].name);
      var k :| 0 <= k < rank[i] && order[k] == jobs[q].name;
      assert k == rank[q];
    }
  }

  /** The outcome of a start phase after its scan: each ready job runs or failed, and the
      others changed at most from pending to skipped. */
  ghost predicate StartedAll(before: seq<Job>, after: seq<Job>, ready: seq<nat>) {
    && SameShape(before, after)
    && forall i: nat :: i < |before| ==>
         if i in ready then after[i].status in {Running, Failed}
         else after[i] == before[i] || NewlySkipped(before, after, i)
  }

  lemma OneStarted(configs: Configs, v: Run, ready: seq<nat>, a: PipelineAnswers)
    requires UniqueNames(v.jobs) && AllConfigured(v.jobs, configs.Keys) && AllReady(v.jobs, configs.Keys, ready) &&
             ready != []
    requires v.jobs[ready[0]].name in configs && Closed(v.jobs, configs.Keys) && RunsToEnd(a)
    ensures var r := Started(v, configs, ready[0], a);
      && UniqueNames(r.jobs) && AllConfigured(r.jobs, configs.Keys) && AllReady(r.jobs, configs.Keys, ready[1..]) &&
         Closed(r.jobs, configs.Keys)
      && SameShape(v.jobs, r.jobs) && r.jobs[ready[0]].status in {Running, Failed}
      && (forall m :: 0 <= m < |v.jobs| && m != ready[0] ==> r.jobs[m] == v.jobs[m] || NewlySkipped(v.jobs, r.jobs, m))
      && forall k :: 1 <= k < |ready| ==> r.jobs[ready[k]] == v.jobs[ready[k]]
  {
    var i := ready[0];
    var l, cfg := LocalOf(v, i), configs[v.jobs[i].name];
    var o := Pipeline(l, cfg, a, false);
    PipelineLawful(l, cfg, a);
    PipelineFacts(l, cfg, a, false);
    hide Pipeline, StepKeeps, PipelineKeeps, DepsCompleted;
    OthersStayReady(v.jobs, configs.Keys, ready, o.at.job, o.spread);
    SettleKeepsOutcomes(v.jobs, i, o.at.job, o.spread);
    KeepsNames(v.jobs, Settle(v.jobs, i, o.at.job, o.spread), configs.Keys);
    SettleKeepsClosed(v.jobs, configs.Keys, i, o.at.job, o.spread);
    SettledJob(v.jobs, i, o.at.job, o.spread);
    var r := Settle(v.jobs, i, o.at.job, o.spread);
    hide Settle, Legal, Closed;
    forall m | 0 <= m < |v.jobs| && m != i ensures r[m] == v.jobs[m] || NewlySkipped(v.jobs, r, m) {
      assert r[m] == v.jobs[i := o.at.job][m] || NewlySkipped(v.jobs[i := o.at.job], r, m);
    }
    forall k | 1 <= k < |ready| ensures r[ready[k]] == v.jobs[ready[k]] {
      ReadyStays(v.jobs, i, o.at.job, o.spread, ready[k]);
    }
  }

  lemma {:induction false} AllStarted(configs: Configs, v: Run, ready: seq<nat>, answer: nat -> PipelineAnswers)
    requires UniqueNames(v.jobs) && AllConfigured(v.jobs, configs.Keys) && AllReady(v.jobs, configs.Keys, ready)
    requires Closed(v.jobs, configs.Keys) && forall i: nat :: RunsToEnd(answer(i))
    ensures var r := StartInOrder(v, configs, ready, answer);
      StartedAll(v.jobs, r.jobs, ready) && Closed(r.jobs, configs.Keys)
    decreases |ready|
  {
    hide Closed, Pipeline, Apply, RunsToEnd, DepsCompleted;
    if ready != [] {
      var i := ready[0];
      assert v.jobs[i] in v.jobs;
      var v' := Started(v, configs, i, answer(i));
      OneStarted(configs, v, ready, answer(i));
      AllStarted(configs, v', ready[1..], answer);
      var r := StartInOrder(v', configs, ready[1..], answer);
      StartedCompose(configs.Keys, v.jobs, v'.jobs, r.jobs, ready);
    }
  }

  lemma StartedCompose(configured: set<Name>, a: seq<Job>, b: seq<Job>, c: seq<Job>, ready: seq<nat>)
    requires ready != [] && SameShape(a, b) && StartedAll(b, c, ready[1..]) && AllReady(a, configured, ready)
    requires b[ready[0]].status in {Running, Failed}
    requires forall m :: 0 <= m < |a| && m != ready[0] ==> b[m] == a[m] || NewlySkipped(a, b, m)
    ensures StartedAll(a, c, ready)
  {
  }

  lemma PendingNotOnBad(r: seq<Job>, configured: set<Name>, i: nat, q: nat)
    requires Closed(r, configured) && AllConfigured(r, configured) && i < |r| && q < |r| && r[i].status == Pending &&
             DependsOn(r[i], r[q].name)
    ensures !Bad(r[q].status)
  {
  }

  /** A job that is pending after the start phase has a dependency that is under way, pending
      as well, or whose sync failed. */
  lemma PendingHasReason(configured: set<Name>, s: seq<Job>, r: seq<Job>, ready: seq<nat>, i: nat) returns (q: nat)
    requires UniqueNames(s) && DepsKnown(s) && ReadyBelow(s, configured, |s|, ready)
    requires StartedAll(s, r, ready) && Closed(r, configured) && AllConfigured(s, configured) &&
             AllConfigured(r, configured)
    requires i < |r| && r[i].status == Pending
    ensures q < |r| && DependsOn(r[i], r[q].name)
    ensures Active(r[q].status) || r[q].status in {Pending, SyncFailed}
  {
    assert i !in ready && s[i].status == Pending;
    assert !IsReady(s, configured, i);
    var d :| d in s[i].dependsOn && StatusOf(s, d) != Some(Completed);
    var k :| 0 <= k < |s| && s[k].name == d;
    StatusOfAt(s, k);
    q := k;
    assert DependsOn(r[i], r[q].name);
    PendingNotOnBad(r, configured, i, q);
  }

  lemma {:induction false} PendingAwaits(configured: set<Name>, s: seq<Job>, r: seq<Job>, ready: seq<nat>,
                                         rank: seq<nat>, i: nat)
    requires UniqueNames(s) && DepsKnown(s) && ReadyBelow(s, configured, |s|, ready) && Ranked(s, rank)
    requires StartedAll(s, r, ready) && Closed(r, configured) && AllConfigured(s, configured) &&
             AllConfigured(r, configured)
    requires forall m :: 0 <= m < |r| ==> !Active(r[m].status)
    requires i < |r| && r[i].status == Pending
    ensures AwaitsSync(r, i)
    decreases rank[i]
  {
    var q := PendingHasReason(configured, s, r, ready, i);
    if r[q].status == SyncFailed {
      assert SyncChain(r, [i, q]);
    } else {
      assert DependsOn(s[i], s[q].name);
      PendingAwaits(configured, s, r, ready, rank, q);
      var path: seq<nat> :| SyncChain(r, path) && path[0] == q;
      var longer := [i] + path;
      forall k | 0 <= k < |longer| - 1
        ensures longer[k] < |r| && r[longer[k]].status == Pending && DependsOn(r[longer[k]], r[longer[k + 1]].name)
      {
        if k > 0 {
          assert longer[k] == path[k - 1] && longer[k + 1] == path[k];
        }
      }
      assert SyncChain(r, longer);
    }
  }

  lemma ScanForProgress(configs: Configs, v: Run)
    requires UniqueNames(v.jobs) && AllConfigured(v.jobs, configs.Keys)
    ensures var (jobs, ready) := ScanFrom(v.jobs, configs.Keys, 0, []);
      && UniqueNames(jobs) && AllConfigured(jobs, configs.Keys) && SameShape(v.jobs, jobs)
      && Closed(jobs, configs.Keys) && AllReady(jobs, configs.Keys, ready)
      && ReadyBelow(jobs, configs.Keys, |jobs|, ready)
  {
    ScanKeeps(v, configs, v);
  }

  /** Every job is over, or some job is under way, or every pending job waits, through pending
      jobs, for one whose final sync failed. */
  ghost predicate Unstuck(r: seq<Job>) {
    || (forall i :: 0 <= i < |r| ==> Terminal(r[i].status))
    || (exists i :: 0 <= i < |r| && Active(r[i].status))
    || forall i: nat :: i < |r| && r[i].status == Pending ==> AwaitsSync(r, i)
  }

  /** When the dependency check accepts the configuration and no shutdown interferes, a start
      phase never leaves the run stuck. */
  lemma NoDeadlock(configs: Configs, v: Run, answer: nat -> PipelineAnswers, entries: seq<Entry>, order: seq<Name>)
    requires UniqueNames(v.jobs) && AllConfigured(v.jobs, configs.Keys) && Mirrors(v.jobs, entries)
    requires AllDepsKnown(entries)
    requires IsTopologicalOrder(DepsMap(entries), order)
    requires forall i: nat :: RunsToEnd(answer(i))
    ensures Unstuck(Start(v, configs, false, answer).jobs)
  {
    hide Start, StartInOrder, Closed, ReadyBelow, AllReady, RunsToEnd, Mirrors, Unstuck, Ranked, DepsKnown, StartedAll,
      AllDepsKnown, IsTopologicalOrder;
    var rank := OrderRanks(v.jobs, entries, order);
    EntriesKnown(v.jobs, entries);
    ScanForProgress(configs, v);
    var (s, ready) := ScanFrom(v.jobs, configs.Keys, 0, []);
    AllStarted(configs, v.(jobs := s), ready, answer);
    var r := StartInOrder(v.(jobs := s), configs, ready, answer).jobs;
    ShapeCarries(v.jobs, s, rank);
    NotStuck(configs.Keys, s, r, ready, rank);
    StartIsInOrder(configs, v, answer);
  }

  lemma StartIsInOrder(configs: Configs, v: Run, answer: nat -> PipelineAnswers)
    ensures var (s, ready) := ScanFrom(v.jobs, configs.Keys, 0, []);
      Start(v, configs, false, answer) == StartInOrder(v.(jobs := s), configs, ready, answer)
  {
  }

  lemma ShapeCarries(a: seq<Job>, b: seq<Job>, rank: seq<nat>)
    requires SameShape(a, b) && DepsKnown(a) && Ranked(a, rank)
    ensures DepsKnown(b) && Ranked(b, rank)
  {
    forall i, d | 0 <= i < |b| && d in b[i].dependsOn ensures exists q :: 0 <= q < |b| && b[q].name == d {
      var q :| 0 <= q < |a| && a[q].name == d;
      assert b[q].name == d;
    }
    forall i, q | 0 <= i < |b| && 0 <= q < |b| && DependsOn(b[i], b[q].name) ensures rank[q] < rank[i] {
      assert DependsOn(a[i], a[q].name);
    }
  }

  lemma NotStuck(configured: set<Name>, s: seq<Job>, r: seq<Job>, ready: seq<nat>, rank: seq<nat>)
    requires UniqueNames(s) && DepsKnown(s) && ReadyBelow(s, configured, |s|, ready) && Ranked(s, rank)
    requires StartedAll(s, r, ready) && Closed(r, configured) && AllConfigured(s, configured)
    ensures Unstuck(r)
  {
    hide ReadyBelow, Ranked, Closed, DepsKnown, AwaitsSync;
    KeepsNames(s, r, configured);
    if forall i :: 0 <= i < |r| ==> !Active(r[i].status) {
      forall i: nat | i < |r| && r[i].status == Pending ensures AwaitsSync(r, i) {
        PendingAwaits(configured, s, r, ready, rank, i);
      }
    }
  }

  lemma EntriesKnown(jobs: seq<Job>, entries: seq<Entry>)
    requires Mirrors(jobs, entries) && AllDepsKnown(entries)
    ensures DepsKnown(jobs)
  {
    forall i, d | 0 <= i < |jobs| && d in jobs[i].dependsOn ensures exists q :: 0 <= q < |jobs| && jobs[q].name == d {
      var mine := Entry(jobs[i].name, jobs[i].dependsOn);
      assert mine in entries && d in mine.dependsOn;
      assert d in Names(entries);
      var e :| e in entries && e.name == d;
    }
  }

  /** So is every tick in which no shutdown interferes. */
  lemma TickNoDeadlock(configs: Configs, v: Run, t: TickScript, entries: seq<Entry>, order: seq<Name>)
    requires UniqueNames(v.jobs) && AllConfigured(v.jobs, configs.Keys) && Mirrors(v.jobs, entries)
    requires AllDepsKnown(entries) && IsTopologicalOrder(DepsMap(entries), order)
    requires !MonitorFrom(v, configs, t.job, 0).1 && !t.shutdownBeforeStart && forall i: nat :: RunsToEnd(t.start(i))
    ensures Unstuck(MonitorTick(v, configs, t).jobs)
  {
    hide MonitorFrom, Start, Unstuck, IsTopologicalOrder, RunsToEnd, Closed, LeavesSettled, AllDepsKnown;
    var m := MonitorFrom(v, configs, t.job, 0).0;
    MonitorKeeps(v, configs, v, t.job, 0);
    NoDeadlock(configs, m, t.start, entries, order);
  }
}
