/** The parallel start phase: one pipeline thread for each ready job, interleaved at the
    granularity of single reads and writes of a job's status. Whatever the schedule, the
    final statuses are the same. */
module ParallelStart {
  import opened Base
  import opened State
  import opened Propagation
  import opened Scheduler

  /** One activation of the propagation loop: it spreads the failure of job `src` and will
      look at job `next`; `hit` means it has read `next` as a pending dependent and is about
      to skip it. */
  datatype Frame = Frame(src: nat, next: nat, hit: bool)

  /** The statuses the pipeline will still give its own job, then the propagation calls in
      progress, innermost last. */
  datatype Thread = Thread(todo: seq<Status>, frames: seq<Frame>)

  datatype Phase = Phase(st: seq<Status>, threads: seq<Thread>)

  /** What the innermost call becomes in one step. */
  function Advance(jobs: seq<Job>, st: seq<Status>, f: Frame): seq<Frame>
    requires |st| == |jobs|
  {
    if f.next >= |jobs| || f.src >= |jobs| then []
    else if f.hit then [Frame(f.src, f.next + 1, false), Frame(f.next, 0, false)]
    else if DependsOn(jobs[f.next], jobs[f.src].name) && st[f.next] == Pending then [f.(hit := true)]
    else [f.(next := f.next + 1)]
  }

  /** The one status it may write: the skip of the target it has marked. */
  function Write(jobs: seq<Job>, st: seq<Status>, f: Frame): (st': seq<Status>)
    requires |st| == |jobs|
    ensures |st'| == |st|
  {
    if f.hit && f.next < |jobs| && f.src < |jobs| then st[f.next := Skipped] else st
  }

  /** One atomic step of thread `t`; a finished thread stays as it is. */
  function Step(jobs: seq<Job>, s: Phase, t: nat): (s': Phase)
    requires |s.st| == |s.threads| == |jobs| && t < |jobs|
    ensures |s'.st| == |s'.threads| == |jobs|
  {
    var th := s.threads[t];
    if th.todo != [] then
      var rest := th.todo[1..];
      var frames := if rest == [] && th.todo[0] == Failed then [Frame(t, 0, false)] else [];
      Phase(s.st[t := th.todo[0]], s.threads[t := Thread(rest, frames)])
    else if th.frames == [] then s
    else
      var f := th.frames[|th.frames| - 1];
      var outer := th.frames[..|th.frames| - 1];
      Phase(Write(jobs, s.st, f), s.threads[t := Thread([], outer + Advance(jobs, s.st, f))])
  }

  /** Steps of the threads named by a schedule, in order. */
  function RunSchedule(jobs: seq<Job>, s: Phase, schedule: seq<nat>): (s': Phase)
    requires |s.st| == |s.threads| == |jobs|
    requires forall k :: 0 <= k < |schedule| ==> schedule[k] < |jobs|
    ensures |s'.st| == |s'.threads| == |jobs|
    decreases |schedule|
  {
    if schedule == [] then s else RunSchedule(jobs, Step(jobs, s, schedule[0]), schedule[1..])
  }

  function Initial(jobs: seq<Job>, scripts: seq<seq<Status>>): Phase
    requires |scripts| == |jobs|
  {
    Phase(seq(|jobs|, i requires 0 <= i < |jobs| => jobs[i].status),
          seq(|jobs|, i requires 0 <= i < |jobs| => Thread(scripts[i], [])))
  }

  predicate AllDone(s: Phase) {
    forall t :: 0 <= t < |s.threads| ==> s.threads[t] == Thread([], [])
  }

  /** A ready job is pending and all its dependencies are completed; its pipeline gives it
      any statuses, the last of which may be failed. The other jobs have no pipeline. */
  ghost predicate Setup(jobs: seq<Job>, ready: set<nat>, scripts: seq<seq<Status>>) {
    && UniqueNames(jobs) && |scripts| == |jobs|
    && (forall i :: i in ready ==> i < |jobs| && jobs[i].status == Pending && DepsCompleted(jobs, jobs[i]))
    && (forall i :: 0 <= i < |jobs| && i !in ready ==> scripts[i] == [])
    && forall i, k :: 0 <= i < |jobs| && 0 <= k < |scripts[i]| ==>
         scripts[i][k] in {Provisioning, Deploying, Running} || (scripts[i][k] == Failed && k == |scripts[i]| - 1)
  }

  function OwnFinal(jobs: seq<Job>, scripts: seq<seq<Status>>, i: nat): Status
    requires i < |jobs| == |scripts|
  {
    if scripts[i] == [] then jobs[i].status else scripts[i][|scripts[i]| - 1]
  }

  /** The jobs as their own pipelines leave them, before any failure spreads. */
  ghost function OwnOutcome(jobs: seq<Job>, scripts: seq<seq<Status>>): (r: seq<Job>)
    requires |jobs| == |scripts|
    ensures |r| == |jobs|
    ensures forall i :: 0 <= i < |jobs| ==> r[i] == jobs[i].(status := OwnFinal(jobs, scripts, i))
  {
    seq(|jobs|, i requires 0 <= i < |jobs| => jobs[i].(status := OwnFinal(jobs, scripts, i)))
  }

  predicate Fails(scripts: seq<seq<Status>>, t: nat) {
    t < |scripts| && scripts[t] != [] && scripts[t][|scripts[t]| - 1] == Failed
  }

  ghost predicate Reached(jobs: seq<Job>, scripts: seq<seq<Status>>, i: nat)
    requires |jobs| == |scripts|
  {
    exists t: nat :: Fails(scripts, t) && Doomed(OwnOutcome(jobs, scripts), jobs[t].name, i)
  }

  /** The one final status map: own outcomes, and skipped for the pending jobs reached by a
      failed pipeline. */
  ghost function FinalStatus(jobs: seq<Job>, scripts: seq<seq<Status>>, i: nat): Status
    requires i < |jobs| == |scripts|
  {
    if Reached(jobs, scripts, i) then Skipped else OwnFinal(jobs, scripts, i)
  }

  // ---- ready jobs are out of reach ----

  lemma ReadyDependsOnCompleted(jobs: seq<Job>, ready: set<nat>, scripts: seq<seq<Status>>, i: nat, p: nat)
    requires Setup(jobs, ready, scripts) && i in ready && p < |jobs|
    requires DependsOn(jobs[i], jobs[p].name)
    ensures jobs[p].status == Completed
  {
  }

  /** Being reached means hanging on a failed pipeline or on another reached job. */
  lemma ReachedFrom(jobs: seq<Job>, ready: set<nat>, scripts: seq<seq<Status>>, i: nat) returns (p: nat)
    requires Setup(jobs, ready, scripts) && i < |jobs| && Reached(jobs, scripts, i)
    ensures p < |jobs| && DependsOn(jobs[i], jobs[p].name) && jobs[p].status == Pending
    ensures Fails(scripts, p) || Reached(jobs, scripts, p)
    ensures OwnFinal(jobs, scripts, i) == Pending
  {
    var own := OwnOutcome(jobs, scripts);
    var t: nat :| Fails(scripts, t) && Doomed(own, jobs[t].name, i);
    var q := DoomedVia(own, jobs[t].name, i);
    if q.None? {
      p := t;
      assert t in ready;
    } else {
      p := q.value;
      OwnPending(jobs, ready, scripts, p);
    }
  }

  lemma OwnPending(jobs: seq<Job>, ready: set<nat>, scripts: seq<seq<Status>>, i: nat)
    requires Setup(jobs, ready, scripts) && i < |jobs| && OwnFinal(jobs, scripts, i) == Pending
    ensures scripts[i] == [] && jobs[i].status == Pending
  {
  }

  lemma ReadyNotReached(jobs: seq<Job>, ready: set<nat>, scripts: seq<seq<Status>>, i: nat)
    requires Setup(jobs, ready, scripts) && i in ready
    ensures !Reached(jobs, scripts, i)
  {
    if Reached(jobs, scripts, i) {
      var p := ReachedFrom(jobs, ready, scripts, i);
      ReadyDependsOnCompleted(jobs, ready, scripts, i, p);
      assert false;
    }
  }

  lemma ReachedNext(jobs: seq<Job>, ready: set<nat>, scripts: seq<seq<Status>>, x: nat, j: nat)
    requires Setup(jobs, ready, scripts) && x < |jobs| && j < |jobs| && j !in ready
    requires Fails(scripts, x) || Reached(jobs, scripts, x)
    requires DependsOn(jobs[j], jobs[x].name) && jobs[j].status == Pending
    ensures Reached(jobs, scripts, j)
  {
    var own := OwnOutcome(jobs, scripts);
    if Fails(scripts, x) {
      DoomedDirectly(own, jobs[x].name, j);
    } else {
      var t: nat :| Fails(scripts, t) && Doomed(own, jobs[t].name, x);
      DoomedNext(own, jobs[t].name, x, j);
    }
  }

  // ---- the status map is determined by three facts ----

  /** Job `x` spreads: its own pipeline has failed, or it has been skipped in this phase. */
  predicate Spreads(jobs: seq<Job>, ready: set<nat>, st: seq<Status>, x: nat)
    requires x < |jobs| == |st|
  {
    if x in ready then st[x] == Failed else jobs[x].status == Pending && st[x] == Skipped
  }

  /** Only jobs that are reached have been skipped, and nothing else outside the pipelines
      has changed. */
  ghost predicate SkipsSound(jobs: seq<Job>, ready: set<nat>, scripts: seq<seq<Status>>, st: seq<Status>)
    requires |jobs| == |scripts| == |st|
  {
    forall i :: 0 <= i < |jobs| && i !in ready ==>
      st[i] == jobs[i].status || (jobs[i].status == Pending && st[i] == Skipped && Reached(jobs, scripts, i))
  }

  /** `j` is a job that the spread from `x` has to skip. */
  predicate Target(jobs: seq<Job>, ready: set<nat>, x: nat, j: nat)
    requires x < |jobs| && j < |jobs|
  {
    j !in ready && jobs[j].status == Pending && DependsOn(jobs[j], jobs[x].name)
  }

  /** Every job that a spreading job has to skip is skipped. */
  ghost predicate NothingLeft(jobs: seq<Job>, ready: set<nat>, st: seq<Status>)
    requires |jobs| == |st|
  {
    forall x, j :: 0 <= x < |jobs| && 0 <= j < |jobs| && Spreads(jobs, ready, st, x) && Target(jobs, ready, x, j) ==>
      st[j] == Skipped
  }

  lemma {:induction false} ReachedIsSkipped(jobs: seq<Job>, ready: set<nat>, scripts: seq<seq<Status>>,
                                            st: seq<Status>, t: nat, path: seq<nat>)
    requires Setup(jobs, ready, scripts) && |st| == |jobs| && SkipsSound(jobs, ready, scripts, st)
    requires forall i :: i in ready ==> st[i] == OwnFinal(jobs, scripts, i)
    requires NothingLeft(jobs, ready, st)
    requires Fails(scripts, t) && PendingChain(OwnOutcome(jobs, scripts), jobs[t].name, path)
    ensures st[path[|path| - 1]] == Skipped
    decreases |path|
  {
    var own := OwnOutcome(jobs, scripts);
    var j := path[|path| - 1];
    assert path[|path| - 1] < |own| && own[j].status == Pending;
    OwnPending(jobs, ready, scripts, j);
    assert Doomed(own, jobs[t].name, j);
    assert Reached(jobs, scripts, j);
    if j in ready {
      ReadyNotReached(jobs, ready, scripts, j);
    }
    if |path| == 1 {
      assert t in ready && Spreads(jobs, ready, st, t) && Target(jobs, ready, t, j);
    } else {
      ChainPrefix(own, jobs[t].name, path);
      ReachedIsSkipped(jobs, ready, scripts, st, t, path[..|path| - 1]);
      var p := path[|path| - 2];
      assert path[|path| - 2] < |own| && own[p].status == Pending;
      OwnPending(jobs, ready, scripts, p);
      assert Spreads(jobs, ready, st, p) && Target(jobs, ready, p, j);
    }
  }

  lemma StatusesDetermined(jobs: seq<Job>, ready: set<nat>, scripts: seq<seq<Status>>, st: seq<Status>)
    requires Setup(jobs, ready, scripts) && |st| == |jobs| && SkipsSound(jobs, ready, scripts, st)
    requires forall i :: i in ready ==> st[i] == OwnFinal(jobs, scripts, i)
    requires NothingLeft(jobs, ready, st)
    ensures forall i :: 0 <= i < |jobs| ==> st[i] == FinalStatus(jobs, scripts, i)
  {
    forall i | 0 <= i < |jobs| ensures st[i] == FinalStatus(jobs, scripts, i) {
      if i in ready {
        ReadyNotReached(jobs, ready, scripts, i);
      } else if Reached(jobs, scripts, i) {
        var own := OwnOutcome(jobs, scripts);
        var t: nat :| Fails(scripts, t) && Doomed(own, jobs[t].name, i);
        var path: seq<nat> :| PendingChain(own, jobs[t].name, path) && path[|path| - 1] == i;
        ReachedIsSkipped(jobs, ready, scripts, st, t, path);
      }
    }
  }

  // ---- what every step keeps ----

  /** With `todo` still to come, the job has the status of the last element of the script
      already done. */
  ghost predicate OwnProgress(jobs: seq<Job>, scripts: seq<seq<Status>>, t: nat, todo: seq<Status>, own: Status)
    requires t < |jobs| == |scripts|
  {
    && |todo| <= |scripts[t]| && todo == scripts[t][|scripts[t]| - |todo|..]
    && own == if |todo| == |scripts[t]| then jobs[t].status else scripts[t][|scripts[t]| - |todo| - 1]
  }

  ghost predicate FrameSound(jobs: seq<Job>, ready: set<nat>, scripts: seq<seq<Status>>, f: Frame)
    requires |jobs| == |scripts|
  {
    && f.src < |jobs| && f.next <= |jobs|
    && (if f.src in ready then Fails(scripts, f.src) else Reached(jobs, scripts, f.src))
    && (f.hit ==> f.next < |jobs| && Target(jobs, ready, f.src, f.next))
  }

  ghost predicate ThreadSound(jobs: seq<Job>, ready: set<nat>, scripts: seq<seq<Status>>, th: Thread)
    requires |jobs| == |scripts|
  {
    && (th.todo != [] ==> th.frames == [])
    && forall f :: f in th.frames ==> FrameSound(jobs, ready, scripts, f)
  }

  /** A propagation call of this thread will still look at `j` on behalf of `x`. */
  ghost predicate Covers(th: Thread, x: nat, j: nat) {
    exists f :: f in th.frames && f.src == x && f.next <= j
  }

  ghost predicate Covered(s: Phase, x: nat, j: nat) {
    exists t :: 0 <= t < |s.threads| && Covers(s.threads[t], x, j)
  }

  ghost predicate NothingForgotten(jobs: seq<Job>, ready: set<nat>, s: Phase)
    requires |jobs| == |s.st| == |s.threads|
  {
    forall x, j :: 0 <= x < |jobs| && 0 <= j < |jobs| && Spreads(jobs, ready, s.st, x) && Target(jobs, ready, x, j) ==>
      s.st[j] == Skipped || Covered(s, x, j)
  }

  ghost predicate ThreadsFit(jobs: seq<Job>, ready: set<nat>, scripts: seq<seq<Status>>, s: Phase) {
    && |jobs| == |scripts| == |s.st| == |s.threads|
    && (forall t :: t in ready ==> t < |jobs| && OwnProgress(jobs, scripts, t, s.threads[t].todo, s.st[t]))
    && (forall t :: 0 <= t < |jobs| ==> ThreadSound(jobs, ready, scripts, s.threads[t]))
    && (forall t :: 0 <= t < |jobs| && t !in ready ==> s.threads[t] == Thread([], []))
    && SkipsSound(jobs, ready, scripts, s.st)
  }

  ghost predicate Inv(jobs: seq<Job>, ready: set<nat>, scripts: seq<seq<Status>>, s: Phase) {
    ThreadsFit(jobs, ready, scripts, s) && NothingForgotten(jobs, ready, s)
  }

  /** A step that changes only thread `t` forgets nothing that thread `t` still covers. */
  lemma CoverageKept(s: Phase, s': Phase, t: nat, x: nat, j: nat)
    requires Covered(s, x, j) && t < |s.threads| == |s'.threads|
    requires s'.threads == s.threads[t := s'.threads[t]]
    requires Covers(s.threads[t], x, j) ==> Covers(s'.threads[t], x, j)
    ensures Covered(s', x, j)
  {
    var u :| 0 <= u < |s.threads| && Covers(s.threads[u], x, j);
    assert Covers(s'.threads[u], x, j);
  }

  lemma OwnStepFits(jobs: seq<Job>, ready: set<nat>, scripts: seq<seq<Status>>, s: Phase, t: nat)
    requires Setup(jobs, ready, scripts) && ThreadsFit(jobs, ready, scripts, s)
    requires t < |jobs| && s.threads[t].todo != []
    ensures t in ready && s.threads[t].frames == []
    ensures Step(jobs, s, t).st[t] == Failed ==> Step(jobs, s, t).threads[t].frames == [Frame(t, 0, false)]
    ensures ThreadsFit(jobs, ready, scripts, Step(jobs, s, t))
  {
    var s' := Step(jobs, s, t);
    var th := s.threads[t];
    assert t in ready && ThreadSound(jobs, ready, scripts, th);
    assert OwnProgress(jobs, scripts, t, th.todo, s.st[t]);
    var k := |scripts[t]| - |th.todo|;
    assert th.todo[0] == scripts[t][k];
    assert scripts[t][k] in {Provisioning, Deploying, Running} || (scripts[t][k] == Failed && k == |scripts[t]| - 1);
    assert OwnProgress(jobs, scripts, t, s'.threads[t].todo, s'.st[t]);
    assert ThreadSound(jobs, ready, scripts, s'.threads[t]);
    forall u | 0 <= u < |jobs| && u != t ensures s'.threads[u] == s.threads[u] && s'.st[u] == s.st[u] {
    }
  }

  lemma OwnStepKeepsInv(jobs: seq<Job>, ready: set<nat>, scripts: seq<seq<Status>>, s: Phase, t: nat)
    requires Setup(jobs, ready, scripts) && Inv(jobs, ready, scripts, s)
    requires t < |jobs| && s.threads[t].todo != []
    ensures Inv(jobs, ready, scripts, Step(jobs, s, t))
  {
    var s' := Step(jobs, s, t);
    OwnStepFits(jobs, ready, scripts, s, t);
    forall x, j | 0 <= x < |jobs| && 0 <= j < |jobs| && Spreads(jobs, ready, s'.st, x) && Target(jobs, ready, x, j)
      ensures s'.st[j] == Skipped || Covered(s', x, j)
    {
      if x == t {
        assert Frame(t, 0, false) in s'.threads[t].frames;
        assert Covers(s'.threads[t], x, j);
      } else {
        assert Spreads(jobs, ready, s.st, x);
        if s'.st[j] != Skipped {
          assert s.st[j] != Skipped;
          CoverageKept(s, s', t, x, j);
        }
      }
    }
  }

  lemma AdvanceSound(jobs: seq<Job>, ready: set<nat>, scripts: seq<seq<Status>>, st: seq<Status>, f: Frame)
    requires Setup(jobs, ready, scripts) && |st| == |jobs| && SkipsSound(jobs, ready, scripts, st)
    requires FrameSound(jobs, ready, scripts, f)
    ensures forall g :: g in Advance(jobs, st, f) ==> FrameSound(jobs, ready, scripts, g)
  {
    if f.hit {
      ReachedNext(jobs, ready, scripts, f.src, f.next);
    } else if f.next < |jobs| && DependsOn(jobs[f.next], jobs[f.src].name) && st[f.next] == Pending {
      PendingIsTarget(jobs, ready, scripts, st, f.src, f.next);
    }
  }

  /** A job read as pending and depending on a failed or reached job is a target. */
  lemma PendingIsTarget(jobs: seq<Job>, ready: set<nat>, scripts: seq<seq<Status>>, st: seq<Status>, x: nat, j: nat)
    requires Setup(jobs, ready, scripts) && |st| == |jobs| && SkipsSound(jobs, ready, scripts, st) && x < |jobs| &&
             j < |jobs|
    requires if x in ready then Fails(scripts, x) else Reached(jobs, scripts, x)
    requires DependsOn(jobs[j], jobs[x].name) && st[j] == Pending
    ensures Target(jobs, ready, x, j)
  {
    if j in ready {
      ReadyDependsOnCompleted(jobs, ready, scripts, j, x);
      if x !in ready {
        var p := ReachedFrom(jobs, ready, scripts, x);
        OwnPending(jobs, ready, scripts, x);
      }
    }
  }

  /** The step of the innermost call leaves each of its remaining targets skipped or still
      ahead of it. */
  lemma AdvanceRemembers(jobs: seq<Job>, ready: set<nat>, scripts: seq<seq<Status>>, st: seq<Status>, f: Frame, j: nat)
    requires Setup(jobs, ready, scripts) && |st| == |jobs| && SkipsSound(jobs, ready, scripts, st)
    requires FrameSound(jobs, ready, scripts, f) && j < |jobs| && f.next <= j && Target(jobs, ready, f.src, j)
    ensures Write(jobs, st, f)[j] == Skipped || Covers(Thread([], Advance(jobs, st, f)), f.src, j)
  {
    var next := Advance(jobs, st, f);
    assert next != [] && next[0] in next && next[0].src == f.src;
    if !f.hit && f.next == j && next[0].next > j {
      assert st[j] != Pending;
    }
  }

  /** The statuses after a step of an innermost call that is sound. */
  lemma WriteSound(jobs: seq<Job>, ready: set<nat>, scripts: seq<seq<Status>>, st: seq<Status>, f: Frame)
    requires Setup(jobs, ready, scripts) && |st| == |jobs| && SkipsSound(jobs, ready, scripts, st)
    requires FrameSound(jobs, ready, scripts, f)
    ensures SkipsSound(jobs, ready, scripts, Write(jobs, st, f))
    ensures forall i :: i in ready ==> Write(jobs, st, f)[i] == st[i]
  {
    if f.hit {
      ReachedNext(jobs, ready, scripts, f.src, f.next);
    }
  }

  lemma CoversSplit(todo: seq<Status>, a: seq<Frame>, b: seq<Frame>, x: nat, j: nat)
    ensures Covers(Thread(todo, a + b), x, j) <==> Covers(Thread(todo, a), x, j) || Covers(Thread(todo, b), x, j)
  {
  }

  /** Replacing one thread that has no script left, and statuses outside the pipelines. */
  lemma ReplacedThreadFits(jobs: seq<Job>, ready: set<nat>, scripts: seq<seq<Status>>, s: Phase, t: nat,
                           st: seq<Status>, frames: seq<Frame>)
    requires ThreadsFit(jobs, ready, scripts, s) && t in ready && s.threads[t].todo == []
    requires |st| == |s.st| && ThreadSound(jobs, ready, scripts, Thread([], frames))
    requires SkipsSound(jobs, ready, scripts, st) && forall i :: i in ready ==> st[i] == s.st[i]
    ensures ThreadsFit(jobs, ready, scripts, Phase(st, s.threads[t := Thread([], frames)]))
  {
  }

  lemma AdvancedThreadSound(jobs: seq<Job>, ready: set<nat>, scripts: seq<seq<Status>>, st: seq<Status>,
                            frames: seq<Frame>)
    requires Setup(jobs, ready, scripts) && |st| == |jobs| && SkipsSound(jobs, ready, scripts, st)
    requires ThreadSound(jobs, ready, scripts, Thread([], frames)) && frames != []
    ensures FrameSound(jobs, ready, scripts, frames[|frames| - 1])
    ensures ThreadSound(jobs, ready, scripts,
                        Thread([], frames[..|frames| - 1] + Advance(jobs, st, frames[|frames| - 1])))
  {
    assert frames[|frames| - 1] in frames;
    AdvanceSound(jobs, ready, scripts, st, frames[|frames| - 1]);
  }

  lemma FrameStepFits(jobs: seq<Job>, ready: set<nat>, scripts: seq<seq<Status>>, s: Phase, t: nat)
    requires Setup(jobs, ready, scripts) && ThreadsFit(jobs, ready, scripts, s)
    requires t < |jobs| && s.threads[t].todo == [] && s.threads[t].frames != []
    ensures FrameSound(jobs, ready, scripts, s.threads[t].frames[|s.threads[t].frames| - 1])
    ensures ThreadsFit(jobs, ready, scripts, Step(jobs, s, t))
  {
    hide Setup, SkipsSound, OwnProgress, FrameSound, Write, Advance;
    var frames := s.threads[t].frames;
    var f := frames[|frames| - 1];
    assert s.threads[t] == Thread([], frames) && ThreadSound(jobs, ready, scripts, s.threads[t]);
    AdvancedThreadSound(jobs, ready, scripts, s.st, frames);
    WriteSound(jobs, ready, scripts, s.st, f);
    ReplacedThreadFits(jobs, ready, scripts, s, t, Write(jobs, s.st, f),
                       frames[..|frames| - 1] + Advance(jobs, s.st, f));
  }

  lemma FrameStepRemembers(jobs: seq<Job>, ready: set<nat>, scripts: seq<seq<Status>>, s: Phase, t: nat, x: nat, j: nat)
    requires Setup(jobs, ready, scripts) && |s.st| == |s.threads| == |jobs| && SkipsSound(jobs, ready, scripts, s.st)
    requires t < |jobs| && s.threads[t].todo == [] && s.threads[t].frames != []
    requires FrameSound(jobs, ready, scripts, s.threads[t].frames[|s.threads[t].frames| - 1])
    requires x < |jobs| && j < |jobs| && Target(jobs, ready, x, j)
    requires Covers(s.threads[t], x, j)
    ensures Step(jobs, s, t).st[j] == Skipped || Covers(Step(jobs, s, t).threads[t], x, j)
  {
    hide Setup, SkipsSound, FrameSound, Write, Advance, Target;
    var frames := s.threads[t].frames;
    var outer, f := frames[..|frames| - 1], frames[|frames| - 1];
    assert frames == outer + [f];
    CoversSplit([], outer, [f], x, j);
    CoversSplit([], outer, Advance(jobs, s.st, f), x, j);
    if Covers(Thread([], [f]), x, j) {
      AdvanceRemembers(jobs, ready, scripts, s.st, f, j);
    }
  }

  /** A frame in hand: pop it, mark it, move it on, or skip its target. */
  lemma FrameStepKeepsInv(jobs: seq<Job>, ready: set<nat>, scripts: seq<seq<Status>>, s: Phase, t: nat)
    requires Setup(jobs, ready, scripts) && Inv(jobs, ready, scripts, s)
    requires t < |jobs| && s.threads[t].todo == [] && s.threads[t].frames != []
    ensures Inv(jobs, ready, scripts, Step(jobs, s, t))
  {
    var s' := Step(jobs, s, t);
    var frames := s.threads[t].frames;
    var outer, f := frames[..|frames| - 1], frames[|frames| - 1];
    FrameStepFits(jobs, ready, scripts, s, t);
    forall x, j | 0 <= x < |jobs| && 0 <= j < |jobs| && Spreads(jobs, ready, s'.st, x) && Target(jobs, ready, x, j)
      ensures s'.st[j] == Skipped || Covered(s', x, j)
    {
      if f.hit && x == f.next {
        var next := Advance(jobs, s.st, f);
        assert next[1] == Frame(x, 0, false) && next[1] in next;
        assert Covers(Thread([], next), x, j);
        CoversSplit([], outer, next, x, j);
        assert Covers(s'.threads[t], x, j);
      } else if s'.st[j] != Skipped {
        assert Spreads(jobs, ready, s.st, x) && s.st[j] != Skipped;
        if Covers(s.threads[t], x, j) {
          FrameStepRemembers(jobs, ready, scripts, s, t, x, j);
        }
        CoverageKept(s, s', t, x, j);
      }
    }
  }

  // ---- the result ----

  lemma InitialInv(jobs: seq<Job>, ready: set<nat>, scripts: seq<seq<Status>>)
    requires Setup(jobs, ready, scripts)
    ensures Inv(jobs, ready, scripts, Initial(jobs, scripts))
  {
  }

  lemma {:induction false} ScheduleKeepsInv(jobs: seq<Job>, ready: set<nat>, scripts: seq<seq<Status>>, s: Phase,
                                            schedule: seq<nat>)
    requires Setup(jobs, ready, scripts) && Inv(jobs, ready, scripts, s)
    requires forall k :: 0 <= k < |schedule| ==> schedule[k] < |jobs|
    ensures Inv(jobs, ready, scripts, RunSchedule(jobs, s, schedule))
    decreases |schedule|
  {
    if schedule != [] {
      var t := schedule[0];
      if s.threads[t].todo != [] {
        OwnStepKeepsInv(jobs, ready, scripts, s, t);
      } else if s.threads[t].frames != [] {
        FrameStepKeepsInv(jobs, ready, scripts, s, t);
      }
      ScheduleKeepsInv(jobs, ready, scripts, Step(jobs, s, t), schedule[1..]);
    }
  }

  lemma DoneStatuses(jobs: seq<Job>, ready: set<nat>, scripts: seq<seq<Status>>, s: Phase)
    requires Setup(jobs, ready, scripts) && Inv(jobs, ready, scripts, s) && AllDone(s)
    ensures forall i :: i in ready ==> s.st[i] == OwnFinal(jobs, scripts, i)
    ensures NothingLeft(jobs, ready, s.st)
  {
  }

  /** Every schedule that runs all pipelines to their end leaves the same statuses: each
      ready job has its own outcome, no ready job is skipped, and the other pending jobs are
      skipped exactly when a failed pipeline reaches them. */
  lemma EveryScheduleAgrees(jobs: seq<Job>, ready: set<nat>, scripts: seq<seq<Status>>, schedule: seq<nat>)
    requires Setup(jobs, ready, scripts)
    requires forall k :: 0 <= k < |schedule| ==> schedule[k] < |jobs|
    requires AllDone(RunSchedule(jobs, Initial(jobs, scripts), schedule))
    ensures var st := RunSchedule(jobs, Initial(jobs, scripts), schedule).st;
      && (forall i :: 0 <= i < |jobs| ==> st[i] == FinalStatus(jobs, scripts, i))
      && (forall i :: i in ready ==> st[i] == OwnFinal(jobs, scripts, i))
  {
    InitialInv(jobs, ready, scripts);
    ScheduleKeepsInv(jobs, ready, scripts, Initial(jobs, scripts), schedule);
    var s := RunSchedule(jobs, Initial(jobs, scripts), schedule);
    DoneStatuses(jobs, ready, scripts, s);
    StatusesDetermined(jobs, ready, scripts, s.st);
  }

  // ---- the sequential start phase is one of them ----

  ghost function Statuses(jobs: seq<Job>): (st: seq<Status>)
    ensures |st| == |jobs|
    ensures forall i :: 0 <= i < |jobs| ==> st[i] == jobs[i].status
  {
    seq(|jobs|, i requires 0 <= i < |jobs| => jobs[i].status)
  }

  /** The jobs of `order` settle one after the other as `own` says. */
  ghost function SettleInOrder(now: seq<Job>, order: seq<nat>, own: seq<Job>): (r: seq<Job>)
    requires |own| == |now| && forall k :: 0 <= k < |order| ==> order[k] < |now|
    ensures |r| == |now|
    decreases |order|
  {
    if order == [] then now
    else
      var t := order[0];
      SettleInOrder(Settle(now, t, own[t], own[t].status == Failed), order[1..], own)
  }

  /** `own` gives the ready jobs the outcomes of the scripts. */
  ghost predicate Matches(jobs: seq<Job>, ready: set<nat>, scripts: seq<seq<Status>>, own: seq<Job>) {
    && |own| == |jobs| == |scripts|
    && forall i :: i in ready && i < |jobs| ==>
         own[i].name == jobs[i].name && own[i].dependsOn == jobs[i].dependsOn &&
         own[i].status == OwnFinal(jobs, scripts, i)
  }

  ghost predicate PartlySettled(jobs: seq<Job>, ready: set<nat>, scripts: seq<seq<Status>>, now: seq<Job>,
                                rest: set<nat>) {
    && SameShape(jobs, now) && |scripts| == |jobs|
    && (forall i :: i in ready && i < |jobs| ==>
          now[i].status == if i in rest then jobs[i].status else OwnFinal(jobs, scripts, i))
    && SkipsSound(jobs, ready, scripts, Statuses(now))
    && NothingLeft(jobs, ready, Statuses(now))
  }

  lemma DependentOfPendingNotReady(jobs: seq<Job>, ready: set<nat>, scripts: seq<seq<Status>>, i: nat, p: nat)
    requires Setup(jobs, ready, scripts) && i < |jobs| && p < |jobs|
    requires DependsOn(jobs[i], jobs[p].name) && jobs[p].status == Pending
    ensures i !in ready
  {
  }

  lemma DoomedIsReached(jobs: seq<Job>, ready: set<nat>, scripts: seq<seq<Status>>, now: seq<Job>, t: nat, m: nat)
    requires Setup(jobs, ready, scripts) && SameShape(jobs, now)
    requires forall i :: 0 <= i < |jobs| && now[i].status == Pending ==> jobs[i].status == Pending
    requires t in ready && Fails(scripts, t) && m < |jobs| && Doomed(now, jobs[t].name, m)
    ensures m !in ready && Reached(jobs, scripts, m) && jobs[m].status == Pending
  {
    var own := OwnOutcome(jobs, scripts);
    var path: seq<nat> :| PendingChain(now, jobs[t].name, path) && path[|path| - 1] == m;
    forall k | 0 <= k < |path| ensures path[k] < |jobs| && path[k] !in ready && own[path[k]].status == Pending {
      assert path[k] < |now| && now[path[k]].status == Pending;
      if k > 0 {
        assert DependsOn(now[path[k]], now[path[k - 1]].name);
        assert path[k - 1] < |now| && now[path[k - 1]].status == Pending;
        DependentOfPendingNotReady(jobs, ready, scripts, path[k], path[k - 1]);
      } else {
        DependentOfPendingNotReady(jobs, ready, scripts, path[k], t);
      }
    }
    forall k | 0 < k < |path| ensures DependsOn(own[path[k]], own[path[k - 1]].name) {
      assert DependsOn(now[path[k]], now[path[k - 1]].name);
    }
    assert PendingChain(own, jobs[t].name, path);
    assert Doomed(own, jobs[t].name, m);
  }

  /** The statuses outside the pipelines stay sound when the failure of `t` spreads. */
  lemma SpreadSound(jobs: seq<Job>, ready: set<nat>, scripts: seq<seq<Status>>, mid: seq<Job>, t: nat)
    requires Setup(jobs, ready, scripts) && SameShape(jobs, mid) && t in ready && Fails(scripts, t)
    requires forall i :: i in ready && i < |jobs| ==> mid[i].status in {Pending, OwnFinal(jobs, scripts, i)}
    requires SkipsSound(jobs, ready, scripts, Statuses(mid))
    ensures OnlySkips(mid, Propagated(mid, jobs[t].name))
    ensures forall m :: m in ready && m < |jobs| ==> Propagated(mid, jobs[t].name)[m] == mid[m]
    ensures SkipsSound(jobs, ready, scripts, Statuses(Propagated(mid, jobs[t].name)))
  {
    var r := Propagated(mid, jobs[t].name);
    PropagatedIsClosed(mid, jobs[t].name);
    forall i | 0 <= i < |jobs| && mid[i].status == Pending ensures jobs[i].status == Pending {
      assert Statuses(mid)[i] == Pending;
    }
    forall m | 0 <= m < |jobs| && r[m] != mid[m]
      ensures m !in ready && Reached(jobs, scripts, m) && jobs[m].status == Pending && r[m].status == Skipped
    {
      DoomedIsReached(jobs, ready, scripts, mid, t, m);
    }
    forall i | 0 <= i < |jobs| && i !in ready ensures Statuses(r)[i] == jobs[i].status ||
        (jobs[i].status == Pending && Statuses(r)[i] == Skipped && Reached(jobs, scripts, i)) {
      assert Statuses(mid)[i] == mid[i].status;
    }
  }

  /** A status change that leaves its origin and its new skips shut leaves no target behind. */
  lemma SpreadComplete(jobs: seq<Job>, ready: set<nat>, scripts: seq<seq<Status>>, now: seq<Job>, r: seq<Job>, t: nat,
                       x: nat, j: nat)
    requires |scripts| == |jobs| && SameShape(jobs, now) && SameShape(jobs, r) && x < |jobs| && j < |jobs|
    requires SkipsSound(jobs, ready, scripts, Statuses(r))
    requires Spreads(jobs, ready, Statuses(now), x) && Target(jobs, ready, x, j) ==> now[j].status == Skipped
    requires now[j].status == Skipped ==> r[j].status == Skipped
    requires x == t || r[x].status != now[x].status ==> Shut(r, r[x].name)
    requires Spreads(jobs, ready, Statuses(r), x) && Target(jobs, ready, x, j)
    ensures r[j].status == Skipped
  {
  }

  lemma SettleStep(jobs: seq<Job>, ready: set<nat>, scripts: seq<seq<Status>>, own: seq<Job>,
                   now: seq<Job>, rest: set<nat>, t: nat)
    requires Setup(jobs, ready, scripts) && Matches(jobs, ready, scripts, own)
    requires PartlySettled(jobs, ready, scripts, now, rest) && t in ready && t in rest
    ensures PartlySettled(jobs, ready, scripts, Settle(now, t, own[t], own[t].status == Failed), rest - {t})
  {
    hide Reached, Doomed, DepsCompleted;
    var mid := now[t := own[t]];
    var r := Settle(now, t, own[t], own[t].status == Failed);
    assert SameShape(jobs, mid) && SkipsSound(jobs, ready, scripts, Statuses(mid)) by {
      forall i | 0 <= i < |jobs| && i != t ensures Statuses(mid)[i] == Statuses(now)[i] { }
    }
    if own[t].status == Failed {
      FailsFrom(jobs, scripts, t);
      SpreadSound(jobs, ready, scripts, mid, t);
      PropagatedIsClosed(mid, own[t].name);
      OnlySkipsKeepsOutcomes(mid, r);
    }
    forall x, j | 0 <= x < |jobs| && 0 <= j < |jobs| && Spreads(jobs, ready, Statuses(r), x) &&
      Target(jobs, ready, x, j)
      ensures r[j].status == Skipped
    {
      if own[t].status == Failed {
        FailingStepComplete(jobs, ready, scripts, now, own[t], t, x, j);
      } else {
        assert Statuses(r)[x] == r[x].status;
        assert x != t && Spreads(jobs, ready, Statuses(now), x);
      }
    }
  }

  lemma FailsFrom(jobs: seq<Job>, scripts: seq<seq<Status>>, t: nat)
    requires t < |jobs| == |scripts| && jobs[t].status == Pending && OwnFinal(jobs, scripts, t) == Failed
    ensures Fails(scripts, t)
  {
  }

  /** Once the failure of `t` has spread, every job it or another spreading job has to skip
      is skipped. */
  lemma FailingStepComplete(jobs: seq<Job>, ready: set<nat>, scripts: seq<seq<Status>>,
                            now: seq<Job>, mine: Job, t: nat, x: nat, j: nat)
    requires |scripts| == |jobs| && SameShape(jobs, now) && t < |jobs| && t in ready
    requires mine.name == now[t].name && mine.dependsOn == now[t].dependsOn && mine.status == Failed
    requires x < |jobs| && j < |jobs| && Target(jobs, ready, x, j)
    requires Spreads(jobs, ready, Statuses(now), x) ==> now[j].status == Skipped
    requires var r := Propagated(now[t := mine], mine.name);
      SkipsSound(jobs, ready, scripts, Statuses(r)) && Spreads(jobs, ready, Statuses(r), x)
    ensures Propagated(now[t := mine], mine.name)[j].status == Skipped
  {
    hide Doomed, SkipsSound;
    var mid := now[t := mine];
    var r := Propagated(mid, mine.name);
    PropagatedIsClosed(mid, mine.name);
    OnlySkipsKeepsOutcomes(mid, r);
    SkipAt(mid, r, x);
    SkipAt(mid, r, j);
    if x != t && r[x].status != now[x].status {
      assert NewlySkipped(mid, r, x);
    }
    SpreadComplete(jobs, ready, scripts, now, r, t, x, j);
  }

  function Elements(order: seq<nat>): set<nat> {
    set k | k in order
  }

  lemma {:induction false} SettleAllSteps(jobs: seq<Job>, ready: set<nat>, scripts: seq<seq<Status>>, own: seq<Job>,
                                          now: seq<Job>, order: seq<nat>)
    requires Setup(jobs, ready, scripts) && Matches(jobs, ready, scripts, own)
    requires forall k :: 0 <= k < |order| ==> order[k] in ready && order[k] < |now|
    requires forall a, b :: 0 <= a < b < |order| ==> order[a] != order[b]
    requires PartlySettled(jobs, ready, scripts, now, Elements(order))
    ensures PartlySettled(jobs, ready, scripts, SettleInOrder(now, order, own), {})
    decreases |order|
  {
    if order == [] {
      assert Elements(order) == {};
    } else {
      var t := order[0];
      SettleStep(jobs, ready, scripts, own, now, Elements(order), t);
      assert order == [t] + order[1..];
      assert Elements(order) - {t} == Elements(order[1..]);
      SettleAllSteps(jobs, ready, scripts, own, Settle(now, t, own[t], own[t].status == Failed), order[1..]);
    }
  }

  /** Running the pipelines one after the other, in any order, gives the same statuses as
      every interleaving. */
  lemma SequentialAgrees(jobs: seq<Job>, ready: set<nat>, scripts: seq<seq<Status>>, own: seq<Job>, order: seq<nat>)
    requires Setup(jobs, ready, scripts) && Matches(jobs, ready, scripts, own)
    requires forall a, b :: 0 <= a < b < |order| ==> order[a] != order[b]
    requires forall k :: 0 <= k < |order| ==> order[k] < |jobs|
    requires forall i :: i in ready <==> i in order
    ensures forall i :: 0 <= i < |jobs| ==>
              SettleInOrder(jobs, order, own)[i].status == FinalStatus(jobs, scripts, i)
  {
    assert Elements(order) == ready;
    SettleAllSteps(jobs, ready, scripts, own, jobs, order);
    var r := SettleInOrder(jobs, order, own);
    StatusesDetermined(jobs, ready, scripts, Statuses(r));
    forall i | 0 <= i < |jobs| ensures r[i].status == FinalStatus(jobs, scripts, i) {
      assert Statuses(r)[i] == r[i].status;
    }
  }
}
