/** The parallel start phase comes to an end: under every fair schedule, within a bound known
    beforehand. */
module StartTerminates {
  import opened State
  import opened Propagation
  import opened ParallelStart

  predicate Finished(th: Thread) {
    th == Thread([], [])
  }

  // ---- the measure ----

  /** The innermost call has job `j` marked. */
  predicate Marks(th: Thread, j: nat) {
    th.frames != [] && th.frames[|th.frames| - 1].hit && th.frames[|th.frames| - 1].next == j
  }

  /** The jobs that the thread might still mark. */
  function Open(st: seq<Status>, th: Thread): set<nat> {
    set j: nat | j < |st| && st[j] == Pending && !Marks(th, j)
  }

  /** Statuses to come, and jobs to mark. */
  function Load(st: seq<Status>, th: Thread): nat {
    |th.todo| + |Open(st, th)|
  }

  function Work(st: seq<Status>, threads: seq<Thread>): nat {
    if threads == [] then 0 else Load(st, threads[0]) + Work(st, threads[1..])
  }

  /** How far the loop of a call is from its end; a marked job costs another call. */
  function Weight(n: nat, f: Frame): nat {
    (if f.next <= n then 2 * (n - f.next) + 2 else 2) + if f.hit then 2 * n + 2 else 0
  }

  function FrameWork(n: nat, frames: seq<Frame>): nat {
    if frames == [] then 0 else FrameWork(n, frames[..|frames| - 1]) + Weight(n, frames[|frames| - 1])
  }

  function LoopWork(n: nat, threads: seq<Thread>): nat {
    if threads == [] then 0 else FrameWork(n, threads[0].frames) + LoopWork(n, threads[1..])
  }

  /** One unit of work can set off one loop over the jobs. */
  function Scaled(n: nat, work: nat): nat {
    if work == 0 then 0 else 2 * n + 3 + Scaled(n, work - 1)
  }

  function Measure(s: Phase): nat {
    Scaled(|s.st|, Work(s.st, s.threads)) + LoopWork(|s.st|, s.threads)
  }

  lemma {:induction false} ScaledGap(n: nat, a: nat, b: nat)
    requires a <= b
    ensures a < b ==> Scaled(n, a) + 2 * n + 3 <= Scaled(n, b)
    ensures Scaled(n, a) <= Scaled(n, b)
    decreases b
  {
    if a < b {
      ScaledGap(n, a, b - 1);
    }
  }

  lemma {:induction false} Smaller(a: set<nat>, b: set<nat>)
    requires a <= b
    ensures |a| <= |b| && (a != b ==> |a| < |b|)
    decreases |b|
  {
    if x :| x in b && x !in a {
      Smaller(a, b - {x});
    } else {
      assert a == b;
    }
  }

  /** No job becomes pending. */
  predicate Shrinks(st: seq<Status>, st': seq<Status>) {
    |st'| == |st| && forall j :: 0 <= j < |st| && st'[j] == Pending ==> st[j] == Pending
  }

  lemma {:induction false} WorkShrinks(st: seq<Status>, st': seq<Status>, threads: seq<Thread>)
    requires Shrinks(st, st')
    ensures Work(st', threads) <= Work(st, threads)
    decreases |threads|
  {
    if threads != [] {
      Smaller(Open(st', threads[0]), Open(st, threads[0]));
      WorkShrinks(st, st', threads[1..]);
    }
  }

  lemma {:induction false} WorkUpdate(st: seq<Status>, threads: seq<Thread>, t: nat, th: Thread)
    requires t < |threads|
    ensures Work(st, threads[t := th]) + Load(st, threads[t]) == Work(st, threads) + Load(st, th)
    decreases |threads|
  {
    hide Load;
    if t > 0 {
      WorkUpdate(st, threads[1..], t - 1, th);
      assert threads[t := th][1..] == threads[1..][t - 1 := th];
    } else {
      assert threads[t := th][1..] == threads[1..];
    }
  }

  lemma {:induction false} LoopWorkUpdate(n: nat, threads: seq<Thread>, t: nat, th: Thread)
    requires t < |threads|
    ensures LoopWork(n, threads[t := th]) + FrameWork(n, threads[t].frames) ==
              LoopWork(n, threads) + FrameWork(n, th.frames)
    decreases |threads|
  {
    hide FrameWork;
    if t > 0 {
      LoopWorkUpdate(n, threads[1..], t - 1, th);
      assert threads[t := th][1..] == threads[1..][t - 1 := th];
    } else {
      assert threads[t := th][1..] == threads[1..];
    }
  }

  // ---- every step of an unfinished thread makes it smaller ----

  /** Only the innermost call of a thread has a job marked. */
  ghost predicate OneMark(s: Phase) {
    forall t :: 0 <= t < |s.threads| ==> OuterUnmarked(s.threads[t].frames)
  }

  ghost predicate OuterUnmarked(frames: seq<Frame>) {
    forall k :: 0 <= k < |frames| - 1 ==> !frames[k].hit
  }

  ghost predicate Going(jobs: seq<Job>, ready: set<nat>, scripts: seq<seq<Status>>, s: Phase) {
    Inv(jobs, ready, scripts, s) && OneMark(s)
  }

  lemma AdvanceUnmarked(jobs: seq<Job>, st: seq<Status>, frames: seq<Frame>)
    requires |st| == |jobs| && frames != [] && OuterUnmarked(frames)
    ensures OuterUnmarked(frames[..|frames| - 1] + Advance(jobs, st, frames[|frames| - 1]))
  {
  }

  lemma StepKeepsGoing(jobs: seq<Job>, ready: set<nat>, scripts: seq<seq<Status>>, s: Phase, t: nat)
    requires Setup(jobs, ready, scripts) && Going(jobs, ready, scripts, s) && t < |jobs|
    ensures |s.st| == |s.threads| == |jobs| && Going(jobs, ready, scripts, Step(jobs, s, t))
  {
    hide Setup, NothingForgotten, OwnProgress, SkipsSound, OuterUnmarked, Advance;
    if s.threads[t].todo != [] {
      OwnStepKeepsInv(jobs, ready, scripts, s, t);
      NoFrames(Step(jobs, s, t).threads[t].frames);
    } else if s.threads[t].frames != [] {
      FrameStepKeepsInv(jobs, ready, scripts, s, t);
      AdvanceUnmarked(jobs, s.st, s.threads[t].frames);
    }
  }

  lemma NoFrames(frames: seq<Frame>)
    requires |frames| <= 1
    ensures OuterUnmarked(frames)
  {
  }

  /** What a step does to the two parts of the measure. */
  ghost predicate Falls(s: Phase, s': Phase) {
    && |s'.st| == |s.st|
    && (if Work(s'.st, s'.threads) < Work(s.st, s.threads)
        then LoopWork(|s.st|, s'.threads) <= LoopWork(|s.st|, s.threads) + 2 * |s.st| + 2
        else
          && Work(s'.st, s'.threads) == Work(s.st, s.threads)
          && LoopWork(|s.st|, s'.threads) < LoopWork(|s.st|, s.threads))
  }

  lemma FallsIsSmaller(s: Phase, s': Phase)
    requires Falls(s, s')
    ensures Measure(s') < Measure(s)
  {
    hide Work, LoopWork, Scaled;
    var w', w := Work(s'.st, s'.threads), Work(s.st, s.threads);
    ScaledGap(|s.st|, w', w);
  }

  /** One thread is replaced, and no job becomes pending. */
  lemma ReplacedFalls(s: Phase, st': seq<Status>, t: nat, th: Thread)
    requires t < |s.threads| && Shrinks(s.st, st')
    requires var n, was := |s.st|, s.threads[t];
      if Load(st', th) < Load(st', was) then FrameWork(n, th.frames) <= FrameWork(n, was.frames) + 2 * n + 2
      else Load(st', th) == Load(st', was) && FrameWork(n, th.frames) < FrameWork(n, was.frames)
    ensures Falls(s, Phase(st', s.threads[t := th]))
  {
    hide Load, FrameWork, Work, LoopWork;
    WorkShrinks(s.st, st', s.threads);
    WorkUpdate(st', s.threads, t, th);
    LoopWorkUpdate(|s.st|, s.threads, t, th);
  }

  lemma OwnStepFalls(jobs: seq<Job>, ready: set<nat>, scripts: seq<seq<Status>>, s: Phase, t: nat)
    requires Setup(jobs, ready, scripts) && Going(jobs, ready, scripts, s)
    requires t < |jobs| && s.threads[t].todo != []
    ensures |s.st| == |s.threads| == |jobs| && Falls(s, Step(jobs, s, t))
  {
    hide NothingForgotten, SkipsSound, OneMark, Falls;
    var th := s.threads[t];
    assert t in ready && ThreadSound(jobs, ready, scripts, th);
    assert OwnProgress(jobs, scripts, t, th.todo, s.st[t]);
    assert th.todo[0] == scripts[t][|scripts[t]| - |th.todo|];
    var s' := Step(jobs, s, t);
    var first := Frame(t, 0, false);
    assert [first][..0] == [];
    assert FrameWork(|jobs|, [first]) == FrameWork(|jobs|, []) + Weight(|jobs|, first);
    assert Open(s'.st, s'.threads[t]) == Open(s'.st, th);
    ReplacedFalls(s, s'.st, t, s'.threads[t]);
  }

  lemma FrameWorkOne(n: nat, outer: seq<Frame>, f: Frame)
    ensures FrameWork(n, outer + [f]) == FrameWork(n, outer) + Weight(n, f)
  {
    assert (outer + [f])[..|outer|] == outer;
  }

  /** The call is about to mark a job. */
  predicate Marking(jobs: seq<Job>, st: seq<Status>, f: Frame)
    requires |st| == |jobs|
  {
    f.src < |jobs| && f.next < |jobs| && !f.hit && DependsOn(jobs[f.next], jobs[f.src].name) && st[f.next] == Pending
  }

  lemma MarksOfLast(outer: seq<Frame>, f: Frame)
    ensures forall j: nat :: Marks(Thread([], outer + [f]), j) <==> f.hit && f.next == j
  {
  }

  lemma MarksAfter(jobs: seq<Job>, st: seq<Status>, outer: seq<Frame>, f: Frame)
    requires |st| == |jobs| && f.src < |jobs| && f.next <= |jobs| && (f.hit ==> f.next < |jobs|)
    requires outer != [] ==> !outer[|outer| - 1].hit
    ensures forall j: nat ::
              Marks(Thread([], outer + Advance(jobs, st, f)), j) <==> Marking(jobs, st, f) && f.next == j
  {
  }

  lemma AdvanceLoad(jobs: seq<Job>, st: seq<Status>, outer: seq<Frame>, f: Frame)
    requires |st| == |jobs| && f.src < |jobs| && f.next <= |jobs| && (f.hit ==> f.next < |jobs|)
    requires outer != [] ==> !outer[|outer| - 1].hit
    ensures var st' := Write(jobs, st, f);
      var was, th := Thread([], outer + [f]), Thread([], outer + Advance(jobs, st, f));
      && Shrinks(st, st')
      && Load(st', was) == Load(st', th) + if Marking(jobs, st, f) then 1 else 0
  {
    hide Marks, Advance, DependsOn;
    var st' := Write(jobs, st, f);
    var was, th := Thread([], outer + [f]), Thread([], outer + Advance(jobs, st, f));
    MarksOfLast(outer, f);
    MarksAfter(jobs, st, outer, f);
    if Marking(jobs, st, f) {
      assert Open(st', th) == Open(st', was) - {f.next};
    } else {
      assert Open(st', th) == Open(st', was);
    }
  }

  lemma AdvanceFrameWork(jobs: seq<Job>, st: seq<Status>, outer: seq<Frame>, f: Frame)
    requires |st| == |jobs| && f.src < |jobs| && f.next <= |jobs| && (f.hit ==> f.next < |jobs|)
    ensures var was, now := FrameWork(|jobs|, outer + [f]), FrameWork(|jobs|, outer + Advance(jobs, st, f));
      if Marking(jobs, st, f) then now <= was + 2 * |jobs| + 2 else now < was
  {
    hide FrameWork;
    var n, next := |jobs|, Advance(jobs, st, f);
    FrameWorkOne(n, outer, f);
    if next == [] {
      assert outer + next == outer;
    } else {
      FrameWorkOne(n, outer, next[0]);
      if |next| == 2 {
        FrameWorkOne(n, outer + [next[0]], next[1]);
        assert outer + next == outer + [next[0]] + [next[1]];
      }
    }
  }

  lemma FrameStepFalls(jobs: seq<Job>, ready: set<nat>, scripts: seq<seq<Status>>, s: Phase, t: nat)
    requires Setup(jobs, ready, scripts) && Going(jobs, ready, scripts, s)
    requires t < |jobs| && s.threads[t].todo == [] && s.threads[t].frames != []
    ensures |s.st| == |s.threads| == |jobs| && Falls(s, Step(jobs, s, t))
  {
    hide Setup, NothingForgotten, SkipsSound, Falls, Load, FrameWork, Write, Advance, Marking, Target, Reached;
    var frames := s.threads[t].frames;
    var outer, f := frames[..|frames| - 1], frames[|frames| - 1];
    assert ThreadSound(jobs, ready, scripts, s.threads[t]) && f in frames;
    assert frames == outer + [f] && s.threads[t] == Thread([], outer + [f]);
    assert OuterUnmarked(frames);
    AdvanceLoad(jobs, s.st, outer, f);
    AdvanceFrameWork(jobs, s.st, outer, f);
    ReplacedFalls(s, Write(jobs, s.st, f), t, Thread([], outer + Advance(jobs, s.st, f)));
  }

  /** Every step of a thread that is not finished makes the measure smaller; a finished thread
      changes nothing. */
  lemma StepFalls(jobs: seq<Job>, ready: set<nat>, scripts: seq<seq<Status>>, s: Phase, t: nat)
    requires Setup(jobs, ready, scripts) && Going(jobs, ready, scripts, s) && t < |jobs|
    ensures |s.st| == |s.threads| == |jobs|
    ensures if Finished(s.threads[t]) then Step(jobs, s, t) == s else Measure(Step(jobs, s, t)) < Measure(s)
  {
    hide Setup, Falls, Measure;
    if s.threads[t].todo != [] {
      OwnStepFalls(jobs, ready, scripts, s, t);
      FallsIsSmaller(s, Step(jobs, s, t));
    } else if s.threads[t].frames != [] {
      FrameStepFalls(jobs, ready, scripts, s, t);
      FallsIsSmaller(s, Step(jobs, s, t));
    }
  }

  // ---- whole schedules ----

  /** How often a schedule picks a thread that is not finished. */
  ghost function EffectiveSteps(jobs: seq<Job>, s: Phase, schedule: seq<nat>): nat
    requires |s.st| == |s.threads| == |jobs|
    requires forall k :: 0 <= k < |schedule| ==> schedule[k] < |jobs|
    decreases |schedule|
  {
    if schedule == [] then 0
    else
      EffectiveSteps(jobs, Step(jobs, s, schedule[0]), schedule[1..]) +
      if Finished(s.threads[schedule[0]]) then 0 else 1
  }

  lemma {:induction false} ScheduleFalls(jobs: seq<Job>, ready: set<nat>, scripts: seq<seq<Status>>, s: Phase,
                                         schedule: seq<nat>)
    requires Setup(jobs, ready, scripts) && Going(jobs, ready, scripts, s)
    requires forall k :: 0 <= k < |schedule| ==> schedule[k] < |jobs|
    ensures |s.st| == |s.threads| == |jobs|
    ensures Going(jobs, ready, scripts, RunSchedule(jobs, s, schedule))
    ensures EffectiveSteps(jobs, s, schedule) + Measure(RunSchedule(jobs, s, schedule)) <= Measure(s)
    decreases |schedule|
  {
    hide Setup, Inv, OneMark, Step, Measure;
    GoingFits(jobs, ready, scripts, s);
    if schedule != [] {
      StepKeepsGoing(jobs, ready, scripts, s, schedule[0]);
      StepFalls(jobs, ready, scripts, s, schedule[0]);
      ScheduleFalls(jobs, ready, scripts, Step(jobs, s, schedule[0]), schedule[1..]);
    }
  }

  lemma GoingFits(jobs: seq<Job>, ready: set<nat>, scripts: seq<seq<Status>>, s: Phase)
    requires Going(jobs, ready, scripts, s)
    ensures |s.st| == |s.threads| == |jobs|
  {
  }

  lemma InitialGoing(jobs: seq<Job>, ready: set<nat>, scripts: seq<seq<Status>>)
    requires Setup(jobs, ready, scripts)
    ensures Going(jobs, ready, scripts, Initial(jobs, scripts))
  {
    InitialInv(jobs, ready, scripts);
  }

  /** Under any schedule at all, the unfinished threads take no more steps than the measure of
      the beginning allows: no interleaving of the pipelines goes on for ever. */
  lemma StepsAreBounded(jobs: seq<Job>, ready: set<nat>, scripts: seq<seq<Status>>, schedule: seq<nat>)
    requires Setup(jobs, ready, scripts)
    requires forall k :: 0 <= k < |schedule| ==> schedule[k] < |jobs|
    ensures EffectiveSteps(jobs, Initial(jobs, scripts), schedule) <= Measure(Initial(jobs, scripts))
  {
    InitialGoing(jobs, ready, scripts);
    ScheduleFalls(jobs, ready, scripts, Initial(jobs, scripts), schedule);
  }

  // ---- fair schedules ----

  /** A round gives every thread at least one turn. */
  ghost predicate Round(n: nat, turns: seq<nat>) {
    && (forall k :: 0 <= k < |turns| ==> turns[k] < n)
    && forall t: nat :: t < n ==> t in turns
  }

  function Flat(rounds: seq<seq<nat>>): seq<nat> {
    if rounds == [] then [] else rounds[0] + Flat(rounds[1..])
  }

  lemma {:induction false} FlatInRange(n: nat, rounds: seq<seq<nat>>)
    requires forall k :: 0 <= k < |rounds| ==> Round(n, rounds[k])
    ensures forall k :: 0 <= k < |Flat(rounds)| ==> Flat(rounds)[k] < n
    decreases |rounds|
  {
    if rounds != [] {
      assert Round(n, rounds[0]);
      FlatInRange(n, rounds[1..]);
    }
  }

  lemma {:induction false} RunAppend(jobs: seq<Job>, s: Phase, a: seq<nat>, b: seq<nat>)
    requires |s.st| == |s.threads| == |jobs|
    requires (forall k :: 0 <= k < |a| ==> a[k] < |jobs|) && (forall k :: 0 <= k < |b| ==> b[k] < |jobs|)
    ensures RunSchedule(jobs, s, a + b) == RunSchedule(jobs, RunSchedule(jobs, s, a), b)
    decreases |a|
  {
    hide Step;
    if a == [] {
      assert a + b == b;
    } else {
      assert (a + b)[1..] == a[1..] + b;
      RunAppend(jobs, Step(jobs, s, a[0]), a[1..], b);
    }
  }

  /** A schedule in which an unfinished thread gets a turn makes the measure smaller. */
  lemma {:induction false} TurnFalls(jobs: seq<Job>, ready: set<nat>, scripts: seq<seq<Status>>, s: Phase,
                                     turns: seq<nat>, t: nat)
    requires Setup(jobs, ready, scripts) && Going(jobs, ready, scripts, s)
    requires (forall k :: 0 <= k < |turns| ==> turns[k] < |jobs|) && t < |jobs| && t in turns
    requires t < |s.threads| && !Finished(s.threads[t])
    ensures |s.st| == |s.threads| == |jobs|
    ensures Measure(RunSchedule(jobs, s, turns)) < Measure(s)
    decreases |turns|
  {
    hide Setup, Going, Step, Measure, Finished;
    GoingFits(jobs, ready, scripts, s);
    StepKeepsGoing(jobs, ready, scripts, s, turns[0]);
    StepFalls(jobs, ready, scripts, s, turns[0]);
    if Finished(s.threads[turns[0]]) {
      TurnFalls(jobs, ready, scripts, s, turns[1..], t);
    } else {
      ScheduleFalls(jobs, ready, scripts, Step(jobs, s, turns[0]), turns[1..]);
    }
  }

  lemma {:induction false} DoneStays(jobs: seq<Job>, s: Phase, schedule: seq<nat>)
    requires |s.st| == |s.threads| == |jobs| && AllDone(s)
    requires forall k :: 0 <= k < |schedule| ==> schedule[k] < |jobs|
    ensures RunSchedule(jobs, s, schedule) == s
    decreases |schedule|
  {
    if schedule != [] {
      assert Step(jobs, s, schedule[0]) == s;
      DoneStays(jobs, s, schedule[1..]);
    }
  }

  lemma {:induction false} RoundsFinish(jobs: seq<Job>, ready: set<nat>, scripts: seq<seq<Status>>, s: Phase,
                                        rounds: seq<seq<nat>>)
    requires Setup(jobs, ready, scripts) && Going(jobs, ready, scripts, s)
    requires (forall k :: 0 <= k < |rounds| ==> Round(|jobs|, rounds[k])) && |rounds| >= Measure(s)
    ensures |s.st| == |s.threads| == |jobs| && (forall k :: 0 <= k < |Flat(rounds)| ==> Flat(rounds)[k] < |jobs|)
    ensures AllDone(RunSchedule(jobs, s, Flat(rounds)))
    decreases |rounds|
  {
    hide Setup, Going, RunSchedule, Measure;
    GoingFits(jobs, ready, scripts, s);
    FlatInRange(|jobs|, rounds);
    if AllDone(s) {
      DoneStays(jobs, s, Flat(rounds));
    } else {
      var t :| 0 <= t < |s.threads| && s.threads[t] != Thread([], []);
      StepFalls(jobs, ready, scripts, s, t);
      assert Round(|jobs|, rounds[0]);
      FlatInRange(|jobs|, rounds[1..]);
      TurnFalls(jobs, ready, scripts, s, rounds[0], t);
      ScheduleFalls(jobs, ready, scripts, s, rounds[0]);
      RoundsFinish(jobs, ready, scripts, RunSchedule(jobs, s, rounds[0]), rounds[1..]);
      RunAppend(jobs, s, rounds[0], Flat(rounds[1..]));
    }
  }

  /** Every fair schedule of enough rounds, whatever the order of the turns in a round, runs all
      pipelines to their end, and so leaves the one status map. */
  lemma FairSchedulesAgree(jobs: seq<Job>, ready: set<nat>, scripts: seq<seq<Status>>, rounds: seq<seq<nat>>)
    requires Setup(jobs, ready, scripts)
    requires (forall k :: 0 <= k < |rounds| ==> Round(|jobs|, rounds[k])) && |rounds| >= Measure(Initial(jobs, scripts))
    ensures forall k :: 0 <= k < |Flat(rounds)| ==> Flat(rounds)[k] < |jobs|
    ensures AllDone(RunSchedule(jobs, Initial(jobs, scripts), Flat(rounds)))
    ensures forall i :: 0 <= i < |jobs| ==>
              RunSchedule(jobs, Initial(jobs, scripts), Flat(rounds)).st[i] == FinalStatus(jobs, scripts, i)
  {
    hide Inv, RunSchedule, Measure;
    InitialGoing(jobs, ready, scripts);
    RoundsFinish(jobs, ready, scripts, Initial(jobs, scripts), rounds);
    EveryScheduleAgrees(jobs, ready, scripts, Flat(rounds));
  }
}
