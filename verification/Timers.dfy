/** The stall timer and the idle timer each measure an unbroken stretch of idle readings; but
    not of one pod. */
module Timers {
  import opened Base
  import opened State
  import opened Provisioner
  import opened JobSteps
  import opened JobFacts
  import opened Confirmation

  /** The GPU may stand idle while the process runs, or the pod while the process is gone. */
  datatype Clock = StallClock | IdleClock

  function Since(j: Job, c: Clock): Option<real> {
    if c.StallClock? then j.stalledSince else j.idleSince
  }

  function Timeout(cfg: JobConfig, c: Clock): real {
    if c.StallClock? then cfg.stallTimeoutMinutes else cfg.idleTimeoutMinutes
  }

  /** What a step of the monitor tells a clock: nothing, activity, idleness, or that the job
      has set out for a new pod. */
  datatype Reading = NotRead | Busy | Idle(now: real) | Moved

  function GpuReading(cfg: JobConfig, a: TickAnswers): Reading {
    if cfg.stallTimeoutMinutes <= 0.0 then NotRead
    else if Idling(cfg, a) then Idle(a.now)
    else Busy
  }

  ghost function TickReading(l: Local, cfg: JobConfig, a: TickAnswers, c: Clock): Reading {
    if RecoveryStarted(l, Tick(l, cfg, a)) && !a.recover.interrupted then Moved
    else if OverBudget(Accrue(l, a.accrueAt).job, cfg) then NotRead
    else
      match Observed(l.job, a.process)
      case StillRunning => if c.IdleClock? then Busy else GpuReading(cfg, a)
      case Vanished => if c.IdleClock? && HasPod(l.job) && a.existence == Yes then Idle(a.now) else NotRead
      case _ => NotRead
  }

  function ReachedReading(cfg: JobConfig, reached: Reached, c: Clock): Reading {
    match reached
    case AfterRunning => if c.IdleClock? then Busy else NotRead
    case AfterReading(a) => if c.IdleClock? then Busy else GpuReading(cfg, a)
    case _ => NotRead
  }

  ghost function ReadingOf(l: Local, cfg: JobConfig, a: JobAnswer, c: Clock): Reading {
    match a
    case Regular(tick, resume) =>
      if l.job.status == Running then TickReading(l, cfg, tick, c)
      else if l.job.podId.None? || (HasPod(l.job) && resume.existence == No) then Moved
      else NotRead
    case Transient(_, reached) => if l.job.status == Running then ReachedReading(cfg, reached, c) else NotRead
    case StoppedBy(_, reached) => if l.job.status == Running then ReachedReading(cfg, reached, c) else NotRead
    case Unexpected(_, _, _, _) => NotRead
  }

  /** The readings of a trace; a timer already set counts as a reading before it. */
  ghost function Readings(l: Local, cfg: JobConfig, answers: seq<JobAnswer>, c: Clock): seq<Reading> {
    if answers == [] then if Since(l.job, c).Some? then [Idle(Since(l.job, c).value)] else []
    else
      var before := answers[..|answers| - 1];
      Readings(l, cfg, before, c) + [ReadingOf(MonitorAll(l, cfg, before), cfg, answers[|answers| - 1], c)]
  }

  // ---- stretches of idle readings ----

  /** Activity ends a stretch; so does a new pod, when the pod's own readings are meant. */
  predicate Ends(r: Reading, own: bool) {
    r.Busy? || (own && r.Moved?)
  }

  ghost predicate EndsBetween(rs: seq<Reading>, own: bool, j: int, k: int) {
    exists b :: 0 <= j < b < k && b < |rs| && Ends(rs[b], own)
  }

  /** The stretch that the readings end in begins at `k`. */
  ghost predicate Stretch(rs: seq<Reading>, own: bool, k: nat) {
    && k < |rs| && rs[k].Idle?
    && (forall i :: k < i < |rs| ==> !Ends(rs[i], own))
    && forall j :: 0 <= j < k && rs[j].Idle? ==> EndsBetween(rs, own, j, k)
  }

  ghost function StretchStart(rs: seq<Reading>, own: bool): (k: Option<nat>)
    ensures k.Some? ==> k.value < |rs| && rs[k.value].Idle?
  {
    if rs == [] then None
    else
      var earlier, last := StretchStart(rs[..|rs| - 1], own), rs[|rs| - 1];
      if Ends(last, own) then None else if last.Idle? && earlier.None? then Some(|rs| - 1) else earlier
  }

  lemma {:induction false} NoStretch(rs: seq<Reading>, own: bool, j: nat)
    requires StretchStart(rs, own).None? && j < |rs| && rs[j].Idle?
    ensures EndsBetween(rs, own, j, |rs|)
    decreases |rs|
  {
    var n := |rs| - 1;
    if Ends(rs[n], own) {
      assert EndsBetween(rs, own, j, |rs|);
    } else {
      NoStretch(rs[..n], own, j);
      var b :| 0 <= j < b < n && Ends(rs[..n][b], own);
      assert Ends(rs[b], own);
    }
  }

  lemma EndsInPrefix(rs: seq<Reading>, own: bool, j: int, k: int)
    requires rs != [] && k < |rs|
    ensures EndsBetween(rs, own, j, k) <==> EndsBetween(rs[..|rs| - 1], own, j, k)
  {
    var p := rs[..|rs| - 1];
    if EndsBetween(rs, own, j, k) {
      var b :| 0 <= j < b < k && Ends(rs[b], own);
      assert Ends(p[b], own);
    }
    if EndsBetween(p, own, j, k) {
      var b :| 0 <= j < b < k && Ends(p[b], own);
      assert Ends(rs[b], own);
    }
  }

  lemma StretchOfPrefix(rs: seq<Reading>, own: bool, k: nat)
    requires k + 1 < |rs|
    ensures Stretch(rs, own, k) <==> Stretch(rs[..|rs| - 1], own, k) && !Ends(rs[|rs| - 1], own)
  {
    var p := rs[..|rs| - 1];
    forall j | 0 <= j < k ensures EndsBetween(rs, own, j, k) <==> EndsBetween(p, own, j, k) {
      EndsInPrefix(rs, own, j, k);
    }
    forall i | 0 <= i < |p| ensures Ends(rs[i], own) <==> Ends(p[i], own) {
    }
    hide EndsBetween, Ends;
  }

  /** It is the start of the idle stretch that the readings end in, if they do. */
  lemma {:induction false} StretchStartIs(rs: seq<Reading>, own: bool, k: nat)
    ensures StretchStart(rs, own) == Some(k) <==> Stretch(rs, own, k)
    decreases |rs|
  {
    if rs != [] {
      var n := |rs| - 1;
      if k < n {
        StretchStartIs(rs[..n], own, k);
        StretchOfPrefix(rs, own, k);
      } else if k == n && rs[n].Idle? {
        LastStarts(rs, own);
      }
    }
  }

  /** A last idle reading begins a stretch exactly when none was under way. */
  lemma LastStarts(rs: seq<Reading>, own: bool)
    requires rs != [] && rs[|rs| - 1].Idle?
    ensures Stretch(rs, own, |rs| - 1) <==> StretchStart(rs[..|rs| - 1], own).None?
  {
    hide EndsBetween;
    var n := |rs| - 1;
    var earlier := StretchStart(rs[..n], own);
    forall j | 0 <= j < n ensures EndsBetween(rs, own, j, n) <==> EndsBetween(rs[..n], own, j, n) {
      EndsInPrefix(rs, own, j, n);
    }
    if earlier.None? {
      forall j | 0 <= j < n && rs[j].Idle? ensures EndsBetween(rs, own, j, n) {
        NoStretch(rs[..n], own, j);
      }
    } else {
      NothingEnds(rs[..n], own);
      assert rs[earlier.value].Idle?;
    }
  }

  lemma {:induction false} NothingEnds(rs: seq<Reading>, own: bool)
    requires StretchStart(rs, own).Some?
    ensures !EndsBetween(rs, own, StretchStart(rs, own).value, |rs|)
    decreases |rs|
  {
    var n := |rs| - 1;
    var k := StretchStart(rs, own).value;
    if StretchStart(rs[..n], own).Some? {
      NothingEnds(rs[..n], own);
      EndsInPrefix(rs, own, k, n);
    }
  }

  /** When the stretch began. */
  ghost function Began(rs: seq<Reading>, own: bool): Option<real> {
    var k := StretchStart(rs, own);
    if k.Some? then Some(rs[k.value].now) else None
  }

  // ---- the timers ----

  function Next(since: Option<real>, r: Reading): Option<real> {
    match r
    case Busy => None
    case Idle(now) => if since.Some? then since else Some(now)
    case _ => since
  }

  lemma BeganNext(rs: seq<Reading>, r: Reading)
    ensures Began(rs + [r], false) == Next(Began(rs, false), r)
  {
    assert (rs + [r])[..|rs|] == rs;
  }

  /** Neither a recovery nor a resumption touches a timer. */
  lemma RecoverKeepsTimers(l: Local, cfg: JobConfig, a: RecoverAnswers, c: Clock)
    requires l.job.status == Running
    ensures Since(Recover(l, cfg, a).at.job, c) == Since(l.job, c)
  {
    hide Pipeline;
    if AttemptsLeft(l.job, cfg) && !a.interrupted {
      PipelineFacts(BeforeRetry(l, cfg, a.tornDown).(job := Podless(l.job)), cfg, a.pipeline, false);
    }
  }

  lemma ResumeKeepsTimers(l0: Local, cfg: JobConfig, a: ResumeAnswers, c: Clock)
    requires l0.job.status in {Provisioning, Deploying}
    ensures Since(Resume(l0, cfg, a).at.job, c) == Since(l0.job, c)
  {
    hide Pipeline;
    var l := Accrue(l0, a.accrueAt);
    if !(HasPod(l.job) && a.existence == Unknown) {
      PipelineFacts(if HasPod(l.job) && a.existence == No then LosePod(l) else l, cfg, a.pipeline, true);
    }
  }

  lemma GoneKeepsTimers(l: Local, cfg: JobConfig, existence: Tri, a: RecoverAnswers, c: Clock)
    requires l.job.status == Running && existence != Yes
    ensures Since(TickGone(l, cfg, existence, a).at.job, c) == Since(l.job, c)
  {
    hide Recover;
    RecoverKeepsTimers(l.(job := l.job.(gone := l.job.gone + 1)), cfg, a, c);
  }

  /** The clock's time is up. */
  predicate Expired(j: Job, cfg: JobConfig, c: Clock, now: real) {
    Since(j, c).Some? && (now - Since(j, c).value) / 60.0 >= Timeout(cfg, c)
  }

  lemma RunningSets(l: Local, cfg: JobConfig, a: TickAnswers)
    requires l.job.status == Running
    ensures var after := TickRunning(l, cfg, a).at.job;
      && (Active(after.status) ==>
            after.idleSince == None && after.stalledSince == Next(l.job.stalledSince, GpuReading(cfg, a)))
      && (!Active(after.status) <==> Idling(cfg, a) && Expired(l.job, cfg, StallClock, a.now))
  {
    hide Finish;
    FinishQuiet(l.(job := l.job.(idleSince := None, gone := 0)), cfg, Failed, false, a.finish);
  }

  lemma VanishedSets(l: Local, cfg: JobConfig, a: TickAnswers)
    requires l.job.status == Running
    ensures var after, alive := TickVanished(l, cfg, a).at.job, HasPod(l.job) && a.existence == Yes;
      && (Active(after.status) ==>
            after.stalledSince == l.job.stalledSince &&
            after.idleSince == if alive then Next(l.job.idleSince, Idle(a.now)) else l.job.idleSince)
      && (alive ==> (!Active(after.status) <==> Expired(l.job, cfg, IdleClock, a.now)))
  {
    hide Finish, TickGone;
    FinishQuiet(l.(job := l.job.(gone := 0)), cfg, Completed, false, a.finish);
    var existence := if HasPod(l.job) then a.existence else No;
    if existence != Yes {
      GoneKeepsTimers(l, cfg, existence, a.recover, StallClock);
      GoneKeepsTimers(l, cfg, existence, a.recover, IdleClock);
    }
  }

  lemma NoAnswerSets(l: Local, cfg: JobConfig, a: TickAnswers, c: Clock)
    requires l.job.status == Running
    ensures Since(TickNoAnswer(l, cfg, a).at.job, c) == Since(l.job, c)
  {
    hide TickGone;
    var existence := if HasPod(l.job) then a.existence else Unknown;
    if existence != Yes {
      GoneKeepsTimers(l, cfg, existence, a.recover, c);
    }
  }

  /** A tick that leaves the job active sets the clock to what it read; and an idle reading
      ends the job exactly when the clock's time is up. */
  lemma TickSets(l0: Local, cfg: JobConfig, a: TickAnswers, c: Clock)
    requires l0.job.status == Running
    ensures var after, r := Tick(l0, cfg, a).at.job, TickReading(l0, cfg, a, c);
      && (Active(after.status) ==> Since(after, c) == Next(Since(l0.job, c), r))
      && (r.Idle? ==> r.now == a.now && (!Active(after.status) <==> Expired(l0.job, cfg, c, a.now)))
  {
    hide Finish, TickRunning, TickVanished, TickNoAnswer, RecoveryStarted;
    var l := Accrue(l0, a.accrueAt);
    TickSign(l0, cfg, a);
    if OverBudget(l.job, cfg) {
      FinishQuiet(l, cfg, Failed, true, a.finish);
    } else {
      match Observed(l.job, a.process)
      case ExitedWith(code) =>
        FinishQuiet(l.(job := l.job.(exitCode := Some(code))), cfg, ExitOutcome(code), false, a.finish);
      case StillRunning => RunningSets(l, cfg, a);
      case Vanished => VanishedSets(l, cfg, a);
      case NoAnswer => NoAnswerSets(l, cfg, a, c);
    }
  }

  lemma PartlySets(l: Local, cfg: JobConfig, at: real, reached: Reached, c: Clock)
    ensures var r := if l.job.status == Running then ReachedReading(cfg, reached, c) else NotRead;
      Since(Partly(Accrue(l, at), cfg, reached).job, c) == Next(Since(l.job, c), r)
  {
  }

  lemma StepSets(l: Local, cfg: JobConfig, a: JobAnswer, c: Clock)
    requires Active(l.job.status) && Active(Monitor(l, cfg, a).at.job.status)
    ensures Since(Monitor(l, cfg, a).at.job, c) == Next(Since(l.job, c), ReadingOf(l, cfg, a, c))
  {
    hide Tick, Resume, Finish, Partly, TickReading, Since;
    match a
    case Regular(tick, resume) =>
      if l.job.status == Running {
        TickSets(l, cfg, tick, c);
      } else {
        ResumeKeepsTimers(l, cfg, resume, c);
      }
    case Transient(at, reached) => PartlySets(l, cfg, at, reached, c);
    case StoppedBy(at, reached) => PartlySets(l, cfg, at, reached, c);
    case Unexpected(_, _, _, _) => FinishedNotActive(l, cfg, a);
  }

  /** Over every trace of the monitor's steps on an active job, recoveries and exceptions
      included, a timer holds the time at which the idle stretch under way began. */
  lemma {:induction false} TimerMarksStretch(l: Local, cfg: JobConfig, answers: seq<JobAnswer>, c: Clock)
    requires StaysActive(l, cfg, answers)
    ensures Since(MonitorAll(l, cfg, answers).job, c) == Began(Readings(l, cfg, answers, c), false)
    decreases |answers|
  {
    hide Monitor, ReadingOf;
    if answers != [] {
      var before, a := answers[..|answers| - 1], answers[|answers| - 1];
      TimerMarksStretch(l, cfg, before, c);
      StepSets(MonitorAll(l, cfg, before), cfg, a, c);
      hide Since, Began, Next;
      BeganNext(Readings(l, cfg, before, c), ReadingOf(MonitorAll(l, cfg, before), cfg, a, c));
    }
  }

  /** The stretch of idle readings that `rs` ends in has lasted for the timeout. */
  ghost predicate Lasted(rs: seq<Reading>, own: bool, now: real, timeout: real) {
    exists k: nat :: Stretch(rs, own, k) && (now - rs[k].now) / 60.0 >= timeout
  }

  lemma LastedIs(rs: seq<Reading>, own: bool, now: real, timeout: real)
    ensures Lasted(rs, own, now, timeout) <==>
              Began(rs, own).Some? && (now - Began(rs, own).value) / 60.0 >= timeout
  {
    hide Stretch;
    forall k: nat ensures StretchStart(rs, own) == Some(k) <==> Stretch(rs, own, k) {
      StretchStartIs(rs, own, k);
    }
    if Began(rs, own).Some? {
      assert Stretch(rs, own, StretchStart(rs, own).value);
    }
  }

  /** Whatever came before, a further idle reading ends the job (for a stall, or as idle)
      exactly when it comes the timeout or more after the first of the unbroken stretch of idle
      readings before it. */
  lemma ClockNeedsUnbrokenIdling(l: Local, cfg: JobConfig, answers: seq<JobAnswer>, next: TickAnswers, c: Clock)
    requires StaysActive(l, cfg, answers) && MonitorAll(l, cfg, answers).job.status == Running
    requires TickReading(MonitorAll(l, cfg, answers), cfg, next, c).Idle?
    ensures !Active(Tick(MonitorAll(l, cfg, answers), cfg, next).at.job.status)
       <==> Lasted(Readings(l, cfg, answers, c), false, next.now, Timeout(cfg, c))
  {
    hide Tick, TickReading, Lasted;
    TimerMarksStretch(l, cfg, answers, c);
    TickSets(MonitorAll(l, cfg, answers), cfg, next, c);
    LastedIs(Readings(l, cfg, answers, c), false, next.now, Timeout(cfg, c));
  }

  // ---- whose idleness? ----

  /** The job has set out for a new pod since the stretch began. */
  ghost predicate MovedWithin(rs: seq<Reading>) {
    exists k: nat, r :: Stretch(rs, false, k) && k < r < |rs| && rs[r].Moved?
  }

  lemma {:induction false} OwnWithin(rs: seq<Reading>)
    ensures StretchStart(rs, true) == StretchStart(rs, false) <==>
              !(StretchStart(rs, false).Some? && exists r :: StretchStart(rs, false).value < r < |rs| && rs[r].Moved?)
    ensures StretchStart(rs, false).None? ==> StretchStart(rs, true).None?
    decreases |rs|
  {
    if rs != [] {
      var n := |rs| - 1;
      var p := rs[..n];
      OwnWithin(p);
      var s := StretchStart(p, false);
      if s.Some? {
        if r :| s.value < r < n && rs[r].Moved? {
          assert p[r].Moved?;
        }
        if r :| s.value < r < n && p[r].Moved? {
          assert rs[r].Moved?;
        }
      }
    }
  }

  /** A timer measures the idleness of the job's present pod alone, whenever the next reading
      comes, exactly when the job has not moved to a new pod since the stretch began: a
      recovery resets neither timer. */
  lemma OwnIdlenessExactlyWhen(rs: seq<Reading>)
    ensures StretchStart(rs, true) == StretchStart(rs, false) <==> !MovedWithin(rs)
  {
    hide Stretch;
    OwnWithin(rs);
    forall k: nat ensures StretchStart(rs, false) == Some(k) <==> Stretch(rs, false, k) {
      StretchStartIs(rs, false, k);
    }
  }

  /** Such a job is ended by the first idle reading of its new pod, if the old pod's stretch
      began early enough. */
  lemma FirstReadingCanEnd(l: Local, cfg: JobConfig, a: RecoverAnswers, next: TickAnswers, c: Clock)
    requires l.job.status == Running && Recover(l, cfg, a).at.job.status == Running
    requires TickReading(Recover(l, cfg, a).at, cfg, next, c).Idle? && Expired(l.job, cfg, c, next.now)
    ensures !Active(Tick(Recover(l, cfg, a).at, cfg, next).at.job.status)
  {
    hide Tick, TickReading, Recover;
    RecoverKeepsTimers(l, cfg, a, c);
    TickSets(Recover(l, cfg, a).at, cfg, next, c);
  }

  /** Recovery onto a pod that the first candidate yields at once. */
  lemma RecoversOnto(l: Local, cfg: JobConfig, a: RecoverAnswers, pod: PodId, at: Endpoint)
    requires l.job.status == Running && AttemptsLeft(l.job, cfg) && !cfg.keepPodAlive && !a.interrupted
    requires a.pipeline.oracle.answer(1, 0) == Created(pod, 1.0, 1.0, Reachable(at)) && a.pipeline.candidates == Some(1)
    requires !a.pipeline.faultBeforeDeploy && RunsToEnd(a.pipeline)
    requires a.pipeline.deploy == Deployed && a.pipeline.launch == LaunchReturned(Some(8))
    ensures var j := Recover(l, cfg, a).at.job;
      && j.status == Running && j.podId == Some(pod) && j.ssh == Some(at) && j.pid == Some(8)
      && j.stalledSince == l.job.stalledSince && j.rate == Rate(1.0, cfg.rateOverride)
  {
    var b := BeforeRetry(l, cfg, a.tornDown).(job := Podless(l.job));
    var w := NextPass(Walk(b.job, b.log, b.calls, []).(job := b.job.(status := Provisioning)));
    var (w', e) := WalkFrom(w, a.pipeline.oracle, 1, Passes(cfg.provisionRetries), cfg.rateOverride, 1, 0, false);
    hide WalkFrom;
    assert e == Tracked && w'.job.podId == Some(pod) && w'.job.ssh == Some(at);
  }

  /** For instance: idle at time 0, recovered onto pod "q", and failed for a stall when pod "q"
      is read for the first time, ten minutes later. */
  lemma NewPodFailsForOldStall() returns (l: Local, cfg: JobConfig, a: RecoverAnswers, next: TickAnswers)
    ensures l.job.status == Running && l.job.podId == Some(PodId("p"))
    ensures var m := Recover(l, cfg, a).at;
      m.job.status == Running && m.job.podId == Some(PodId("q")) && Tick(m, cfg, next).at.job.status == Failed
  {
    hide Recover;
    var here := Endpoint("h", 22);
    var job := Job(Name("train"), [], Running, Some(PodId("p")), 1.0, Some(here), Some(1.0), None, None, None,
                   Some(0.0),
                   1, 1, 0.0, Some(7), None);
    cfg := JobConfig("x", false, false, false, 0.0, 3, 1, 1.0, 1, 0.0, 10.0, 10.0, 5, 5.0, false);
    var o := Oracle((pass, cand) => Created(PodId("q"), 1.0, 1.0, Reachable(here)), pass => false);
    var pipeline := PipelineAnswers(false, Unknown, None, Some(1), o, Up, false, false, Deployed, false,
                                    LaunchReturned(Some(8)), false, 2.0);
    l := Local(job, 0.0, [], []);
    a := RecoverAnswers(true, false, pipeline);
    next := TickAnswers(600.0, StillRunning, Some(0), Yes, 600.0, None, None, false,
                        FinishAnswers(true, true, 600.0, 600.0), a);
    RecoversOnto(l, cfg, a, PodId("q"), here);
    StalledFails(Recover(l, cfg, a).at, cfg, next);
  }

  lemma StalledFails(l: Local, cfg: JobConfig, a: TickAnswers)
    requires l.job.status == Running && l.job.ssh.Some? && HasPid(l.job) && cfg.jobBudget == 0.0 &&
             a.process == StillRunning
    requires !cfg.hasSyncPaths && Stalled(l.job, cfg, a)
    ensures Tick(l, cfg, a).at.job.status == Failed
  {
    hide Finish;
    var c := Accrue(l, a.accrueAt);
    FinishFacts(c.(job := c.job.(idleSince := None, gone := 0)), cfg, Failed, false, a.finish);
  }
}
