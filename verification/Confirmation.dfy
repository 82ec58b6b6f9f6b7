/** When recovery starts: only after enough answers of "gone" in a row. */
module Confirmation {
  import opened Base
  import opened State
  import opened JobSteps
  import opened JobFacts
  import R = Reconcile

  /** What a tick saw of the pod. */
  datatype Sign = SawAlive | SawGone | SawNothing

  function Answered(existence: Tri): Sign {
    match existence
    case Yes => SawAlive
    case No => SawGone
    case Unknown => SawNothing
  }

  /** A running process, or the provider, vouches for the pod; only the provider can say that
      it is gone. A job without a pod whose process is gone counts as gone. */
  function SignOf(l: Local, cfg: JobConfig, a: TickAnswers): Sign {
    if OverBudget(Accrue(l, a.accrueAt).job, cfg) then SawNothing
    else
      match Observed(l.job, a.process)
      case ExitedWith(_) => SawNothing
      case StillRunning => SawAlive
      case Vanished => Answered(if HasPod(l.job) then a.existence else No)
      case NoAnswer => Answered(if HasPod(l.job) then a.existence else Unknown)
  }

  /** Recovery shows: it begins with a backoff, or fails the job at once without any call. */
  ghost predicate RecoveryStarted(l: Local, o: Outcome) {
    || (exists k :: |l.calls| <= k < |o.at.calls| && o.at.calls[k].Backoff?)
    || (o.at.job.status == Failed && o.at.calls == l.calls)
  }

  /** A recovery shows, and leaves the counter at zero on the new pod unless it was
      interrupted before it got that far. */
  lemma RecoverStarts(l: Local, cfg: JobConfig, a: RecoverAnswers)
    requires l.job.status == Running
    ensures var o := Recover(l, cfg, a);
      && RecoveryStarted(l, o)
      && (Active(o.at.job.status) ==> o.at.job.gone == if a.interrupted then l.job.gone else 0)
  {
    if AttemptsLeft(l.job, cfg) {
      var b := BeforeRetry(l, cfg, a.tornDown);
      assert b.calls[|b.calls| - 1].Backoff? && |b.calls| > |l.calls|;
      if !a.interrupted {
        var p := b.(job := Podless(b.job));
        PipelineFacts(p, cfg, a.pipeline, false);
        var o := Pipeline(p, cfg, a.pipeline, false);
        hide Pipeline, BeforeRetry;
        assert o.at.calls[|b.calls| - 1].Backoff?;
      }
    }
  }

  lemma GoneSign(l: Local, cfg: JobConfig, existence: Tri, a: RecoverAnswers)
    requires l.job.status == Running && existence != Yes
    ensures var o := TickGone(l, cfg, existence, a);
      && (RecoveryStarted(l, o) <==> existence == No && l.job.gone + 1 >= Confirmations(cfg))
      && (!RecoveryStarted(l, o) ==>
            o.at.job.status == Running && o.at.job.gone == l.job.gone + if existence == No then 1 else 0)
      && (RecoveryStarted(l, o) && Active(o.at.job.status) ==>
            o.at.job.gone == if a.interrupted then l.job.gone + 1 else 0)
  {
    hide Recover;
    if existence == No && l.job.gone + 1 >= Confirmations(cfg) {
      RecoverStarts(l.(job := l.job.(gone := l.job.gone + 1)), cfg, a);
    }
  }

  lemma RunningSign(l: Local, cfg: JobConfig, a: TickAnswers)
    requires l.job.status == Running
    ensures var o := TickRunning(l, cfg, a);
      !RecoveryStarted(l, o) && (Active(o.at.job.status) ==> o.at.job.gone == 0)
  {
  }

  lemma VanishedSign(l: Local, cfg: JobConfig, a: TickAnswers)
    requires l.job.status == Running && HasPod(l.job) && a.existence == Yes
    ensures var o := TickVanished(l, cfg, a);
      !RecoveryStarted(l, o) && (Active(o.at.job.status) ==> o.at.job.gone == 0)
  {
    hide Finish;
    FinishQuiet(l.(job := l.job.(gone := 0)), cfg, Completed, false, a.finish);
  }

  lemma NoAnswerSign(l: Local, cfg: JobConfig, a: TickAnswers)
    requires l.job.status == Running && HasPod(l.job) && a.existence == Yes
    ensures var o := TickNoAnswer(l, cfg, a);
      !RecoveryStarted(l, o) && (Active(o.at.job.status) ==> o.at.job.gone == 0)
  {
  }

  /** The counter after a tick that leaves the job active. */
  ghost function Counted(l: Local, o: Outcome, count: int, sign: Sign, a: RecoverAnswers): int {
    if RecoveryStarted(l, o) && !a.interrupted then 0 else After(count, sign)
  }

  function After(count: int, sign: Sign): int {
    match sign
    case SawAlive => 0
    case SawGone => count + 1
    case SawNothing => count
  }

  /** One tick: recovery starts exactly when a "gone" completes the confirmations; otherwise
      the counter follows the sign. */
  lemma TickSign(l0: Local, cfg: JobConfig, a: TickAnswers)
    requires l0.job.status == Running
    ensures var o, sign := Tick(l0, cfg, a), SignOf(l0, cfg, a);
      && (RecoveryStarted(l0, o) <==> sign == SawGone && l0.job.gone + 1 >= Confirmations(cfg))
      && (Active(o.at.job.status) ==> o.at.job.gone == Counted(l0, o, l0.job.gone, sign, a.recover))
  {
    hide Finish, TickGone, TickRunning, TickNoAnswer;
    var l := Accrue(l0, a.accrueAt);
    if OverBudget(l.job, cfg) {
      FinishQuiet(l, cfg, Failed, true, a.finish);
    } else {
      match Observed(l.job, a.process)
      case ExitedWith(code) =>
        FinishQuiet(l.(job := l.job.(exitCode := Some(code))), cfg, ExitOutcome(code), false, a.finish);
      case StillRunning => RunningSign(l, cfg, a);
      case Vanished =>
        if HasPod(l.job) && a.existence == Yes {
          VanishedSign(l, cfg, a);
        } else {
          GoneSign(l, cfg, if HasPod(l.job) then a.existence else No, a.recover);
        }
      case NoAnswer => NoAnswerCases(l, cfg, a);
    }
  }

  lemma NoAnswerCases(l: Local, cfg: JobConfig, a: TickAnswers)
    requires l.job.status == Running
    ensures var o, sign := TickNoAnswer(l, cfg, a), Answered(if HasPod(l.job) then a.existence else Unknown);
      && (RecoveryStarted(l, o) <==> sign == SawGone && l.job.gone + 1 >= Confirmations(cfg))
      && (Active(o.at.job.status) ==> o.at.job.gone == Counted(l, o, l.job.gone, sign, a.recover))
  {
    hide TickGone, Launch;
    if HasPod(l.job) && a.existence == Yes {
      NoAnswerSign(l, cfg, a);
    } else {
      GoneSign(l, cfg, if HasPod(l.job) then a.existence else Unknown, a.recover);
    }
  }

  // ---- traces ----

  /** The marks a step leaves: what its tick saw; that the pod was replaced by a recovery; or
      that an exception struck after the pod was seen alive. Steps that resume a job leave
      none. */
  datatype Mark = Saw(sign: Sign) | NewPod

  ghost function MarkOf(l: Local, cfg: JobConfig, a: JobAnswer): Mark {
    if l.job.status != Running then Saw(SawNothing)
    else
      match a
      case Regular(tick, _) =>
        if RecoveryStarted(l, Tick(l, cfg, tick)) && !tick.recover.interrupted then NewPod
        else Saw(SignOf(l, cfg, tick))
      case Transient(_, reached) => Saw(ReachedSign(reached))
      case StoppedBy(_, reached) => Saw(ReachedSign(reached))
      case Unexpected(_, _, _, _) => Saw(SawNothing)
  }

  function ReachedSign(reached: Reached): Sign {
    if reached.AtOnce? || reached.AfterExit? then SawNothing else SawAlive
  }

  /** Answers of "gone" since the pod was last seen alive or replaced, on top of those counted
      before; "cannot tell" neither counts nor resets. */
  function GoneInARow(before: int, marks: seq<Mark>): int {
    if marks == [] then before
    else
      var earlier := GoneInARow(before, marks[..|marks| - 1]);
      match marks[|marks| - 1]
      case NewPod => 0
      case Saw(sign) => After(earlier, sign)
  }

  ghost function MonitorAll(l: Local, cfg: JobConfig, answers: seq<JobAnswer>): Local {
    if answers == [] then l
    else Monitor(MonitorAll(l, cfg, answers[..|answers| - 1]), cfg, answers[|answers| - 1]).at
  }

  ghost function Marks(l: Local, cfg: JobConfig, answers: seq<JobAnswer>): (r: seq<Mark>)
    ensures |r| == |answers|
  {
    if answers == [] then []
    else
      var before := answers[..|answers| - 1];
      Marks(l, cfg, before) + [MarkOf(MonitorAll(l, cfg, before), cfg, answers[|answers| - 1])]
  }

  /** The job is active throughout; a job that is over is not monitored any more. */
  ghost predicate StaysActive(l: Local, cfg: JobConfig, answers: seq<JobAnswer>) {
    && Active(MonitorAll(l, cfg, answers).job.status)
    && (answers != [] ==> StaysActive(l, cfg, answers[..|answers| - 1]))
  }

  lemma ResumeKeepsCount(l0: Local, cfg: JobConfig, a: ResumeAnswers)
    requires l0.job.status in {Provisioning, Deploying}
    ensures Resume(l0, cfg, a).at.job.gone == l0.job.gone
  {
    hide Pipeline;
    var l := Accrue(l0, a.accrueAt);
    if !(HasPod(l.job) && a.existence == Unknown) {
      var p := if HasPod(l.job) && a.existence == No then LosePod(l) else l;
      PipelineFacts(p, cfg, a.pipeline, true);
    }
  }

  lemma FinishedNotActive(l: Local, cfg: JobConfig, a: JobAnswer)
    requires a.Unexpected?
    ensures !Active(Monitor(l, cfg, a).at.job.status)
  {
    hide Finish, Partly;
    FinishQuiet(Partly(Accrue(l, a.accrueAt), cfg, a.reached), cfg, Failed, false, a.finish);
  }

  lemma PartlyCounts(l: Local, cfg: JobConfig, at: real, reached: Reached)
    ensures Partly(Accrue(l, at), cfg, reached).job.gone ==
              if l.job.status == Running && !reached.AtOnce? && !reached.AfterExit? then 0 else l.job.gone
  {
  }

  /** One step of the monitor and the counter. */
  lemma MarkCounts(l: Local, cfg: JobConfig, a: JobAnswer)
    requires Active(l.job.status) && Active(Monitor(l, cfg, a).at.job.status)
    ensures Monitor(l, cfg, a).at.job.gone ==
              match MarkOf(l, cfg, a) { case NewPod => 0 case Saw(sign) => After(l.job.gone, sign) }
  {
    hide Tick, Resume, Finish, Partly, SignOf, RecoveryStarted;
    match a
    case Regular(tick, resume) =>
      if l.job.status == Running {
        TickSign(l, cfg, tick);
      } else {
        ResumeKeepsCount(l, cfg, resume);
      }
    case Transient(at, reached) => PartlyCounts(l, cfg, at, reached);
    case StoppedBy(at, reached) => PartlyCounts(l, cfg, at, reached);
    case Unexpected(_, _, _, _) => FinishedNotActive(l, cfg, a);
  }

  /** Over every trace of the monitor's steps on an active job, recoveries, interruptions,
      resumptions and exceptions included, the counter is the number of "gone" answers since
      the pod was last seen alive or replaced, on top of what the trace began with; */
  lemma {:induction false} CounterCountsGone(l: Local, cfg: JobConfig, answers: seq<JobAnswer>)
    requires StaysActive(l, cfg, answers)
    ensures MonitorAll(l, cfg, answers).job.gone == GoneInARow(l.job.gone, Marks(l, cfg, answers))
    decreases |answers|
  {
    hide Monitor, MarkOf;
    if answers != [] {
      var before := answers[..|answers| - 1];
      CounterCountsGone(l, cfg, before);
      MarkCounts(MonitorAll(l, cfg, before), cfg, answers[|answers| - 1]);
      assert Marks(l, cfg, answers)[..|answers| - 1] == Marks(l, cfg, before);
    }
  }

  /** and a tick that follows starts a recovery exactly when it is a "gone" answer that brings
      that number to the confirmations needed. */
  lemma RecoveryNeedsConfirmations(l: Local, cfg: JobConfig, answers: seq<JobAnswer>, next: TickAnswers)
    requires StaysActive(l, cfg, answers) && MonitorAll(l, cfg, answers).job.status == Running
    ensures var m := MonitorAll(l, cfg, answers);
      RecoveryStarted(m, Tick(m, cfg, next)) <==>
        SignOf(m, cfg, next) == SawGone &&
        GoneInARow(l.job.gone, Marks(l, cfg, answers) + [Saw(SawGone)]) >= Confirmations(cfg)
  {
    hide Tick, SignOf, RecoveryStarted, Monitor, MarkOf;
    var m := MonitorAll(l, cfg, answers);
    CounterCountsGone(l, cfg, answers);
    TickSign(m, cfg, next);
    var marks := Marks(l, cfg, answers) + [Saw(SawGone)];
    assert marks[..|marks| - 1] == Marks(l, cfg, answers);
  }

  /** A job that reconciling gives a new pod, by adoption or in place of one that is gone,
      starts from the count of its old pod: the confirmations its new pod needs are that many
      fewer. */
  lemma NewPodInheritsCount(l: Local, cfg: JobConfig, id: PodId, now: real, adopted: bool, answers: seq<JobAnswer>,
                            next: TickAnswers)
    requires var given := l.(job := if adopted then R.Adopted(l.job, id, now) else R.Replaced(l.job, id));
      StaysActive(given, cfg, answers) && MonitorAll(given, cfg, answers).job.status == Running
    ensures var given := l.(job := if adopted then R.Adopted(l.job, id, now) else R.Replaced(l.job, id));
      var m := MonitorAll(given, cfg, answers);
      RecoveryStarted(m, Tick(m, cfg, next)) <==>
        SignOf(m, cfg, next) == SawGone &&
        GoneInARow(l.job.gone, Marks(given, cfg, answers) + [Saw(SawGone)]) >= Confirmations(cfg)
  {
    hide Tick, SignOf, RecoveryStarted, Monitor, MarkOf, GoneInARow;
    RecoveryNeedsConfirmations(l.(job := if adopted then R.Adopted(l.job, id, now) else R.Replaced(l.job, id)), cfg,
                               answers, next);
  }

  /** So one "gone" may be enough: the first about the new pod, once the job has been resumed
      on it. */
  lemma OneGoneCanSuffice(l: Local, cfg: JobConfig, id: PodId, resume: ResumeAnswers, next: TickAnswers)
    requires l.job.status == Running && l.job.gone + 1 >= Confirmations(cfg)
    requires var m := Resume(l.(job := R.Replaced(l.job, id)), cfg, resume).at;
      m.job.status == Running && SignOf(m, cfg, next) == SawGone
    ensures var m := Resume(l.(job := R.Replaced(l.job, id)), cfg, resume).at;
      RecoveryStarted(m, Tick(m, cfg, next))
  {
    hide Resume, Tick, SignOf, RecoveryStarted;
    var given := l.(job := R.Replaced(l.job, id));
    ResumeKeepsCount(given, cfg, resume);
    TickSign(Resume(given, cfg, resume).at, cfg, next);
  }
}
