/** What each operation on a job comes to, read off the configuration and the answers alone. */
module Decisions {
  import opened Base
  import opened State
  import opened Provisioner
  import opened JobSteps
  import opened JobFacts

  // ---- finishing ----

  /** The final sync failed, and the pod is kept for its results: unless the teardown is
      forced, a completed job's always, a failed job's exactly if so configured. */
  predicate KeptForResults(l: Local, cfg: JobConfig, status: Status, force: bool, a: FinishAnswers) {
    && l.job.podId.Some? && l.job.podId.value.text != ""
    && cfg.hasSyncPaths && (l.job.ssh.None? || !a.synced)
    && !force && (status == Failed ==> cfg.keepPodOnFailure)
  }

  /** A finished job has the outcome intended, or its sync has failed and its pod stays, exactly
      as above; its pod is released unless kept, for its results or alive after completion; the
      registry is told what the release came to. */
  lemma FinishDecides(l: Local, cfg: JobConfig, status: Status, force: bool, a: FinishAnswers)
    requires status in {Completed, Failed}
    ensures var o, keeps := Finish(l, cfg, status, force, a), KeptForResults(l, cfg, status, force, a);
      && o.at.job.status == (if keeps then SyncFailed else status) && o.at.job.podId == l.job.podId
      && (keeps ==> o.at == l.(job := l.job.(status := SyncFailed), calls := o.at.calls))
      && (!keeps ==>
            && o.at.job.finishedAt == Some(a.now) && (HasPod(l.job) ==> StopRecorded(o.at.log, l.job.podId))
            && o.at.log == RecordStop(l.log, l.job.podId, StopReason.Finished(status), Some(o.at.job.cost)))
      && o.at.calls == l.calls +
           [FinalSync(l.job.name, !cfg.hasSyncPaths || (l.job.ssh.Some? && a.synced))] +
           if l.job.podId.None? || l.job.podId.value.text == "" then []
           else if keeps || (status == Completed && cfg.keepPodAlive) then [MarkRegistry(l.job.podId.value, false)]
           else [Teardown(l.job.name, l.job.podId.value, a.tornDown), MarkRegistry(l.job.podId.value, a.tornDown)]
  {
  }

  // ---- how a tick ends a job ----

  /** The job's own budget is spent. */
  predicate Overspent(j: Job, cfg: JobConfig, at: real) {
    cfg.jobBudget > 0.0 && Accrued(j, at).cost >= cfg.jobBudget
  }

  predicate Elapsed(since: Option<real>, now: real, minutes: real) {
    since.Some? && (now - since.value) / 60.0 >= minutes
  }

  predicate PidKnown(j: Job) {
    j.pid.Some? && j.pid.value != 0
  }

  /** The tick of a running job, within its budget, finds an end: the process exited; or it
      runs and the GPU has been idle for too long; or it is gone and its pod has stood idle for
      too long. Without an address nothing of the kind can be found. */
  predicate FindsEnd(j: Job, cfg: JobConfig, a: TickAnswers, status: Status) {
    && j.status == Running && !Overspent(j, cfg, a.accrueAt) && j.ssh.Some?
    && match a.process
       case ExitedWith(code) => if code == 0 then status == Completed else status == Failed
       case StillRunning =>
         && status == Failed && PidKnown(j)
         && cfg.stallTimeoutMinutes > 0.0 && a.gpuUtil.Some? && a.gpuUtil.value < cfg.stallThreshold
         && Elapsed(j.stalledSince, a.now, cfg.stallTimeoutMinutes)
       case Vanished =>
         && status == Completed && HasPod(j) && a.existence == Yes
         && Elapsed(j.idleSince, a.now, cfg.idleTimeoutMinutes)
       case NoAnswer => false
  }

  /** Then the job is finished, unforced, with that outcome. */
  lemma EndIsFinish(l: Local, cfg: JobConfig, a: TickAnswers, status: Status) returns (c: Local)
    requires FindsEnd(l.job, cfg, a, status)
    ensures status in {Completed, Failed} && Tick(l, cfg, a) == Finish(c, cfg, status, false, a.finish)
    ensures c.calls == l.calls && c.log == l.log && c.job.name == l.job.name && c.job.status == Running
    ensures c.job.podId == l.job.podId && c.job.ssh == l.job.ssh
    ensures a.process.ExitedWith? ==> c.job.exitCode == Some(a.process.code)
  {
    var b := Accrue(l, a.accrueAt);
    match a.process
    case ExitedWith(code) =>
      c := b.(job := b.job.(exitCode := Some(code)));
    case StillRunning =>
      c := b.(job := b.job.(idleSince := None, gone := 0));
    case Vanished =>
      c := b.(job := b.job.(gone := 0));
  }

  lemma ExitFinishes(l: Local, cfg: JobConfig, code: int, a: FinishAnswers)
    ensures var o := Finish(l.(job := l.job.(exitCode := Some(code))), cfg, ExitOutcome(code), false, a);
      && o.at.job.exitCode == Some(code) && (o.spread <==> code != 0)
      && if code == 0 then o.at.job.status in {Completed, SyncFailed} else o.at.job.status in {Failed, SyncFailed}
  {
  }

  lemma OverspentIsFinish(l: Local, cfg: JobConfig, a: TickAnswers)
    requires l.job.status == Running && Overspent(l.job, cfg, a.accrueAt)
    ensures Tick(l, cfg, a) == Finish(Accrue(l, a.accrueAt), cfg, Failed, true, a.finish)
  {
  }

  /** Any other tick leaves the job under way, or fails it for good. */
  lemma OtherwiseUnderWay(l: Local, cfg: JobConfig, a: TickAnswers)
    requires l.job.status == Running && !Overspent(l.job, cfg, a.accrueAt)
    requires !FindsEnd(l.job, cfg, a, Completed) && !FindsEnd(l.job, cfg, a, Failed)
    ensures Tick(l, cfg, a).at.job.status in {Provisioning, Deploying, Running, Failed}
  {
    hide TickGone, Launch;
    var b := Accrue(l, a.accrueAt);
    match Observed(b.job, a.process)
    case ExitedWith(code) =>
    case StillRunning =>
    case Vanished =>
      if !(HasPod(b.job) && a.existence == Yes) {
        TickGoneFacts(b, cfg, if HasPod(b.job) then a.existence else No, a.recover);
      }
    case NoAnswer =>
      if HasPod(b.job) && a.existence == Yes {
        LaunchFacts(b.(job := b.job.(gone := 0)), a.launched, a.launchTornDown, a.now);
      } else {
        TickGoneFacts(b, cfg, if HasPod(b.job) then a.existence else Unknown, a.recover);
      }
  }

  /** A tick completes the job exactly when it found an exit with code 0, or the idle time is
      over, and the results are in or there is no pod to fetch them from. */
  lemma CompletesExactlyWhen(l: Local, cfg: JobConfig, a: TickAnswers)
    requires l.job.status == Running
    ensures Tick(l, cfg, a).at.job.status == Completed <==>
              FindsEnd(l.job, cfg, a, Completed) &&
              (!cfg.hasSyncPaths || a.finish.synced || l.job.podId.None? || l.job.podId.value.text == "")
  {
    hide Tick, Finish;
    if Overspent(l.job, cfg, a.accrueAt) {
      OverspentIsFinish(l, cfg, a);
      FinishDecides(Accrue(l, a.accrueAt), cfg, Failed, true, a.finish);
    } else if FindsEnd(l.job, cfg, a, Completed) {
      var c := EndIsFinish(l, cfg, a, Completed);
      FinishDecides(c, cfg, Completed, false, a.finish);
    } else if FindsEnd(l.job, cfg, a, Failed) {
      var c := EndIsFinish(l, cfg, a, Failed);
      FinishDecides(c, cfg, Failed, false, a.finish);
    } else {
      OtherwiseUnderWay(l, cfg, a);
    }
  }

  /** It ends with a failed sync exactly when it found an end, unforced, whose results are
      wanted, on a pod they could not be fetched from. */
  lemma SyncFailsExactlyWhen(l: Local, cfg: JobConfig, a: TickAnswers)
    requires l.job.status == Running
    ensures Tick(l, cfg, a).at.job.status == SyncFailed <==>
              && (FindsEnd(l.job, cfg, a, Completed) || (FindsEnd(l.job, cfg, a, Failed) && cfg.keepPodOnFailure))
              && HasPod(l.job) && cfg.hasSyncPaths && !a.finish.synced
  {
    hide Tick, Finish;
    if Overspent(l.job, cfg, a.accrueAt) {
      OverspentIsFinish(l, cfg, a);
      FinishDecides(Accrue(l, a.accrueAt), cfg, Failed, true, a.finish);
    } else if FindsEnd(l.job, cfg, a, Completed) {
      var c := EndIsFinish(l, cfg, a, Completed);
      FinishDecides(c, cfg, Completed, false, a.finish);
    } else if FindsEnd(l.job, cfg, a, Failed) {
      var c := EndIsFinish(l, cfg, a, Failed);
      FinishDecides(c, cfg, Failed, false, a.finish);
    } else {
      OtherwiseUnderWay(l, cfg, a);
    }
  }

  /** An exit with any other code fails the job, or leaves it with its sync failed; either way
      the failure is spread, and the code is on record. */
  lemma OtherCodeFails(l: Local, cfg: JobConfig, a: TickAnswers)
    requires l.job.status == Running && !Overspent(l.job, cfg, a.accrueAt) && l.job.ssh.Some?
    requires a.process.ExitedWith? && a.process.code != 0
    ensures var o := Tick(l, cfg, a);
      o.at.job.status in {Failed, SyncFailed} && o.spread && o.at.job.exitCode == Some(a.process.code)
  {
    hide Tick;
    var c := EndIsFinish(l, cfg, a, Failed);
    FinishDecides(c, cfg, Failed, false, a.finish);
  }

  /** A job over its budget fails at once, its pod's termination requested whatever the sync
      answers. */
  lemma OverspentFails(l: Local, cfg: JobConfig, a: TickAnswers)
    requires l.job.status == Running && Overspent(l.job, cfg, a.accrueAt)
    ensures var o := Tick(l, cfg, a);
      && o.at.job.status == Failed && o.spread
      && (HasPod(l.job) ==> Teardown(l.job.name, l.job.podId.value, a.finish.tornDown) in o.at.calls[|l.calls|..])
  {
    hide Tick, Finish;
    OverspentIsFinish(l, cfg, a);
    FinishDecides(Accrue(l, a.accrueAt), cfg, Failed, true, a.finish);
    FinishFacts(Accrue(l, a.accrueAt), cfg, Failed, true, a.finish);
    var calls := Tick(l, cfg, a).at.calls;
    if HasPod(l.job) {
      assert calls[|l.calls|..][1] == Teardown(l.job.name, l.job.podId.value, a.finish.tornDown);
    }
  }

  // ---- how a tick goes on ----

  /** The process runs: suspicion is dropped, an idle GPU starts the stall timer and a busy one
      stops it, and a sync that is due is noted. */
  lemma RunningGoesOn(l: Local, cfg: JobConfig, a: TickAnswers)
    requires l.job.status == Running && !Overspent(l.job, cfg, a.accrueAt) && !FindsEnd(l.job, cfg, a, Failed)
    requires l.job.ssh.Some? && a.process == StillRunning && PidKnown(l.job)
    ensures var b := Accrue(l, a.accrueAt);
      var stalled := if cfg.stallTimeoutMinutes <= 0.0 then l.job.stalledSince
                     else if a.gpuUtil.None? || a.gpuUtil.value >= cfg.stallThreshold then None
                     else if l.job.stalledSince.None? then Some(a.now) else l.job.stalledSince;
      var due := cfg.hasSyncPaths && IsSet(l.job.lastSyncAt) &&
        Elapsed(l.job.lastSyncAt, a.now, cfg.syncIntervalMinutes);
      var synced := if due then Some(a.now) else l.job.lastSyncAt;
      Tick(l, cfg, a) ==
        Outcome(b.(job := b.job.(idleSince := None, gone := 0, stalledSince := stalled, lastSyncAt := synced)), false)
  {
  }

  /** The process is gone and its pod is there: the idle timer starts. */
  lemma IdleGoesOn(l: Local, cfg: JobConfig, a: TickAnswers)
    requires l.job.status == Running && !Overspent(l.job, cfg, a.accrueAt) && !FindsEnd(l.job, cfg, a, Completed)
    requires l.job.ssh.Some? && a.process == Vanished && HasPod(l.job) && a.existence == Yes
    ensures var b := Accrue(l, a.accrueAt);
      var idle := if l.job.idleSince.None? then Some(a.now) else l.job.idleSince;
      Tick(l, cfg, a) == Outcome(b.(job := b.job.(gone := 0, idleSince := idle)), false)
  {
    hide Finish;
  }

  /** Nobody answers for the process. */
  predicate Silent(j: Job, process: ProcessAnswer) {
    j.ssh.None? || process.NoAnswer? || (process.StillRunning? && !PidKnown(j))
  }

  /** Nobody answers for the process and its pod is there: without a pid the job is launched;
      otherwise it takes the provider's address. */
  lemma SilentGoesOn(l: Local, cfg: JobConfig, a: TickAnswers)
    requires l.job.status == Running && !Overspent(l.job, cfg, a.accrueAt)
    requires Silent(l.job, a.process) && HasPod(l.job) && a.existence == Yes
    ensures var b := Accrue(l, a.accrueAt);
      var address := if a.address.Some? then a.address else l.job.ssh;
      Tick(l, cfg, a) ==
        if !PidKnown(l.job) && l.job.ssh.Some?
        then Launch(b.(job := b.job.(gone := 0)), a.launched, a.launchTornDown, a.now)
        else Outcome(b.(job := b.job.(gone := 0, ssh := address)), false)
  {
    hide Launch;
  }

  /** The provider does not vouch for the pod: if it cannot tell, nothing happens; if it says
      "gone", that is counted, and with enough in a row the job is recovered. A vanished process
      without a pod counts as gone. */
  lemma GoneGoesOn(l: Local, cfg: JobConfig, a: TickAnswers)
    requires l.job.status == Running && !Overspent(l.job, cfg, a.accrueAt)
    requires Silent(l.job, a.process) || a.process == Vanished
    requires HasPod(l.job) ==> a.existence != Yes
    ensures var b := Accrue(l, a.accrueAt);
      var c := b.(job := b.job.(gone := l.job.gone + 1));
      var gone := if HasPod(l.job) then a.existence == No else !Silent(l.job, a.process);
      Tick(l, cfg, a) ==
        if !gone then Outcome(b, false)
        else if c.job.gone < 1 || c.job.gone < cfg.recoveryConfirmations then Outcome(c, false)
        else Recover(c, cfg, a.recover)
  {
    hide Recover;
  }

  /** An exception leaves the record as the tick had it by then: what is missing is only what
      a tick that goes on writes later. */
  lemma PartOfTick(l: Local, cfg: JobConfig, a: TickAnswers)
    requires l.job.status == Running && !Overspent(l.job, cfg, a.accrueAt) && l.job.ssh.Some?
    ensures var b, j := Accrue(l, a.accrueAt), Tick(l, cfg, a).at.job;
      && (a.process.ExitedWith? ==> Partly(b, cfg, AfterExit(a.process.code)).job.exitCode == j.exitCode)
      && (a.process == StillRunning && PidKnown(l.job) && !FindsEnd(l.job, cfg, a, Failed) ==>
            && j == Partly(b, cfg, AfterReading(a)).job.(lastSyncAt := j.lastSyncAt)
            && j == Partly(b, cfg, AfterRunning).job.(stalledSince := j.stalledSince, lastSyncAt := j.lastSyncAt))
      && (a.process == Vanished && HasPod(l.job) && a.existence == Yes && !FindsEnd(l.job, cfg, a, Completed) ==>
            j == Partly(b, cfg, AfterAlive).job.(idleSince := j.idleSince))
  {
    hide Tick, Finish;
    match a.process
    case ExitedWith(code) =>
      var status := if code == 0 then Completed else Failed;
      var c := EndIsFinish(l, cfg, a, status);
      FinishKeepsCode(c, cfg, status, a.finish);
    case StillRunning =>
      if PidKnown(l.job) && !FindsEnd(l.job, cfg, a, Failed) {
        RunningGoesOn(l, cfg, a);
      }
    case Vanished =>
      if HasPod(l.job) && a.existence == Yes && !FindsEnd(l.job, cfg, a, Completed) {
        IdleGoesOn(l, cfg, a);
      }
    case NoAnswer =>
  }

  lemma FinishKeepsCode(l: Local, cfg: JobConfig, status: Status, a: FinishAnswers)
    ensures Finish(l, cfg, status, false, a).at.job.exitCode == l.job.exitCode
  {
    hide RecordStop;
  }

  // ---- recovery ----

  /** The wait doubles with every attempt, from the base at the first. */
  lemma BackoffDoubles(cfg: JobConfig, attempts: int)
    ensures BackoffSeconds(cfg, 1) == cfg.backoffBase
    ensures BackoffSeconds(cfg, attempts + 1) == 2.0 * BackoffSeconds(cfg, attempts)
  {
    assert Pow2(attempts) == 2.0 * Pow2(attempts - 1);
  }

  /** A recovery fails the job when its attempts are used up, without a call. Otherwise it
      terminates the dead pod, if there is one, tells the registry, logs the stop and waits; and
      unless it is interrupted provisions the job from nothing. */
  lemma RecoverDecides(l: Local, cfg: JobConfig, a: RecoverAnswers)
    ensures var o := Recover(l, cfg, a);
      if l.job.attempts >= cfg.maxAttempts then
        && o.at == l.(job := o.at.job) && o.spread
        && o.at.job == l.job.(status := Failed, finishedAt := o.at.job.finishedAt)
        && o.at.job.finishedAt == if IsSet(l.job.startedAt) && l.job.finishedAt.None? then Some(a.pipeline.now)
             else l.job.finishedAt
      else
        var calls := l.calls +
          (if l.job.podId.None? || l.job.podId.value.text == "" then []
           else [Teardown(l.job.name, l.job.podId.value, a.tornDown), MarkRegistry(l.job.podId.value, true)]) +
          [Backoff(l.job.name, BackoffSeconds(cfg, l.job.attempts))];
        var log := if HasPod(l.job) then RecordStop(l.log, l.job.podId, SpotInterruption, Some(l.job.cost)) else l.log;
        o == if a.interrupted then Outcome(Local(l.job, l.total, log, calls), false)
             else Pipeline(Local(l.job.(podId := None, ssh := None, pid := None, gone := 0), l.total, log, calls),
                           cfg, a.pipeline, false)
  {
    hide Pipeline, BackoffSeconds;
    if l.job.attempts < cfg.maxAttempts {
      var torn := if l.job.podId.None? || l.job.podId.value.text == "" then []
                  else [Teardown(l.job.name, l.job.podId.value, a.tornDown), MarkRegistry(l.job.podId.value, true)];
      assert BeforeRetry(l, cfg, a.tornDown).calls ==
             l.calls + torn + [Backoff(l.job.name, BackoffSeconds(cfg, l.job.attempts))];
    }
  }
}
