/** Provisioning on the records, and the verified teardown. */
module ProvisionPod {
  import opened Base
  import opened State
  import opened Provisioner

  const TERMINATE_ATTEMPTS: nat := 3
  const TERMINATE_VERIFY_SECONDS := 60.0

  method RecordCreated(job: PodState, pod: PodId, price: real, at: real, fixedRate: real)
    modifies job
    ensures job.View() == Recorded(old(job.View()), pod, price, at, fixedRate)
  {
    job.podId, job.startedAt, job.ssh := Some(pod), Some(at), None;
    job.rate, job.status := Rate(price, fixedRate), Provisioning;
  }

  method ForgetReleasedPod(job: PodState)
    modifies job
    ensures job.View() == Forget(old(job.View()))
  {
    if NonEmpty(job.podId) {
      job.podId, job.ssh := None, None;
    }
  }

  /** The job, the cost log and the calls stand as walk `w` says. */
  ghost predicate At(state: RunState, job: PodState, w: Walk)
    reads state, job
  {
    job.View() == w.job && state.log == w.log && state.calls == w.calls
  }

  method AnnounceCreated(state: RunState, job: PodState, pod: PodId, price: real, at: real, fixedRate: real,
                         ghost w: Walk)
    requires At(state, job, w)
    modifies state`log, state`calls, job
    ensures At(state, job, Announce(w, pod, price, at, fixedRate))
  {
    RecordCreated(job, pod, price, at, fixedRate);
    state.calls := state.calls + [Create(job.name, pod), Register(pod)];
    state.log := state.log + [PodStarted(job.name, pod)];
  }

  /** A pod that never became reachable is terminated; the outcome is recorded and the job
      forgets it. */
  method ReleasePod(state: RunState, job: PodState, pod: PodId, terminated: bool, ghost w: Walk)
    requires At(state, job, w)
    modifies state`log, state`calls, job
    ensures At(state, job, Release(w, pod, terminated).(job := Forget(w.job)))
  {
    state.calls := state.calls + [Teardown(job.name, pod, terminated)] +
      if terminated then [MarkRegistry(pod, true)] else [];
    state.log := state.log + if terminated then [] else [PodOrphaned(job.name, pod)];
    assert state.calls == Release(w, pod, terminated).calls;
    ForgetReleasedPod(job);
  }

  /** The instance exists: record it, then wait for it to become reachable. */
  method TrackCandidate(state: RunState, job: PodState, pod: PodId, price: real, at: real, next: SshAnswer,
                        fixedRate: real,
                        ghost w: Walk) returns (verdict: Verdict)
    requires At(state, job, w) && !next.CallbackRaised?
    modifies state`log, state`calls, job
    ensures At(state, job, Attempt(w, Created(pod, price, at, next), fixedRate).0)
    ensures verdict == Attempt(w, Created(pod, price, at, next), fixedRate).1
  {
    AnnounceCreated(state, job, pod, price, at, fixedRate, w);
    ghost var up := Announce(w, pod, price, at, fixedRate);
    match next
    case Reachable(endpoint) =>
      job.ssh := Some(endpoint);
      verdict := Stop(Tracked);
    case SshInterrupted =>
      verdict := Stop(StoppedEarly);
    case SshRaised =>
      verdict := Stop(Raised);
    case NoSshInfo(ok) =>
      ReleasePod(state, job, pod, ok, up);
      verdict := NextCandidate;
    case NeverReady(ok) =>
      ReleasePod(state, job, pod, ok, up);
      verdict := NextCandidate;
    case KeyRejected(ok) =>
      ReleasePod(state, job, pod, ok, up);
      job.status := Failed;
      verdict := Stop(KeyFailed);
    case ReleaseRaised(ok) =>
      state.calls := state.calls + [Teardown(job.name, pod, ok)];
      verdict := Stop(Raised);
  }

  /** One attempt on one candidate. */
  method TryCandidate(state: RunState, job: PodState, a: Answer, fixedRate: real, ghost w: Walk)
    returns (verdict: Verdict)
    requires At(state, job, w)
    modifies state`log, state`calls, job
    ensures At(state, job, Attempt(w, a, fixedRate).0)
    ensures verdict == Attempt(w, a, fixedRate).1
  {
    match a
    case Refused =>
      ForgetReleasedPod(job);
      verdict := NextCandidate;
    case NoCapacity =>
      verdict := NextNoCapacity;
    case CreateRaised =>
      verdict := Stop(Raised);
    case Created(pod, price, at, next) =>
      if next.CallbackRaised? {
        RecordCreated(job, pod, price, at, fixedRate);
        state.calls := state.calls + [Create(job.name, pod)];
        verdict := Stop(Raised);
      } else {
        verdict := TrackCandidate(state, job, pod, price, at, next, fixedRate, w);
      }
  }

  /** The passes over the candidate list. */
  method WalkCandidates(state: RunState, job: PodState, o: Oracle, n: nat, retries: int, fixedRate: real,
                        ghost w0: Walk)
    returns (end: End, ghost w: Walk)
    requires At(state, job, w0) && n > 0
    modifies state`log, state`calls, job
    ensures (w, end) == Provision(w0, o, Some(n), retries, fixedRate) && At(state, job, w)
  {
    hide Attempt;
    job.status := Provisioning;
    var passes := Passes(retries);
    var pass := 1;
    job.attempts := job.attempts + 1;
    w := NextPass(w0.(job := w0.job.(status := Provisioning)));
    ghost var result := WalkFrom(w, o, n, passes, fixedRate, 1, 0, false);
    while true
      invariant 1 <= pass <= passes && At(state, job, w)
      invariant result == WalkFrom(w, o, n, passes, fixedRate, pass, 0, false)
      decreases passes - pass
    {
      var noCapacity := false;
      var cand := 0;
      while cand < n
        invariant cand <= n && At(state, job, w)
        invariant result == WalkFrom(w, o, n, passes, fixedRate, pass, cand, noCapacity)
      {
        var a := o.answer(pass, cand);
        ghost var noted := Noted(w, pass, cand);
        var verdict := TryCandidate(state, job, a, fixedRate, noted);
        w := Attempt(noted, a, fixedRate).0;
        if verdict.Stop? {
          end := verdict.end;
          return;
        }
        noCapacity := noCapacity || verdict.NextNoCapacity?;
        cand := cand + 1;
      }
      if !noCapacity || pass >= passes {
        break;
      }
      if o.stopAfter(pass) {
        end := StoppedEarly;
        return;
      }
      pass := pass + 1;
      job.attempts := job.attempts + 1;
      w := NextPass(w);
    }
    job.status := Failed;
    w := w.(job := w.job.(status := Failed));
    end := Exhausted;
  }

  method ProvisionPod(state: RunState, job: PodState, o: Oracle, candidates: Option<nat>, retries: int,
                      fixedRate: real, ghost w0: Walk)
    returns (end: End, ghost w: Walk)
    requires At(state, job, w0)
    modifies state`log, state`calls, job
    ensures (w, end) == Provision(w0, o, candidates, retries, fixedRate) && At(state, job, w)
  {
    if candidates.None? || candidates.value == 0 {
      job.status := Failed;
      end, w := Exhausted, w0.(job := w0.job.(status := Failed));
    } else {
      end, w := WalkCandidates(state, job, o, candidates.value, retries, fixedRate, w0);
    }
  }

  /** Terminates a pod and, unless told not to, waits for the provider to report it gone.
      True exactly when one of the first three terminate calls succeeded and, if verifying, a
      "gone" answer came no later than the first poll at or after the deadline. */
  method TeardownPod(terminate: nat -> bool, existence: nat -> Tri, clock: nat -> real, start: real, verify: bool,
                     ghost patience: nat)
    returns (ok: bool, terminateCalls: nat)
    requires clock(patience) >= start + TERMINATE_VERIFY_SECONDS
    ensures ok <==>
      && (exists k :: 0 <= k < 3 && terminate(k))
      && (verify ==> exists i :: 0 <= i && existence(i) == No &&
                       forall j :: 0 <= j < i ==> existence(j) != No && clock(j) < start + 60.0)
    ensures 1 <= terminateCalls <= 3
    ensures forall k :: 0 <= k < terminateCalls - 1 ==> !terminate(k)
    ensures terminateCalls < 3 ==> terminate(terminateCalls - 1)
  {
    var done := false;
    terminateCalls := 0;
    while terminateCalls < TERMINATE_ATTEMPTS && !done
      invariant 0 <= terminateCalls <= TERMINATE_ATTEMPTS
      invariant done ==> terminateCalls > 0 && terminate(terminateCalls - 1)
      invariant forall k :: 0 <= k < (if done then terminateCalls - 1 else terminateCalls) ==> !terminate(k)
    {
      done := terminate(terminateCalls);
      terminateCalls := terminateCalls + 1;
    }
    if !done {
      return false, terminateCalls;
    }
    if !verify {
      return true, terminateCalls;
    }
    var deadline := start + TERMINATE_VERIFY_SECONDS;
    var i: nat := 0;
    while true
      invariant i <= patience
      invariant forall j :: 0 <= j < i ==> existence(j) != No && clock(j) < deadline
      decreases patience - i
    {
      if existence(i) == No {
        return true, terminateCalls;
      }
      if clock(i) >= deadline {
        return false, terminateCalls;
      }
      i := i + 1;
    }
  }
}
