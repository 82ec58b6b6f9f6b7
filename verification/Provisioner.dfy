/** Provisioning: the walk over the candidate list, pass after pass, with the release of pods
    that never became reachable, and the verified teardown. */
module Provisioner {
  import opened Base
  import opened State

  /** What happens after the provider has returned an instance id. */
  datatype SshAnswer =
    | CallbackRaised                // persisting the new id failed
    | NoSshInfo(terminated: bool)   // no address in time; the release was verified or not
    | NeverReady(terminated: bool)  // no answer at the address in time
    | KeyRejected(terminated: bool)
    | ReleaseRaised(terminated: bool)  // unreachable or rejected, and recording the release raised
    | SshInterrupted                // shutdown requested while waiting
    | SshRaised                     // any other exception while waiting
    | Reachable(endpoint: Endpoint)

  /** How the world answers one attempt on one candidate. */
  datatype Answer =
    | Refused       // the provider created nothing
    | NoCapacity
    | CreateRaised  // any other exception
    | Created(pod: PodId, price: real, at: real, next: SshAnswer)

  /** Answers for every (pass, candidate), and whether shutdown cuts short the wait after a
      pass. */
  datatype Oracle = Oracle(answer: (nat, nat) -> Answer, stopAfter: nat -> bool)

  datatype End = Tracked | KeyFailed | Exhausted | StoppedEarly | Raised

  datatype Verdict = NextCandidate | NextNoCapacity | Stop(end: End)

  /** The job, the logs it writes and, for the record, the attempts made so far. */
  datatype Walk = Walk(job: Job, log: seq<CostEvent>, calls: seq<Call>, tries: seq<(nat, nat)>)

  function Rate(price: real, fixedRate: real): real {
    if fixedRate > 0.0 then fixedRate else price
  }

  /** The instance id is recorded before anything else happens to it. */
  function Recorded(j: Job, pod: PodId, price: real, at: real, fixedRate: real): Job {
    j.(podId := Some(pod), startedAt := Some(at), ssh := None, rate := Rate(price, fixedRate), status := Provisioning)
  }

  function Forget(j: Job): Job {
    if HasPod(j) then j.(podId := None, ssh := None) else j
  }

  function Release(w: Walk, pod: PodId, terminated: bool): Walk {
    w.(calls := w.calls + [Teardown(w.job.name, pod, terminated)] +
                if terminated then [MarkRegistry(pod, true)] else [],
       log := w.log + if terminated then [] else [PodOrphaned(w.job.name, pod)])
  }

  function Announce(w: Walk, pod: PodId, price: real, at: real, fixedRate: real): Walk {
    w.(job := Recorded(w.job, pod, price, at, fixedRate),
       log := w.log + [PodStarted(w.job.name, pod)],
       calls := w.calls + [Create(w.job.name, pod), Register(pod)])
  }

  /** One attempt on one candidate. */
  function Attempt(w: Walk, a: Answer, fixedRate: real): (Walk, Verdict) {
    match a
    case Refused => (w.(job := Forget(w.job)), NextCandidate)
    case NoCapacity => (w, NextNoCapacity)
    case CreateRaised => (w, Stop(Raised))
    case Created(pod, price, at, next) =>
      if next.CallbackRaised? then
        (w.(job := Recorded(w.job, pod, price, at, fixedRate), calls := w.calls + [Create(w.job.name, pod)]),
         Stop(Raised))
      else
        var up := Announce(w, pod, price, at, fixedRate);
        match next
        case NoSshInfo(ok) => (Release(up, pod, ok).(job := Forget(up.job)), NextCandidate)
        case NeverReady(ok) => (Release(up, pod, ok).(job := Forget(up.job)), NextCandidate)
        case KeyRejected(ok) => (Release(up, pod, ok).(job := Forget(up.job).(status := Failed)), Stop(KeyFailed))
        case ReleaseRaised(ok) => (up.(calls := up.calls + [Teardown(w.job.name, pod, ok)]), Stop(Raised))
        case SshInterrupted => (up, Stop(StoppedEarly))
        case SshRaised => (up, Stop(Raised))
        case Reachable(endpoint) => (up.(job := up.job.(ssh := Some(endpoint))), Stop(Tracked))
  }

  function Noted(w: Walk, pass: nat, cand: nat): Walk {
    w.(tries := w.tries + [(pass, cand)])
  }

  /** The walk from candidate `cand` of pass `pass` on; `n` candidates, `passes` passes. */
  ghost function WalkFrom(w: Walk, o: Oracle, n: nat, passes: nat, fixedRate: real,
                          pass: nat, cand: nat, noCapacity: bool): (r: (Walk, End))
    requires pass <= passes && cand <= n
    decreases passes - pass, n - cand
  {
    if cand < n then
      var (w', v) := Attempt(Noted(w, pass, cand), o.answer(pass, cand), fixedRate);
      match v
      case Stop(e) => (w', e)
      case NextCandidate => WalkFrom(w', o, n, passes, fixedRate, pass, cand + 1, noCapacity)
      case NextNoCapacity => WalkFrom(w', o, n, passes, fixedRate, pass, cand + 1, true)
    else if !noCapacity || pass >= passes then
      (w.(job := w.job.(status := Failed)), Exhausted)
    else if o.stopAfter(pass) then
      (w, StoppedEarly)
    else
      WalkFrom(NextPass(w), o, n, passes, fixedRate, pass + 1, 0, false)
  }

  function NextPass(w: Walk): Walk {
    w.(job := w.job.(attempts := w.job.attempts + 1))
  }

  function Passes(retries: int): nat {
    if retries < 1 then 1 else retries
  }

  /** Provisioning proper, once reuse is out of the question. `candidates` is absent when the
      catalog could not be read. */
  ghost function Provision(w: Walk, o: Oracle, candidates: Option<nat>, retries: int, fixedRate: real): (Walk, End) {
    if candidates.None? || candidates.value == 0 then
      (w.(job := w.job.(status := Failed)), Exhausted)
    else
      WalkFrom(NextPass(w.(job := w.job.(status := Provisioning))), o, candidates.value, Passes(retries), fixedRate,
               1, 0, false)
  }

  // ---- the order of the attempts ----

  /** An answer after which the walk goes no further. */
  predicate Decisive(a: Answer) {
    a.CreateRaised? || (a.Created? && !a.next.NoSshInfo? && !a.next.NeverReady?)
  }

  function Successor(at: (nat, nat), n: nat): (nat, nat) {
    if at.1 + 1 < n then (at.0, at.1 + 1) else (at.0 + 1, 0)
  }

  /** Lexicographic order from the first candidate of the first pass, without gaps. */
  ghost predicate InOrder(tries: seq<(nat, nat)>, n: nat) {
    && (tries != [] ==> tries[0] == (1, 0))
    && forall k :: 0 < k < |tries| ==> tries[k] == Successor(tries[k - 1], n)
  }

  ghost predicate SawNoCapacity(tries: seq<(nat, nat)>, o: Oracle, pass: nat) {
    exists k :: 0 <= k < |tries| && tries[k].0 == pass && o.answer(tries[k].0, tries[k].1).NoCapacity?
  }

  /** Every pass before `pass` met a lack of capacity and was not cut short. */
  ghost predicate PassesJustified(tries: seq<(nat, nat)>, o: Oracle, pass: nat) {
    forall p :: 1 <= p < pass ==> SawNoCapacity(tries, o, p) && !o.stopAfter(p)
  }

  /** About to try (pass, cand), or at the end of a pass when cand == n. */
  ghost predicate Underway(tries: seq<(nat, nat)>, o: Oracle, n: nat, pass: nat, cand: nat, noCapacity: bool) {
    && 0 < n && cand <= n && 1 <= pass
    && InOrder(tries, n)
    && (forall k :: 0 <= k < |tries| ==> !Decisive(o.answer(tries[k].0, tries[k].1)))
    && (if cand > 0 then tries != [] && tries[|tries| - 1] == (pass, cand - 1)
        else if pass > 1 then tries != [] && tries[|tries| - 1] == (pass - 1, n - 1)
        else tries == [])
    && (noCapacity <==> SawNoCapacity(tries, o, pass))
    && PassesJustified(tries, o, pass)
  }

  /** How a walk ends: the attempts made are a prefix of the lexicographic order; only the
      last can be decisive and it decides the outcome; undecided, all the passes allowed were
      made or the last one met no lack of capacity; a pass was added only after a lack of
      capacity; and each pass begun counts as one provision attempt. */
  ghost predicate Concluded(tries: seq<(nat, nat)>, o: Oracle, n: nat, passes: nat, end: End) {
    && tries != [] && InOrder(tries, n)
    && var last := tries[|tries| - 1];
    && var a := o.answer(last.0, last.1);
    && last.0 <= passes
    && (forall k :: 0 <= k < |tries| - 1 ==> !Decisive(o.answer(tries[k].0, tries[k].1)))
    && PassesJustified(tries, o, last.0)
    && (end.Tracked? <==> a.Created? && a.next.Reachable?)
    && (end.KeyFailed? <==> a.Created? && a.next.KeyRejected?)
    && (end.Raised? <==> a.CreateRaised? || (a.Created? && (a.next.CallbackRaised? || a.next.SshRaised? ||
                                                            a.next.ReleaseRaised?)))
    && (end.Exhausted? ==> !Decisive(a) && last.1 == n - 1 && (last.0 == passes || !SawNoCapacity(tries, o, last.0)))
    && (end.StoppedEarly? ==> (a.Created? && a.next.SshInterrupted?) ||
                              (!Decisive(a) && last.1 == n - 1 && last.0 < passes && SawNoCapacity(tries, o, last.0)
                               && o.stopAfter(last.0)))
  }

  lemma AttemptKeeps(w: Walk, a: Answer, fixedRate: real)
    ensures var (w', v) := Attempt(w, a, fixedRate);
      && w'.tries == w.tries && w'.job.attempts == w.job.attempts
      && w'.job.name == w.job.name && w'.job.dependsOn == w.job.dependsOn
      && w'.job.cost == w.job.cost && w'.job.gone == w.job.gone && w'.job.finishedAt == w.job.finishedAt
      && w'.job.idleSince == w.job.idleSince && w'.job.stalledSince == w.job.stalledSince
      && (v.Stop? <==> Decisive(a))
      && (v.NextNoCapacity? <==> a.NoCapacity?)
  {
  }

  lemma AfterTry(tries: seq<(nat, nat)>, o: Oracle, n: nat, pass: nat, cand: nat, noCapacity: bool)
    requires Underway(tries, o, n, pass, cand, noCapacity) && cand < n
    ensures InOrder(tries + [(pass, cand)], n)
    ensures PassesJustified(tries + [(pass, cand)], o, pass)
    ensures !Decisive(o.answer(pass, cand)) ==>
              Underway(tries + [(pass, cand)], o, n, pass, cand + 1, noCapacity || o.answer(pass, cand).NoCapacity?)
  {
    var more := tries + [(pass, cand)];
    forall k | 0 < k < |more| ensures more[k] == Successor(more[k - 1], n) {
      if k < |tries| {
        assert tries[k] == Successor(tries[k - 1], n);
      }
    }
    forall p | SawNoCapacity(tries, o, p) ensures SawNoCapacity(more, o, p) {
      var k :| 0 <= k < |tries| && tries[k].0 == p && o.answer(tries[k].0, tries[k].1).NoCapacity?;
      assert more[k].0 == p;
    }
    if o.answer(pass, cand).NoCapacity? {
      assert more[|tries|].0 == pass;
    } else if SawNoCapacity(more, o, pass) {
      var k :| 0 <= k < |more| && more[k].0 == pass && o.answer(more[k].0, more[k].1).NoCapacity?;
      assert tries[k].0 == pass;
    }
  }

  lemma {:induction false} TriesUpTo(tries: seq<(nat, nat)>, n: nat, k: nat)
    requires InOrder(tries, n) && k < |tries|
    ensures tries[k].0 <= tries[|tries| - 1].0
    decreases |tries| - k
  {
    if k + 1 < |tries| {
      assert tries[k + 1] == Successor(tries[k], n);
      TriesUpTo(tries, n, k + 1);
    }
  }

  /** No attempt belongs to a pass that has not begun. */
  lemma NewPass(tries: seq<(nat, nat)>, o: Oracle, n: nat, pass: nat)
    requires Underway(tries, o, n, pass, n, true) && !o.stopAfter(pass)
    ensures Underway(tries, o, n, pass + 1, 0, false)
  {
    if SawNoCapacity(tries, o, pass + 1) {
      var k :| 0 <= k < |tries| && tries[k].0 == pass + 1 && o.answer(tries[k].0, tries[k].1).NoCapacity?;
      TriesUpTo(tries, n, k);
    }
  }

  /** A decisive answer concludes the walk as it says. */
  lemma DecisiveConcludes(w: Walk, o: Oracle, n: nat, passes: nat, fixedRate: real, pass: nat, cand: nat,
                          noCapacity: bool)
    requires pass <= passes && Underway(w.tries, o, n, pass, cand, noCapacity) && cand < n
    requires Decisive(o.answer(pass, cand))
    ensures var (w', v) := Attempt(Noted(w, pass, cand), o.answer(pass, cand), fixedRate);
      v.Stop? && Concluded(w'.tries, o, n, passes, v.end) && w'.tries[|w'.tries| - 1].0 == pass
  {
    AfterTry(w.tries, o, n, pass, cand, noCapacity);
  }

  /** The end of a pass that is not followed by another. */
  lemma PassEndConcludes(tries: seq<(nat, nat)>, o: Oracle, n: nat, passes: nat, pass: nat, noCapacity: bool)
    requires pass <= passes && Underway(tries, o, n, pass, n, noCapacity)
    ensures !noCapacity || pass >= passes ==> Concluded(tries, o, n, passes, Exhausted)
    ensures noCapacity && pass < passes && o.stopAfter(pass) ==> Concluded(tries, o, n, passes, StoppedEarly)
    ensures tries != [] && tries[|tries| - 1].0 == pass
  {
  }

  lemma {:induction false} WalkConcludes(w: Walk, o: Oracle, n: nat, passes: nat, fixedRate: real,
                                         pass: nat, cand: nat, noCapacity: bool)
    requires pass <= passes && Underway(w.tries, o, n, pass, cand, noCapacity)
    ensures var (w', e) := WalkFrom(w, o, n, passes, fixedRate, pass, cand, noCapacity);
      && Concluded(w'.tries, o, n, passes, e)
      && w'.job.attempts == w.job.attempts - pass + w'.tries[|w'.tries| - 1].0
    decreases passes - pass, n - cand
  {
    hide Attempt, InOrder, PassesJustified, SawNoCapacity, Decisive;
    if cand < n {
      var noted := Noted(w, pass, cand);
      var a := o.answer(pass, cand);
      var (w', v) := Attempt(noted, a, fixedRate);
      AttemptKeeps(noted, a, fixedRate);
      AfterTry(w.tries, o, n, pass, cand, noCapacity);
      if Decisive(a) {
        DecisiveConcludes(w, o, n, passes, fixedRate, pass, cand, noCapacity);
      } else {
        WalkConcludes(w', o, n, passes, fixedRate, pass, cand + 1, noCapacity || a.NoCapacity?);
      }
    } else {
      PassEndConcludes(w.tries, o, n, passes, pass, noCapacity);
      if noCapacity && pass < passes && !o.stopAfter(pass) {
        NewPass(w.tries, o, n, pass);
        WalkConcludes(NextPass(w), o, n, passes, fixedRate, pass + 1, 0, false);
      }
    }
  }

  /** The walk as a whole, for every oracle. */
  lemma ProvisioningWalk(w: Walk, o: Oracle, n: nat, retries: int, fixedRate: real)
    requires w.tries == [] && n > 0
    ensures var (w', e) := Provision(w, o, Some(n), retries, fixedRate);
      && Concluded(w'.tries, o, n, if retries < 1 then 1 else retries, e)
      && w'.job.attempts == w.job.attempts + w'.tries[|w'.tries| - 1].0
  {
    WalkConcludes(NextPass(w.(job := w.job.(status := Provisioning))), o, n, Passes(retries), fixedRate, 1, 0, false);
  }

  // ---- every created instance is accounted for ----

  /** Instances created and not yet released, by id. */
  function Owed(calls: seq<Call>, pod: PodId): int {
    if calls == [] then 0
    else
      var last := calls[|calls| - 1];
      Owed(calls[..|calls| - 1], pod) +
      if last.Create? && last.pod == pod then 1
      else if last.Teardown? && last.pod == pod then -1
      else 0
  }

  /** Beyond what `base` owes, exactly the tracked pod is owed; and whenever an instance was
      created, nothing was owed. */
  ghost predicate Accounted(base: seq<Call>, calls: seq<Call>, tracked: Option<PodId>) {
    && base <= calls
    && (forall p :: Owed(calls, p) == Owed(base, p) + if tracked == Some(p) then 1 else 0)
    && forall k, p :: |base| <= k < |calls| && calls[k].Create? ==> Owed(calls[..k], p) == Owed(base, p)
  }

  /** The provider's ids are never empty. */
  ghost predicate IdsNonEmpty(o: Oracle) {
    forall p, c :: o.answer(p, c).Created? ==> o.answer(p, c).pod.text != ""
  }

  lemma OwedAppend(calls: seq<Call>, c: Call, pod: PodId)
    ensures Owed(calls + [c], pod) == Owed(calls, pod) +
              if c.Create? && c.pod == pod then 1 else if c.Teardown? && c.pod == pod then -1 else 0
  {
  }

  lemma AccountedNeutral(base: seq<Call>, calls: seq<Call>, tracked: Option<PodId>, c: Call)
    requires Accounted(base, calls, tracked) && !c.Create? && !c.Teardown?
    ensures Accounted(base, calls + [c], tracked)
  {
    forall p ensures Owed(calls + [c], p) == Owed(calls, p) { OwedAppend(calls, c, p); }
    forall k, p | |base| <= k < |calls + [c]| && (calls + [c])[k].Create?
      ensures Owed((calls + [c])[..k], p) == Owed(base, p)
    {
      assert (calls + [c])[..k] == calls[..k];
    }
  }

  lemma AccountedCreate(base: seq<Call>, calls: seq<Call>, job: Name, pod: PodId)
    requires Accounted(base, calls, None)
    ensures Accounted(base, calls + [Create(job, pod)], Some(pod))
  {
    var c := Create(job, pod);
    forall p ensures Owed(calls + [c], p) == Owed(base, p) + if Some(pod) == Some(p) then 1 else 0 {
      OwedAppend(calls, c, p);
    }
    forall k, p | |base| <= k < |calls + [c]| && (calls + [c])[k].Create?
      ensures Owed((calls + [c])[..k], p) == Owed(base, p)
    {
      if k == |calls| {
        assert (calls + [c])[..k] == calls;
      } else {
        assert (calls + [c])[..k] == calls[..k];
      }
    }
  }

  lemma AccountedRelease(base: seq<Call>, calls: seq<Call>, job: Name, pod: PodId, ok: bool)
    requires Accounted(base, calls, Some(pod))
    ensures Accounted(base, calls + [Teardown(job, pod, ok)], None)
  {
    var c := Teardown(job, pod, ok);
    forall p ensures Owed(calls + [c], p) == Owed(base, p) { OwedAppend(calls, c, p); }
    forall k, p | |base| <= k < |calls + [c]| && (calls + [c])[k].Create?
      ensures Owed((calls + [c])[..k], p) == Owed(base, p)
    {
      assert (calls + [c])[..k] == calls[..k];
    }
  }

  lemma AnnounceAccounted(base: seq<Call>, w: Walk, pod: PodId, price: real, at: real, fixedRate: real)
    requires Accounted(base, w.calls, None)
    ensures Accounted(base, Announce(w, pod, price, at, fixedRate).calls, Some(pod))
  {
    AccountedCreate(base, w.calls, w.job.name, pod);
    var created := w.calls + [Create(w.job.name, pod)];
    AccountedNeutral(base, created, Some(pod), Register(pod));
    assert w.calls + [Create(w.job.name, pod), Register(pod)] == created + [Register(pod)];
  }

  lemma ReleaseAccounted(base: seq<Call>, w: Walk, pod: PodId, ok: bool)
    requires Accounted(base, w.calls, Some(pod))
    ensures Accounted(base, Release(w, pod, ok).calls, None)
  {
    AccountedRelease(base, w.calls, w.job.name, pod, ok);
    var released := w.calls + [Teardown(w.job.name, pod, ok)];
    AccountedNeutral(base, released, None, MarkRegistry(pod, true));
    assert Release(w, pod, ok).calls == if ok then released + [MarkRegistry(pod, true)] else released;
  }

  /** The instance an attempt leaves in the job's hands. */
  function Held(a: Answer): Option<PodId> {
    if a.Created? && (a.next.CallbackRaised? || a.next.SshInterrupted? || a.next.SshRaised? || a.next.Reachable?)
    then Some(a.pod) else None
  }

  lemma AttemptAccounted(base: seq<Call>, w: Walk, a: Answer, fixedRate: real)
    requires Accounted(base, w.calls, None)
    ensures var (w', v) := Attempt(w, a, fixedRate);
      && Accounted(base, w'.calls, Held(a))
      && (Held(a).Some? ==> v.Stop? && !v.end.KeyFailed? && !v.end.Exhausted? && w'.job.podId == Held(a))
      && (w.job.podId == None && (a.Created? ==> a.pod.text != "") ==>
            w'.job.podId == Held(a) || (a.Created? && a.next.ReleaseRaised? && v == Stop(Raised)))
  {
    hide Accounted, Owed;
    if a.Created? {
      if a.next.CallbackRaised? {
        AccountedCreate(base, w.calls, w.job.name, a.pod);
      } else {
        AnnounceAccounted(base, w, a.pod, a.price, a.at, fixedRate);
        var up := Announce(w, a.pod, a.price, a.at, fixedRate);
        if a.next.NoSshInfo? || a.next.NeverReady? || a.next.KeyRejected? {
          ReleaseAccounted(base, up, a.pod, a.next.terminated);
        } else if a.next.ReleaseRaised? {
          AccountedRelease(base, up.calls, w.job.name, a.pod, a.next.terminated);
        }
      }
    }
  }

  /** Of the instances created since `base`, exactly the one in hand, which the job tracks, is
      not released; a walk that gave up has none in hand; and a job that had no pod tracks no
      other, unless an exception left it with one that was released. */
  ghost predicate AllAccounted(base: seq<Call>, hadNone: bool, w: Walk, e: End, inHand: Option<PodId>) {
    && Accounted(base, w.calls, inHand)
    && (inHand.Some? ==> w.job.podId == inHand)
    && (e.Exhausted? || e.KeyFailed? ==> inHand == None)
    && (hadNone ==> w.job.podId == inHand || (inHand == None && e.Raised?))
  }

  lemma {:induction false} WalkAccounted(base: seq<Call>, w: Walk, o: Oracle, n: nat, passes: nat, fixedRate: real,
                                         pass: nat, cand: nat, noCapacity: bool) returns (inHand: Option<PodId>)
    requires pass <= passes && cand <= n && Accounted(base, w.calls, None)
    ensures var (w', e) := WalkFrom(w, o, n, passes, fixedRate, pass, cand, noCapacity);
      AllAccounted(base, IdsNonEmpty(o) && w.job.podId == None, w', e, inHand)
    decreases passes - pass, n - cand
  {
    hide Attempt, Accounted;
    if cand < n {
      var a := o.answer(pass, cand);
      var (w', v) := Attempt(Noted(w, pass, cand), a, fixedRate);
      AttemptAccounted(base, Noted(w, pass, cand), a, fixedRate);
      AttemptKeeps(Noted(w, pass, cand), a, fixedRate);
      if v.Stop? {
        inHand := Held(a);
      } else {
        inHand := WalkAccounted(base, w', o, n, passes, fixedRate, pass, cand + 1, noCapacity || v.NextNoCapacity?);
      }
    } else if noCapacity && pass < passes && !o.stopAfter(pass) {
      inHand := WalkAccounted(base, NextPass(w), o, n, passes, fixedRate, pass + 1, 0, false);
    } else {
      inHand := None;
    }
  }

  /** Whatever the oracle and whatever pod the job had: at every exit each instance this call
      created is either the one in hand, which the job tracks, or was released once, never
      both, and none was created while an earlier one was owed. */
  lemma InstancesAccountedFor(w: Walk, o: Oracle, candidates: Option<nat>, retries: int, fixedRate: real)
    returns (inHand: Option<PodId>)
    ensures var (w', e) := Provision(w, o, candidates, retries, fixedRate);
      AllAccounted(w.calls, IdsNonEmpty(o) && w.job.podId == None, w', e, inHand)
  {
    if candidates.Some? && candidates.value > 0 {
      inHand := WalkAccounted(w.calls, NextPass(w.(job := w.job.(status := Provisioning))), o, candidates.value,
                              Passes(retries), fixedRate, 1, 0, false);
    } else {
      inHand := None;
    }
  }

  /** The pod the walk was entered with is still tracked, or has been released. */
  ghost predicate KeepsEntryPod(w: Walk, w': Walk) {
    HasPod(w.job) ==>
      w'.job.podId == w.job.podId || Owed(w'.calls, w.job.podId.value) < Owed(w.calls, w.job.podId.value)
  }

  lemma {:induction false} RefusalsCallNothing(w: Walk, o: Oracle, n: nat, fixedRate: real, cand: nat)
    requires cand <= n && forall p, c :: o.answer(p, c) == Refused
    ensures var (w', e) := WalkFrom(w, o, n, 1, fixedRate, 1, cand, false);
      w'.calls == w.calls && (cand < n && HasPod(w.job) ==> w'.job.podId == None)
                          && (w.job.podId == None ==> w'.job.podId == None)
    decreases n - cand
  {
    if cand < n {
      var (w', v) := Attempt(Noted(w, 1, cand), Refused, fixedRate);
      RefusalsCallNothing(w', o, n, fixedRate, cand + 1);
    }
  }

  /** Entered with a pod (one whose existence could not be confirmed for reuse), the walk can
      drop it without releasing it: a provider that refuses every candidate is enough. The
      account holds for every oracle exactly when the walk is entered with no pod, or has no
      candidates. */
  lemma EntryPodKeptExactlyWhenNone(w: Walk, candidates: Option<nat>, fixedRate: real)
    ensures (forall o: Oracle, retries: int ::
               KeepsEntryPod(w, Provision(w, o, candidates, retries, fixedRate).0))
       <==> (!HasPod(w.job) || candidates.None? || candidates.value == 0)
  {
    if HasPod(w.job) && candidates.Some? && candidates.value > 0 {
      var o := Oracle((p, c) => Refused, p => false);
      var w1 := NextPass(w.(job := w.job.(status := Provisioning)));
      RefusalsCallNothing(w1, o, candidates.value, fixedRate, 0);
      assert !KeepsEntryPod(w, Provision(w, o, candidates, 1, fixedRate).0);
    }
  }
}
