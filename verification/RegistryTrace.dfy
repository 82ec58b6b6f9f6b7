/** What the lifecycle's calls make of the registry: a pod is in it from the end of its
    creation callback on. */
module RegistryTrace {
  import opened Base
  import opened State
  import opened Provisioner
  import R = Registry

  /** The registry operation a call amounts to; the other calls do not touch the registry. */
  function Effect(pods: seq<R.Record>, c: Call): seq<R.Record> {
    match c
    case Register(pod) => R.Apply(pods, R.Add(R.Record(pod, "", "", R.Running, 0.0)))
    case MarkRegistry(pod, terminated) =>
      R.Apply(pods, R.Update(pod, R.Change(None, None, Some(if terminated then R.Terminated else R.Running), None)))
    case _ => pods
  }

  function After(pods: seq<R.Record>, calls: seq<Call>): seq<R.Record> {
    if calls == [] then pods else Effect(After(pods, calls[..|calls| - 1]), calls[|calls| - 1])
  }

  lemma {:induction false} PodsStay(pods: seq<R.Record>, calls: seq<Call>, id: PodId)
    requires R.Has(pods, id) || Register(id) in calls
    ensures R.Has(After(pods, calls), id)
    ensures R.UniqueIds(pods) ==> R.UniqueIds(After(pods, calls))
  {
    hide R.Apply, R.Has, R.UniqueIds;
    if calls != [] {
      var before, c := After(pods, calls[..|calls| - 1]), calls[|calls| - 1];
      R.ApplyFacts(before, R.Add(R.Record(id, "", "", R.Running, 0.0)));
      if c.Register? {
        R.ApplyFacts(before, R.Add(R.Record(c.pod, "", "", R.Running, 0.0)));
      } else if c.MarkRegistry? {
        R.ApplyFacts(before, R.Update(c.pod, R.Change(None, None,
                                                      Some(if c.terminated then R.Terminated else R.Running), None)));
      }
      if R.Has(pods, id) || Register(id) in calls[..|calls| - 1] {
        PodsStay(pods, calls[..|calls| - 1], id);
      } else {
        UniqueStays(pods, calls[..|calls| - 1]);
      }
    }
  }

  lemma {:induction false} UniqueStays(pods: seq<R.Record>, calls: seq<Call>)
    ensures R.UniqueIds(pods) ==> R.UniqueIds(After(pods, calls))
  {
    hide R.Apply, R.UniqueIds;
    if calls != [] {
      var before, c := After(pods, calls[..|calls| - 1]), calls[|calls| - 1];
      UniqueStays(pods, calls[..|calls| - 1]);
      if c.Register? {
        R.ApplyFacts(before, R.Add(R.Record(c.pod, "", "", R.Running, 0.0)));
      } else if c.MarkRegistry? {
        R.ApplyFacts(before, R.Update(c.pod, R.Change(None, None,
                                                      Some(if c.terminated then R.Terminated else R.Running), None)));
      }
    }
  }

  /** A creation is followed at once by its registration, unless it is the last call and its
      callback did not come to its end. */
  predicate FollowedUp(calls: seq<Call>, k: nat, unfinished: bool)
    requires k < |calls|
  {
    calls[k].Create? ==> (unfinished && k == |calls| - 1) || (k + 1 < |calls| && calls[k + 1] == Register(calls[k].pod))
  }

  ghost predicate Announced(base: seq<Call>, calls: seq<Call>, unfinished: bool) {
    base <= calls && forall k :: |base| <= k < |calls| ==> FollowedUp(calls, k, unfinished)
  }

  lemma AnnouncedMore(base: seq<Call>, calls: seq<Call>, more: seq<Call>, unfinished: bool)
    requires Announced(base, calls, false) && Announced([], more, unfinished)
    ensures Announced(base, calls + more, unfinished)
  {
    var all := calls + more;
    forall k | |base| <= k < |all| ensures FollowedUp(all, k, unfinished) {
      if k < |calls| {
        assert FollowedUp(calls, k, false);
      } else {
        assert FollowedUp(more, k - |calls|, unfinished);
      }
    }
  }

  /** The calls of one attempt. */
  function CallsOf(job: Name, a: Answer): seq<Call> {
    if !a.Created? then []
    else if a.next.CallbackRaised? then [Create(job, a.pod)]
    else
      [Create(job, a.pod), Register(a.pod)] +
      if a.next.NoSshInfo? || a.next.NeverReady? || a.next.KeyRejected? then
        [Teardown(job, a.pod, a.next.terminated)] + if a.next.terminated then [MarkRegistry(a.pod, true)] else []
      else if a.next.ReleaseRaised? then [Teardown(job, a.pod, a.next.terminated)]
      else []
  }

  lemma AttemptCalls(w: Walk, a: Answer, fixedRate: real)
    ensures var (w', v) := Attempt(w, a, fixedRate);
      && w'.calls == w.calls + CallsOf(w.job.name, a)
      && (a.Created? && a.next.CallbackRaised? ==> v == Stop(Raised))
  {
  }

  lemma AttemptAnnounces(base: seq<Call>, w: Walk, a: Answer, fixedRate: real)
    requires Announced(base, w.calls, false)
    ensures var (w', v) := Attempt(w, a, fixedRate);
      && Announced(base, w'.calls, a.Created? && a.next.CallbackRaised?)
      && (a.Created? && a.next.CallbackRaised? ==> v == Stop(Raised))
  {
    hide Attempt;
    AttemptCalls(w, a, fixedRate);
    AnnouncedMore(base, w.calls, CallsOf(w.job.name, a), a.Created? && a.next.CallbackRaised?);
  }

  lemma {:induction false} WalkAnnounces(base: seq<Call>, w: Walk, o: Oracle, n: nat, passes: nat, fixedRate: real,
                                         pass: nat, cand: nat, noCapacity: bool)
    requires Announced(base, w.calls, false) && pass <= passes && cand <= n
    ensures var (w', e) := WalkFrom(w, o, n, passes, fixedRate, pass, cand, noCapacity);
      Announced(base, w'.calls, e.Raised?)
    decreases passes - pass, n - cand
  {
    hide Attempt, Announced;
    if cand < n {
      var noted, a := Noted(w, pass, cand), o.answer(pass, cand);
      var (w', v) := Attempt(noted, a, fixedRate);
      AttemptAnnounces(base, noted, a, fixedRate);
      if v.Stop? {
        if !(a.Created? && a.next.CallbackRaised?) {
          FinishedOrNot(base, w'.calls, v.end.Raised?);
        }
      } else {
        WalkAnnounces(base, w', o, n, passes, fixedRate, pass, cand + 1, noCapacity || v.NextNoCapacity?);
      }
    } else if noCapacity && pass < passes && !o.stopAfter(pass) {
      WalkAnnounces(base, NextPass(w), o, n, passes, fixedRate, pass + 1, 0, false);
    } else {
      FinishedOrNot(base, w.calls, false);
    }
  }

  lemma FinishedOrNot(base: seq<Call>, calls: seq<Call>, raised: bool)
    requires Announced(base, calls, false)
    ensures Announced(base, calls, raised)
  {
    forall k | |base| <= k < |calls| ensures FollowedUp(calls, k, raised) {
      assert FollowedUp(calls, k, false);
    }
  }

  lemma NothingCreated(base: seq<Call>)
    ensures Announced(base, base, false)
  {
  }

  lemma ProvisionAnnounces(w: Walk, o: Oracle, candidates: Option<nat>, retries: int, fixedRate: real)
    ensures var (w', e) := Provision(w, o, candidates, retries, fixedRate);
      Announced(w.calls, w'.calls, e.Raised?)
  {
    hide Announced;
    NothingCreated(w.calls);
    FinishedOrNot(w.calls, w.calls, false);
    if candidates.Some? && candidates.value > 0 {
      WalkAnnounces(w.calls, NextPass(w.(job := w.job.(status := Provisioning))), o, candidates.value,
                    Passes(retries), fixedRate, 1, 0, false);
    }
  }

  /** Whatever calls follow, every instance that provisioning created is in the registry,
      except one whose creation callback raised. */
  lemma CreatedAreRegistered(pods: seq<R.Record>, w: Walk, o: Oracle, candidates: Option<nat>, retries: int,
                             fixedRate: real, k: nat, later: seq<Call>)
    requires var (w', e) := Provision(w, o, candidates, retries, fixedRate);
      && |w.calls| <= k < |w'.calls| && w'.calls[k].Create? && (e.Raised? ==> k < |w'.calls| - 1)
      && w'.calls <= later
    ensures R.Has(After(pods, later), later[k].pod)
  {
    hide Provision, R.Has;
    var (w', e) := Provision(w, o, candidates, retries, fixedRate);
    ProvisionAnnounces(w, o, candidates, retries, fixedRate);
    assert FollowedUp(w'.calls, k, e.Raised?);
    assert later[k] == w'.calls[k] && later[k + 1] == w'.calls[k + 1];
    PodsStay(pods, later, later[k].pod);
  }
}
