/** Two retry loops with exponential backoff. One caps the stored delay, the other doubles it
    without a cap and caps it at use; with jitter both wait the same. */
module Backoff {
  import opened Base

  /** How one call ended: a result, an error worth another try, or one that is not. */
  datatype Attempt<T> = Success(value: T) | Transient | Fatal

  /** base * 2^k. */
  function Doubled(base: real, k: nat): real {
    base * Pow2(k)
  }

  /** The wait before call k + 2, apart from the jitter. */
  function Wait(base: real, cap: real, k: nat): real {
    Min(Doubled(base, k), cap)
  }

  function Jittered(wait: real, j: real): real {
    wait * j
  }

  predicate Stops<T>(a: Attempt<T>) {
    !a.Transient?
  }

  /** The calls made: up to the first that is not worth another try, at most `attempts`. */
  ghost predicate Made<T>(outcome: nat -> Attempt<T>, attempts: nat, calls: nat) {
    && 1 <= calls <= attempts
    && (forall i :: 0 <= i < calls - 1 ==> !Stops(outcome(i)))
    && (calls < attempts ==> Stops(outcome(calls - 1)))
  }

  /** Each wait is the capped exponential times the jitter. */
  ghost predicate OnSchedule(base: real, cap: real, jitter: nat -> real, waits: seq<real>) {
    forall k :: 0 <= k < |waits| ==> waits[k] == Jittered(Wait(base, cap, k), jitter(k))
  }

  lemma NoDoubling(base: real)
    ensures Doubled(base, 0) == base
  {
  }

  lemma DoublingStep(base: real, k: nat)
    ensures Doubled(base, k) * 2.0 == Doubled(base, k + 1)
  {
  }

  /** Capping the stored delay: what is stored after k doublings. */
  lemma StoredCapDoubles(base: real, cap: real, k: nat, delay: real)
    requires cap >= 0.0 && (delay == Doubled(base, k) || (delay == cap && cap <= Doubled(base, k)))
    ensures var next := Min(delay * 2.0, cap);
      next == Doubled(base, k + 1) || (next == cap && cap <= Doubled(base, k + 1))
  {
  }

  /** The delay the first loop stores after k doublings. */
  function Stored(base: real, cap: real, k: nat): real {
    if k == 0 then base else Min(Stored(base, cap, k - 1) * 2.0, cap)
  }

  ghost predicate OnStoredSchedule(base: real, cap: real, jitter: nat -> real, waits: seq<real>) {
    forall k :: 0 <= k < |waits| ==> waits[k] == Jittered(Min(Stored(base, cap, k), cap), jitter(k))
  }

  /** The general retry: the delay is capped as it is stored. With no attempt allowed no call
      is made (the original then fails an assertion). */
  method Retry<T>(outcome: nat -> Attempt<T>, attempts: int, base: real, cap: real, jitter: nat -> real)
    returns (last: Option<Attempt<T>>, calls: nat, waits: seq<real>)
    ensures attempts <= 0 ==> last == None && calls == 0 && waits == []
    ensures attempts > 0 ==> Made(outcome, attempts, calls) && last == Some(outcome(calls - 1)) && |waits| == calls - 1
    ensures OnStoredSchedule(base, cap, jitter, waits)
    ensures cap >= 0.0 ==> OnSchedule(base, cap, jitter, waits)
  {
    hide Jittered, Doubled;
    var delay := base;
    calls, waits := 0, [];
    while calls < attempts
      invariant calls < attempts || calls == 0
      invariant |waits| == calls && OnStoredSchedule(base, cap, jitter, waits)
      invariant forall i :: 0 <= i < calls ==> !Stops(outcome(i))
      invariant delay == Stored(base, cap, calls)
      decreases attempts - calls
    {
      last := Some(outcome(calls));
      if Stops(last.value) || calls + 1 >= attempts {
        calls := calls + 1;
        StoredOnSchedule(base, cap, jitter, waits);
        return;
      }
      waits := waits + [Jittered(Min(delay, cap), jitter(calls))];
      delay := Min(delay * 2.0, cap);
      calls := calls + 1;
    }
    last := None;
  }

  lemma StoredOnSchedule(base: real, cap: real, jitter: nat -> real, waits: seq<real>)
    requires OnStoredSchedule(base, cap, jitter, waits)
    ensures cap >= 0.0 ==> OnSchedule(base, cap, jitter, waits)
  {
    hide Jittered, Wait, Stored;
    forall k | 0 <= k < |waits| && cap >= 0.0 ensures waits[k] == Jittered(Wait(base, cap, k), jitter(k)) {
      StoredIsCapped(base, cap, k);
    }
  }

  /** The SSH runner: the delay doubles without a cap and is capped at use; a shutdown during
      a wait ends the retrying with the result in hand. */
  method SshRun<T>(outcome: nat -> Attempt<T>, retries: int, base: real, cap: real, jitter: nat -> real,
                   stopped: nat -> bool)
    returns (last: Attempt<T>, calls: nat, waits: seq<real>)
    ensures var attempts := if retries > 1 then retries else 1;
      && 1 <= calls <= attempts && last == outcome(calls - 1)
      && (forall i :: 0 <= i < calls - 1 ==> !Stops(outcome(i)) && !stopped(i))
      && (calls < attempts ==> Stops(outcome(calls - 1)) || stopped(calls - 1))
    ensures calls - 1 <= |waits| <= calls && OnSchedule(base, cap, jitter, waits)
  {
    hide Jittered, Doubled;
    var attempts := if retries > 1 then retries else 1;
    var delay := base;
    NoDoubling(base);
    calls, waits := 0, [];
    while true
      invariant 0 <= calls < attempts && |waits| == calls && OnSchedule(base, cap, jitter, waits)
      invariant forall i :: 0 <= i < calls ==> !Stops(outcome(i)) && !stopped(i)
      invariant delay == Doubled(base, calls)
      decreases attempts - calls
    {
      last := outcome(calls);
      if Stops(last) || calls + 1 == attempts {
        calls := calls + 1;
        return;
      }
      waits := waits + [Jittered(Min(delay, cap), jitter(calls))];
      if stopped(calls) {
        calls := calls + 1;
        return;
      }
      DoublingStep(base, calls);
      delay := delay * 2.0;
      calls := calls + 1;
    }
  }

  // ---- what both have in common ----

  lemma {:induction false} StoredIsCapped(base: real, cap: real, k: nat)
    requires cap >= 0.0
    ensures Stored(base, cap, k) == Doubled(base, k) || (Stored(base, cap, k) == cap && cap <= Doubled(base, k))
    ensures Min(Stored(base, cap, k), cap) == Wait(base, cap, k)
  {
    hide Doubled;
    NoDoubling(base);
    if k > 0 {
      StoredIsCapped(base, cap, k - 1);
      StoredCapDoubles(base, cap, k - 1, Stored(base, cap, k - 1));
    }
  }

  lemma {:induction false} StoredBelowNegativeCap(base: real, cap: real, k: nat)
    requires cap < 0.0 && base * 2.0 <= cap
    ensures Stored(base, cap, k) == Doubled(base, k)
    ensures k > 0 ==> Doubled(base, k) <= cap
  {
    hide Doubled;
    NoDoubling(base);
    if k > 0 {
      StoredBelowNegativeCap(base, cap, k - 1);
      DoublingStep(base, k - 1);
    }
  }

  /** The two schedules agree at every wait exactly when the cap is not negative, or so near
      zero that it never bites. */
  lemma SchedulesAgree(base: real, cap: real)
    ensures (forall k: nat :: Min(Stored(base, cap, k), cap) == Wait(base, cap, k)) <==> cap >= 0.0 || base * 2.0 <= cap
  {
    hide Doubled;
    if cap >= 0.0 {
      forall k: nat ensures Min(Stored(base, cap, k), cap) == Wait(base, cap, k) {
        StoredIsCapped(base, cap, k);
      }
    } else if base * 2.0 <= cap {
      forall k: nat ensures Min(Stored(base, cap, k), cap) == Wait(base, cap, k) {
        StoredBelowNegativeCap(base, cap, k);
      }
    } else {
      NoDoubling(base);
      DoublingStep(base, 0);
      DoublingStep(base, 1);
      assert Stored(base, cap, 1) == cap && Stored(base, cap, 2) == cap * 2.0;
      assert Min(Stored(base, cap, 2), cap) != Wait(base, cap, 2);
    }
  }

  /** What a wait is: the base, doubled with every call, but never more than the cap; times the
      jitter. */
  lemma WaitsAre(base: real, cap: real, jitter: nat -> real, waits: seq<real>)
    ensures OnSchedule(base, cap, jitter, waits) <==>
              forall k: nat :: k < |waits| ==>
                waits[k] == (if base * Pow2(k) <= cap then base * Pow2(k) else cap) * jitter(k)
  {
  }

  function Sum(waits: seq<real>): real {
    if waits == [] then 0.0 else Sum(waits[..|waits| - 1]) + waits[|waits| - 1]
  }

  ghost predicate JitterInRange(jitter: nat -> real) {
    forall k: nat :: 0.5 <= jitter(k) < 1.5
  }

  lemma WaitBounds(base: real, cap: real, k: nat, j: real)
    requires base >= 0.0 && cap >= 0.0 && 0.5 <= j < 1.5
    ensures 0.5 * Min(base, cap) <= Jittered(Wait(base, cap, k), j) <= 1.5 * Wait(base, cap, k)
    ensures Wait(base, cap, k) <= Doubled(base, k) && Wait(base, cap, k) <= cap
  {
    DoubledAtLeast(base, k);
    hide Doubled;
    JitterBounds(Wait(base, cap, k), j);
  }

  lemma DoubledAtLeast(base: real, k: nat)
    requires base >= 0.0
    ensures Doubled(base, k) >= base
  {
    PowPositive(k);
    NonNegative(base, Pow2(k) - 1.0);
    assert base * (Pow2(k) - 1.0) == base * Pow2(k) - base;
  }

  lemma JitterBounds(w: real, j: real)
    requires w >= 0.0 && 0.5 <= j < 1.5
    ensures 0.5 * w <= Jittered(w, j) <= 1.5 * w
  {
    NonNegative(w, j - 0.5);
    assert w * (j - 0.5) == w * j - 0.5 * w;
    NonNegative(w, 1.5 - j);
    assert w * (1.5 - j) == 1.5 * w - w * j;
  }

  lemma NonNegative(a: real, b: real)
    requires a >= 0.0 && b >= 0.0
    ensures a * b >= 0.0
  {
  }

  lemma {:induction false} PowPositive(k: nat)
    ensures Pow2(k) >= 1.0
  {
    if k > 0 {
      PowPositive(k - 1);
    }
  }

  /** What the waits add up to if nothing is capped, or everything is. */
  function Geometric(base: real, n: nat): real {
    base * (Pow2(n) - 1.0)
  }

  function Linear(cap: real, n: nat): real {
    cap * (n as real)
  }

  lemma SumsGrow(base: real, cap: real, n: nat)
    ensures Geometric(base, 0) == 0.0 && Linear(cap, 0) == 0.0
    ensures Geometric(base, n + 1) == Geometric(base, n) + Doubled(base, n)
    ensures Linear(cap, n + 1) == Linear(cap, n) + cap
  {
  }

  /** The total waiting of either loop over n waits is at most 1.5 times the smaller of
      base * (2^n - 1) and cap * n, and at least half of n times the first. */
  lemma {:induction false} TotalWait(base: real, cap: real, jitter: nat -> real, waits: seq<real>)
    requires base >= 0.0 && cap >= 0.0 && JitterInRange(jitter) && OnSchedule(base, cap, jitter, waits)
    ensures 0.5 * Linear(Min(base, cap), |waits|) <= Sum(waits) <= 1.5 * Min(Geometric(base, |waits|),
                                                                             Linear(cap, |waits|))
    decreases |waits|
  {
    hide Geometric, Linear, Doubled, Jittered, Wait;
    if waits == [] {
      SumsGrow(base, cap, 0);
      SumsGrow(base, Min(base, cap), 0);
    } else {
      var n := |waits| - 1;
      TotalWait(base, cap, jitter, waits[..n]);
      WaitBounds(base, cap, n, jitter(n));
      SumsGrow(base, cap, n);
      SumsGrow(base, Min(base, cap), n);
    }
  }
}
