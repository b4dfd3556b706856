/** The refresh circuit breaker of the runtime daemon: too many failures close together
    make the next attempt wait. Proved: how far apart consecutive failures are. */
module CircuitBreaker {
  datatype Breaker = Breaker(failures: seq<int>, cooldownUntil: int)

  datatype Limits = Limits(limit: nat, windowMs: int, cooldownMs: int)

  const START := Breaker([], 0)

  // What is left once the failures older than the window are shifted out.
  function Recent(failures: seq<int>, ts: int, windowMs: int): seq<int> {
    if failures != [] && ts - failures[0] > windowMs then Recent(failures[1..], ts, windowMs) else failures
  }

  function Failed(b: Breaker, ts: int, l: Limits): Breaker {
    var recent := Recent(b.failures + [ts], ts, l.windowMs);
    if |recent| >= l.limit then Breaker([], ts + l.cooldownMs) else Breaker(recent, b.cooldownUntil)
  }

  function Succeeded(b: Breaker): Breaker {
    b.(failures := [])
  }

  class RefreshBreaker {
    const limits: Limits
    var refreshFailures: seq<int>
    var cooldownUntil: int

    function Value(): Breaker
      reads this
    {
      Breaker(refreshFailures, cooldownUntil)
    }

    constructor (limits: Limits)
      ensures this.limits == limits && Value() == START
    {
      this.limits, refreshFailures, cooldownUntil := limits, [], 0;
    }

    method NoteRefreshFailure(ts: int)
      modifies this
      ensures Value() == Failed(old(Value()), ts, limits)
    {
      refreshFailures := refreshFailures + [ts];
      while |refreshFailures| > 0 && ts - refreshFailures[0] > limits.windowMs
        invariant Recent(refreshFailures, ts, limits.windowMs) ==
                  Recent(old(refreshFailures) + [ts], ts, limits.windowMs)
        invariant cooldownUntil == old(cooldownUntil)
        decreases |refreshFailures|
      {
        refreshFailures := refreshFailures[1..];
      }
      if |refreshFailures| >= limits.limit {
        cooldownUntil := ts + limits.cooldownMs;
        refreshFailures := [];
      }
    }

    method NoteRefreshSuccess()
      modifies this
      ensures Value() == Succeeded(old(Value()))
    {
      refreshFailures := [];
    }

    // How long a connection attempt sleeps before it asks for a token.
    method SleepBeforeRefresh(now: int) returns (ms: nat)
      ensures now + ms >= cooldownUntil && (ms > 0 ==> now + ms == cooldownUntil)
    {
      ms := if cooldownUntil > now then cooldownUntil - now else 0;
    }
  }

  // ------------------------------------------------------------ whole runs

  // One refresh attempt, at the time its outcome is known.
  datatype Attempt = Attempt(ts: int, ok: bool)

  function After(b: Breaker, a: Attempt, l: Limits): Breaker {
    if a.ok then Succeeded(b) else Failed(b, a.ts, l)
  }

  // Attempts one at a time under a clock that does not run backwards, each after the
  // sleep above.
  ghost predicate Trace(states: seq<Breaker>, attempts: seq<Attempt>, l: Limits) {
    && |states| == |attempts| + 1 && states[0] == START
    && (forall k :: 0 <= k < |attempts| ==> states[k + 1] == After(states[k], attempts[k], l))
    && (forall k :: 0 <= k < |attempts| ==> attempts[k].ts >= states[k].cooldownUntil)
    && (forall j, k :: 0 <= j < k < |attempts| ==> attempts[j].ts <= attempts[k].ts)
  }

  predicate Nondecreasing(s: seq<int>) {
    forall i, j :: 0 <= i < j < |s| ==> s[i] <= s[j]
  }

  // What is kept is an end of the list: sorted if it was, all of it within the window.
  lemma {:induction false} RecentKeeps(failures: seq<int>, ts: int, windowMs: int)
    requires Nondecreasing(failures)
    ensures var r := Recent(failures, ts, windowMs);
            && |r| <= |failures| && r == failures[|failures| - |r|..] && Nondecreasing(r)
            && (forall x | x in r :: ts - x <= windowMs)
            && (forall i :: 0 <= i < |failures| && ts - failures[i] <= windowMs ==> |failures| - |r| <= i)
  {
    if failures != [] && ts - failures[0] > windowMs {
      RecentKeeps(failures[1..], ts, windowMs);
      forall i | 0 <= i < |failures| && ts - failures[i] <= windowMs
        ensures |failures| - |Recent(failures, ts, windowMs)| <= i
      {
        assert failures[1..][i - 1] == failures[i];
      }
    } else {
      assert forall x | x in failures :: failures[0] <= x;
    }
  }

  // The failures remembered: sorted, no later than the clock, fewer than the limit.
  ghost predicate Tidy(b: Breaker, clock: int, l: Limits) {
    && Nondecreasing(b.failures) && (forall x | x in b.failures :: x <= clock)
    && |b.failures| < (if l.limit == 0 then 1 else l.limit)
  }

  lemma FailedTidy(b: Breaker, clock: int, ts: int, l: Limits)
    requires Tidy(b, clock, l) && clock <= ts
    ensures Tidy(Failed(b, ts, l), ts, l)
    ensures forall x | x in Failed(b, ts, l).failures :: ts - x <= l.windowMs
  {
    assert forall i :: 0 <= i < |b.failures| ==> b.failures[i] in b.failures;
    RecentKeeps(b.failures + [ts], ts, l.windowMs);
  }

  lemma {:induction false} AlwaysTidy(states: seq<Breaker>, attempts: seq<Attempt>, l: Limits, n: nat)
    requires Trace(states, attempts, l) && 0 < n < |states|
    ensures Tidy(states[n], attempts[n - 1].ts, l)
  {
    var k := n - 1;
    assert states[k + 1] == After(states[k], attempts[k], l);
    if k > 0 {
      AlwaysTidy(states, attempts, l, k);
    }
    var clock := if k > 0 then attempts[k - 1].ts else attempts[k].ts;
    assert Tidy(states[k], clock, l);
    if !attempts[k].ok { FailedTidy(states[k], clock, attempts[k].ts, l); }
  }

  // Failures from position i to position k without a success in between.
  ghost predicate Burst(attempts: seq<Attempt>, i: nat, k: nat) {
    i <= k < |attempts| && forall j :: i <= j <= k ==> !attempts[j].ok
  }

  function Times(attempts: seq<Attempt>, i: nat, k: nat): seq<int>
    requires i <= k < |attempts|
  {
    seq(k - i + 1, j requires 0 <= j < k - i + 1 => attempts[i + j].ts)
  }

  function Shorter(l: Limits): int {
    if l.windowMs <= l.cooldownMs then l.windowMs else l.cooldownMs
  }

  ghost predicate Far(attempts: seq<Attempt>, i: nat, k: nat, l: Limits)
    requires i <= k < |attempts|
  {
    attempts[k].ts - attempts[i].ts >= Shorter(l)
  }

  // All failures of the burst are still remembered.
  ghost predicate Remembered(b: Breaker, times: seq<int>) {
    |times| <= |b.failures| && b.failures[|b.failures| - |times|..] == times
  }

  // So far into a burst: spread out, or all remembered, or just tripped.
  lemma {:induction false} BurstProgress(states: seq<Breaker>, attempts: seq<Attempt>, l: Limits, i: nat, k: nat)
    requires Trace(states, attempts, l) && Burst(attempts, i, k)
    ensures Far(attempts, i, k, l) || Remembered(states[k + 1], Times(attempts, i, k))
            || states[k + 1].cooldownUntil == attempts[k].ts + l.cooldownMs
    decreases k - i
  {
    var ts := attempts[k].ts;
    assert states[k + 1] == After(states[k], attempts[k], l);
    SortedThen(states, attempts, l, k);
    if k > i {
      BurstProgress(states, attempts, l, i, k - 1);
      assert attempts[k - 1].ts <= ts && ts >= states[k].cooldownUntil;
      if !Far(attempts, i, k, l) {
        assert Times(attempts, i, k - 1) + [ts] == Times(attempts, i, k);
        RememberedOn(states[k], Times(attempts, i, k - 1), ts, l);
      }
    } else if !Far(attempts, i, i, l) {
      assert [] + [ts] == Times(attempts, i, i);
      RememberedOn(states[k], [], ts, l);
    }
  }

  lemma RememberedOn(b: Breaker, times: seq<int>, ts: int, l: Limits)
    requires Nondecreasing(b.failures + [ts]) && Remembered(b, times)
    requires ts - (if times == [] then ts else times[0]) <= l.windowMs
    ensures Remembered(Failed(b, ts, l), times + [ts]) || Failed(b, ts, l).cooldownUntil == ts + l.cooldownMs
  {
    KeepsBurst(b.failures, times, ts, l.windowMs);
  }

  lemma SortedThen(states: seq<Breaker>, attempts: seq<Attempt>, l: Limits, k: nat)
    requires Trace(states, attempts, l) && k < |attempts|
    ensures Nondecreasing(states[k].failures + [attempts[k].ts])
  {
    if k > 0 {
      AlwaysTidy(states, attempts, l, k);
      var f := states[k].failures;
      assert forall j :: 0 <= j < |f| ==> f[j] in f;
    }
  }

  // A burst whose first failure is within the window is not shifted out.
  lemma KeepsBurst(failures: seq<int>, times: seq<int>, ts: int, windowMs: int)
    requires Nondecreasing(failures + [ts]) && |times| <= |failures| && failures[|failures| - |times|..] == times
    requires ts - (if times == [] then ts else times[0]) <= windowMs
    ensures var r := Recent(failures + [ts], ts, windowMs);
            |times| + 1 <= |r| && r[|r| - |times| - 1..] == times + [ts]
  {
    var grown := failures + [ts];
    var first := |failures| - |times|;
    RecentKeeps(grown, ts, windowMs);
    assert grown[first] == if times == [] then ts else times[0];
    assert grown[first..] == times + [ts];
  }

  // The rate bound: one more failure in a row than the limit allows, and from the
  // first to the last at least the window or the cooldown has passed, whichever is
  // shorter. A limit of zero acts as a limit of one.
  lemma FailuresAreSpread(states: seq<Breaker>, attempts: seq<Attempt>, l: Limits, i: nat)
    requires Trace(states, attempts, l)
    requires var n := if l.limit == 0 then 1 else l.limit; Burst(attempts, i, i + n)
    ensures var n := if l.limit == 0 then 1 else l.limit; Far(attempts, i, i + n, l)
  {
    var n := if l.limit == 0 then 1 else l.limit;
    var k := i + n - 1;
    BurstProgress(states, attempts, l, i, k);
    AlwaysTidy(states, attempts, l, k + 1);
    assert |Times(attempts, i, k)| == n;
    assert attempts[k].ts <= attempts[k + 1].ts && attempts[k + 1].ts >= states[k + 1].cooldownUntil;
    assert attempts[i].ts <= attempts[k].ts || i == k;
  }

  // ------------------------------------------------- when a cooldown begins

  // How many of the attempts from m to k are not older than the window at attempt k.
  function RecentCount(attempts: seq<Attempt>, m: nat, k: nat, windowMs: int): nat
    requires m <= k < |attempts|
  {
    RecentBefore(attempts, m, k + 1, attempts[k].ts, windowMs)
  }

  function RecentBefore(attempts: seq<Attempt>, m: nat, n: nat, ts: int, windowMs: int): nat
    requires m <= n <= |attempts|
  {
    if n == m then 0
    else RecentBefore(attempts, m, n - 1, ts, windowMs) + if ts - attempts[n - 1].ts <= windowMs then 1 else 0
  }

  // Attempt k fails as one of so many recent failures in a row that a cooldown begins. The
  // row starts anew after a success, and after each cooldown.
  predicate Trips(attempts: seq<Attempt>, l: Limits, k: nat)
    requires k < |attempts|
    decreases k, 1
  {
    !attempts[k].ok && RecentCount(attempts, RowStart(attempts, l, k), k, l.windowMs) >= l.limit
  }

  function RowStart(attempts: seq<Attempt>, l: Limits, k: nat): (m: nat)
    requires k <= |attempts|
    ensures m <= k
    decreases k, 0
  {
    if k == 0 then 0
    else if attempts[k - 1].ok || Trips(attempts, l, k - 1) then k
    else RowStart(attempts, l, k - 1)
  }

  function TimesFrom(attempts: seq<Attempt>, m: nat, n: nat): seq<int>
    requires m <= n <= |attempts|
  {
    seq(n - m, j requires 0 <= j < n - m => attempts[m + j].ts)
  }

  // From the cut on the failures of the row are remembered; those before are too old.
  ghost predicate CutAt(failures: seq<int>, attempts: seq<Attempt>, m: nat, n: nat, cut: nat, l: Limits) {
    && m <= cut <= n <= |attempts|
    && failures == TimesFrom(attempts, cut, n)
    && (n > 0 ==> forall j | m <= j < cut :: attempts[n - 1].ts - attempts[j].ts > l.windowMs)
  }

  lemma {:induction false} CountAfterCut(attempts: seq<Attempt>, m: nat, n: nat, cut: nat, ts: int, windowMs: int)
    requires m <= cut <= n <= |attempts|
    requires forall j | m <= j < cut :: ts - attempts[j].ts > windowMs
    requires forall j | cut <= j < n :: ts - attempts[j].ts <= windowMs
    ensures RecentBefore(attempts, m, n, ts, windowMs) == n - cut
  {
    if n > cut {
      CountAfterCut(attempts, m, n - 1, cut, ts, windowMs);
    } else if n > m {
      CountAfterCut(attempts, m, n - 1, n - 1, ts, windowMs);
    }
  }

  // A failure cuts further.
  lemma FailureCuts(failures: seq<int>, attempts: seq<Attempt>, m: nat, k: nat, cut: nat, l: Limits) returns (next: nat)
    requires k < |attempts| && CutAt(failures, attempts, m, k, cut, l)
    requires forall i, j :: 0 <= i < j < |attempts| ==> attempts[i].ts <= attempts[j].ts
    ensures var ts := attempts[k].ts;
            var recent := Recent(failures + [ts], ts, l.windowMs);
            && CutAt(recent, attempts, m, k + 1, next, l)
            && |recent| == RecentCount(attempts, m, k, l.windowMs)
  {
    var ts := attempts[k].ts;
    var all := TimesFrom(attempts, cut, k + 1);
    assert failures + [ts] == all;
    next := RecentFrom(attempts, cut, k, l.windowMs);
    forall j | m <= j < next ensures ts - attempts[j].ts > l.windowMs {
      if j < cut { assert attempts[k - 1].ts - attempts[j].ts > l.windowMs; }
    }
    CountAfterCut(attempts, m, k + 1, next, ts, l.windowMs);
  }

  // What is left of a row is its end from some attempt on: the failures within the window.
  lemma RecentFrom(attempts: seq<Attempt>, cut: nat, k: nat, windowMs: int) returns (next: nat)
    requires cut <= k < |attempts|
    requires forall i, j :: 0 <= i < j < |attempts| ==> attempts[i].ts <= attempts[j].ts
    ensures cut <= next <= k + 1
    ensures Recent(TimesFrom(attempts, cut, k + 1), attempts[k].ts, windowMs) == TimesFrom(attempts, next, k + 1)
    ensures forall j | cut <= j < next :: attempts[k].ts - attempts[j].ts > windowMs
    ensures forall j | next <= j <= k :: attempts[k].ts - attempts[j].ts <= windowMs
  {
    var ts, all := attempts[k].ts, TimesFrom(attempts, cut, k + 1);
    var recent := Recent(all, ts, windowMs);
    RecentIsEnd(all, ts, windowMs);
    next := k + 1 - |recent|;
    assert recent == TimesFrom(attempts, next, k + 1);
    forall j | cut <= j < next ensures ts - attempts[j].ts > windowMs { assert all[j - cut] == attempts[j].ts; }
    forall j | next <= j <= k ensures ts - attempts[j].ts <= windowMs { assert recent[j - next] == attempts[j].ts; }
  }

  lemma {:induction false} DroppedAreOld(failures: seq<int>, ts: int, windowMs: int)
    ensures var r := Recent(failures, ts, windowMs);
            |r| <= |failures| && forall i | 0 <= i < |failures| - |r| :: ts - failures[i] > windowMs
  {
    if failures != [] && ts - failures[0] > windowMs {
      DroppedAreOld(failures[1..], ts, windowMs);
      assert forall i | 1 <= i < |failures| :: failures[i] == failures[1..][i - 1];
    }
  }

  lemma RecentIsEnd(failures: seq<int>, ts: int, windowMs: int)
    requires Nondecreasing(failures)
    ensures var r := Recent(failures, ts, windowMs);
            && |r| <= |failures| && r == failures[|failures| - |r|..]
            && (forall i | 0 <= i < |failures| - |r| :: ts - failures[i] > windowMs)
            && (forall i | 0 <= i < |r| :: ts - r[i] <= windowMs)
  {
    RecentKeeps(failures, ts, windowMs);
    DroppedAreOld(failures, ts, windowMs);
    assert forall i | 0 <= i < |Recent(failures, ts, windowMs)| ::
        Recent(failures, ts, windowMs)[i] in Recent(failures, ts, windowMs);
  }

  lemma {:induction false} RowIsRemembered(states: seq<Breaker>, attempts: seq<Attempt>, l: Limits, k: nat)
      returns (cut: nat)
    requires Trace(states, attempts, l) && k < |states|
    ensures CutAt(states[k].failures, attempts, RowStart(attempts, l, k), k, cut, l)
    decreases k, 0
  {
    if k == 0 {
      cut := 0;
    } else {
      cut := NextIsRemembered(states, attempts, l, k - 1);
    }
  }

  lemma NextIsRemembered(states: seq<Breaker>, attempts: seq<Attempt>, l: Limits, k: nat) returns (cut: nat)
    requires Trace(states, attempts, l) && k < |attempts|
    ensures CutAt(states[k + 1].failures, attempts, RowStart(attempts, l, k + 1), k + 1, cut, l)
    ensures states[k + 1].cooldownUntil ==
            if Trips(attempts, l, k) then attempts[k].ts + l.cooldownMs else states[k].cooldownUntil
    decreases k, 1
  {
    assert states[k + 1] == After(states[k], attempts[k], l);
    cut := k + 1;
    if !attempts[k].ok {
      var before := RowIsRemembered(states, attempts, l, k);
      var next := FailureCuts(states[k].failures, attempts, RowStart(attempts, l, k), k, before, l);
      if !Trips(attempts, l, k) { cut := next; }
    }
  }

  // Over every run a cooldown begins exactly when a failure is the last of at least `limit`
  // failures in a row, since the last success and the last cooldown, that all lie within the
  // window; nothing else moves the end of the cooldown.
  lemma CooldownIff(states: seq<Breaker>, attempts: seq<Attempt>, l: Limits, k: nat)
    requires Trace(states, attempts, l) && k < |attempts|
    ensures states[k + 1].cooldownUntil ==
            if Trips(attempts, l, k) then attempts[k].ts + l.cooldownMs else states[k].cooldownUntil
  {
    var cut := NextIsRemembered(states, attempts, l, k);
  }
}
