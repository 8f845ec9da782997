/** The sliding-window attempt limiter. Times are whole epoch milliseconds. */
module RateLimiter {
  type Key = string

  datatype Policy = Policy(limit: nat, windowMs: nat, maxTrackedKeys: nat)

  datatype Decision = Decision(allowed: bool, retryAfterSeconds: nat)

  type Attempts = map<Key, seq<int>>

  predicate ValidPolicy(p: Policy) { p.limit >= 1 && p.windowMs >= 1 && p.maxTrackedKeys >= 1 }

  function Live(times: seq<int>, windowStart: int): seq<int> {
    if times == [] then []
    else (if times[0] > windowStart then [times[0]] else []) + Live(times[1..], windowStart)
  }

  function Evicted(attempts: Attempts, windowStart: int): Attempts {
    map key | key in attempts && Live(attempts[key], windowStart) != [] :: Live(attempts[key], windowStart)
  }

  /** Rounds up, as `Math.ceil` does on a nonnegative quotient. */
  function CeilSeconds(ms: nat): nat { (ms + 999) / 1000 }

  function Consume(p: Policy, attempts: Attempts, key: Key, now: int): (r: (Attempts, Decision))
    requires ValidPolicy(p)
  {
    var start := now - p.windowMs;
    var live := if key in attempts then Live(attempts[key], start) else [];
    if |live| >= p.limit then
      LiveIsLive(attempts[key], start, 0);
      var seconds := CeilSeconds(live[0] + p.windowMs - now);
      (attempts[key := live], Decision(false, if seconds < 1 then 1 else seconds))
    else
      var room := key in attempts || |attempts| < p.maxTrackedKeys;
      var kept := if room then attempts else Evicted(attempts, start);
      if !room && |kept| >= p.maxTrackedKeys then (kept, Decision(false, CeilSeconds(p.windowMs)))
      else (kept[key := live + [now]], Decision(true, 0))
  }

  lemma LiveIsLive(times: seq<int>, start: int, k: nat)
    requires k < |Live(times, start)|
    ensures Live(times, start)[k] > start
  {
    if times[0] <= start { LiveIsLive(times[1..], start, k); }
    else if k > 0 { LiveIsLive(times[1..], start, k - 1); }
  }

  class SlidingWindowRateLimiter {
    const policy: Policy
    var attempts: Attempts

    constructor (policy: Policy)
      requires ValidPolicy(policy)
      ensures this.policy == policy && attempts == map[]
    {
      this.policy := policy;
      attempts := map[];
    }

    method EvictExpired(windowStart: int)
      modifies this`attempts
      ensures attempts == Evicted(old(attempts), windowStart)
    {
      var before, todo := attempts, attempts.Keys;
      while todo != {}
        invariant todo <= before.Keys
        invariant forall k :: k in attempts <==> k in before && (k in todo || Live(before[k], windowStart) != [])
        invariant forall k :: k in attempts ==> attempts[k] == if k in todo then before[k] else Live(before[k], windowStart)
        decreases |todo|
      {
        var k :| k in todo;
        var live := Live(before[k], windowStart);
        if live == [] { attempts := attempts - {k}; } else { attempts := attempts[k := live]; }
        todo := todo - {k};
      }
    }

    method ConsumeAttempt(key: Key, now: int) returns (d: Decision)
      requires ValidPolicy(policy)
      modifies this`attempts
      ensures (attempts, d) == Consume(policy, old(attempts), key, now)
    {
      var windowStart := now - policy.windowMs;
      var recorded := key in attempts;
      var timestamps := if recorded then Live(attempts[key], windowStart) else [];
      if |timestamps| >= policy.limit {
        LiveIsLive(attempts[key], windowStart, 0);
        attempts := attempts[key := timestamps];
        var seconds := CeilSeconds(timestamps[0] + policy.windowMs - now);
        return Decision(false, if seconds < 1 then 1 else seconds);
      }
      if !recorded && |attempts| >= policy.maxTrackedKeys {
        EvictExpired(windowStart);
        if |attempts| >= policy.maxTrackedKeys { return Decision(false, CeilSeconds(policy.windowMs)); }
      }
      timestamps := timestamps + [now];
      attempts := attempts[key := timestamps];
      d := Decision(true, 0);
    }
  }

  // ----- every run -----

  datatype Attempt = Attempt(key: Key, now: int)

  /** `granted` is history: when attempts of each key were let through, oldest first and never pruned. */
  datatype Sys = Sys(attempts: Attempts, clock: int, granted: Attempts)

  function Stored(attempts: Attempts, key: Key): seq<int> { if key in attempts then attempts[key] else [] }

  function Step(p: Policy, s: Sys, a: Attempt): Sys
    requires ValidPolicy(p)
  {
    var (attempts, d) := Consume(p, s.attempts, a.key, a.now);
    Sys(attempts, a.now, if d.allowed then s.granted[a.key := Stored(s.granted, a.key) + [a.now]] else s.granted)
  }

  function AfterRun(p: Policy, s: Sys, run: seq<Attempt>): Sys
    requires ValidPolicy(p)
    decreases |run|
  {
    if run == [] then s else AfterRun(p, Step(p, s, run[0]), run[1..])
  }

  function Fresh(clock: int): Sys { Sys(map[], clock, map[]) }

  /** The clock never runs backwards. */
  predicate Ordered(clock: int, run: seq<Attempt>)
    decreases |run|
  {
    run == [] || (clock <= run[0].now && Ordered(run[0].now, run[1..]))
  }

  predicate Rising(g: seq<int>, clock: int) {
    && (forall i, j :: 0 <= i < j < |g| ==> g[i] <= g[j])
    && (forall i :: 0 <= i < |g| ==> g[i] <= clock)
  }

  /** Any `limit + 1` successive grants span a whole window. */
  predicate Spaced(p: Policy, g: seq<int>) {
    forall i, j :: 0 <= i < |g| && i + p.limit <= j < |g| ==> g[i] + p.windowMs <= g[j]
  }

  /** What is stored is the end of the log, and what is missing has left the window. */
  predicate Covers(p: Policy, stored: seq<int>, g: seq<int>, clock: int) {
    && |stored| <= |g| && |stored| <= p.limit && stored == g[|g| - |stored|..]
    && forall i :: 0 <= i < |g| - |stored| ==> g[i] + p.windowMs <= clock
  }

  predicate Tracked(p: Policy, stored: seq<int>, g: seq<int>, clock: int) {
    Rising(g, clock) && Spaced(p, g) && Covers(p, stored, g, clock)
  }

  predicate Tracks(p: Policy, s: Sys, key: Key) { Tracked(p, Stored(s.attempts, key), Stored(s.granted, key), s.clock) }

  lemma {:induction false} AllLive(g: seq<int>, start: int)
    requires forall i :: 0 <= i < |g| ==> g[i] > start
    ensures Live(g, start) == g
  {
    if g != [] { AllLive(g[1..], start); }
  }

  lemma {:induction false} LiveIsSuffix(g: seq<int>, start: int, clock: int)
    requires Rising(g, clock)
    ensures |Live(g, start)| <= |g| && Live(g, start) == g[|g| - |Live(g, start)|..]
    ensures forall i :: 0 <= i < |g| - |Live(g, start)| ==> g[i] <= start
  {
    if g != [] {
      if g[0] > start {
        AllLive(g, start);
      } else {
        LiveIsSuffix(g[1..], start, clock);
        forall i | 0 <= i < |g| - |Live(g, start)|
          ensures g[i] <= start
        {
          if i > 0 { assert g[1..][i - 1] == g[i]; }
        }
      }
    }
  }

  /** Forgetting expired times keeps the log covered. */
  lemma LiveCovers(p: Policy, stored: seq<int>, g: seq<int>, clock: int, now: int)
    requires Rising(g, clock) && Covers(p, stored, g, clock) && clock <= now
    ensures Covers(p, Live(stored, now - p.windowMs), g, now)
  {
    LiveIsSuffix(stored, now - p.windowMs, clock);
    var live := Live(stored, now - p.windowMs);
    forall i | 0 <= i < |g| - |live|
      ensures g[i] + p.windowMs <= now
    {
      if i >= |g| - |stored| { assert stored[i - (|g| - |stored|)] == g[i]; }
    }
  }

  lemma GrantKeeps(p: Policy, live: seq<int>, g: seq<int>, now: int)
    requires Rising(g, now) && Spaced(p, g) && Covers(p, live, g, now) && |live| < p.limit
    ensures Rising(g + [now], now) && Spaced(p, g + [now]) && Covers(p, live + [now], g + [now], now)
  {
  }

  lemma LaterTracked(p: Policy, stored: seq<int>, g: seq<int>, clock: int, now: int)
    requires Tracked(p, stored, g, clock) && clock <= now
    ensures Tracked(p, stored, g, now) && Tracked(p, Live(stored, now - p.windowMs), g, now)
  {
    LiveCovers(p, stored, g, clock, now);
  }

  /** What one attempt leaves stored for any key: its live times, plus `now` if it was let through. */
  lemma StoredAfter(p: Policy, attempts: Attempts, a: Attempt, key: Key)
    requires ValidPolicy(p)
    ensures var (after, d) := Consume(p, attempts, a.key, a.now);
      var live := Live(Stored(attempts, key), a.now - p.windowMs);
      if a.key == key then Stored(after, key) == (if d.allowed then live + [a.now] else live) && (d.allowed ==> |live| < p.limit)
      else Stored(after, key) in {Stored(attempts, key), live}
  {
  }

  lemma StepLog(p: Policy, s: Sys, a: Attempt, key: Key)
    requires ValidPolicy(p)
    ensures var t, g, live := Step(p, s, a), Stored(s.granted, key), Live(Stored(s.attempts, key), a.now - p.windowMs);
      && t.clock == a.now
      && (if a.key == key && Consume(p, s.attempts, key, a.now).1.allowed
          then Stored(t.granted, key) == g + [a.now] && Stored(t.attempts, key) == live + [a.now] && |live| < p.limit
          else Stored(t.granted, key) == g && (Stored(t.attempts, key) == Stored(s.attempts, key) || Stored(t.attempts, key) == live))
  {
    StoredAfter(p, s.attempts, a, key);
  }

  lemma StepTracks(p: Policy, s: Sys, a: Attempt, key: Key)
    requires ValidPolicy(p) && s.clock <= a.now && Tracks(p, s, key)
    ensures Tracks(p, Step(p, s, a), key)
  {
    var g, stored := Stored(s.granted, key), Stored(s.attempts, key);
    StepLog(p, s, a, key);
    LaterTracked(p, stored, g, s.clock, a.now);
    if a.key == key && Consume(p, s.attempts, key, a.now).1.allowed {
      GrantKeeps(p, Live(stored, a.now - p.windowMs), g, a.now);
    }
  }

  lemma {:induction false} RunTracks(p: Policy, s: Sys, run: seq<Attempt>, key: Key)
    requires ValidPolicy(p) && Ordered(s.clock, run) && Tracks(p, s, key)
    ensures Tracks(p, AfterRun(p, s, run), key) && s.clock <= AfterRun(p, s, run).clock
    decreases |run|
  {
    if run != [] {
      StepTracks(p, s, run[0], key);
      RunTracks(p, Step(p, s, run[0]), run[1..], key);
    }
  }

  function CountWithin(times: seq<int>, lo: int, hi: int): nat {
    if times == [] then 0 else CountWithin(times[..|times| - 1], lo, hi) + if lo <= times[|times| - 1] < hi then 1 else 0
  }

  lemma {:induction false} CountAfter(g: seq<int>, lo: int, hi: int, first: nat)
    requires first <= |g| && forall i :: 0 <= i < first ==> g[i] < lo
    ensures CountWithin(g, lo, hi) <= |g| - first
  {
    if g != [] {
      var m := |g| - 1;
      CountAfter(g[..m], lo, hi, if first <= m then first else m);
    }
  }

  lemma {:induction false} SpacedMeansFew(p: Policy, g: seq<int>, clock: int, lo: int)
    requires ValidPolicy(p) && Rising(g, clock) && Spaced(p, g)
    ensures CountWithin(g, lo, lo + p.windowMs) <= p.limit
  {
    if g != [] {
      var m := |g| - 1;
      if g[m] >= lo + p.windowMs {
        SpacedMeansFew(p, g[..m], clock, lo);
      } else {
        var first := if m + 1 <= p.limit then 0 else m + 1 - p.limit;
        if first > 0 { assert g[first - 1] + p.windowMs <= g[m]; }
        CountAfter(g, lo, lo + p.windowMs, first);
      }
    }
  }

  // ----- theorems -----

  /** No window of length `windowMs`, wherever it starts, holds more than `limit` grants of a key,
      whatever other keys did and whatever was evicted in between. */
  lemma NeverOverLimit(p: Policy, clock: int, run: seq<Attempt>, key: Key, lo: int)
    requires ValidPolicy(p) && Ordered(clock, run)
    ensures CountWithin(Stored(AfterRun(p, Fresh(clock), run).granted, key), lo, lo + p.windowMs) <= p.limit
  {
    RunTracks(p, Fresh(clock), run, key);
    var s := AfterRun(p, Fresh(clock), run);
    SpacedMeansFew(p, Stored(s.granted, key), s.clock, lo);
  }

  lemma {:induction false} TrackedBounded(p: Policy, s: Sys, run: seq<Attempt>)
    requires ValidPolicy(p) && |s.attempts| <= p.maxTrackedKeys
    ensures |AfterRun(p, s, run).attempts| <= p.maxTrackedKeys
    decreases |run|
  {
    if run != [] {
      ConsumeBounded(p, s.attempts, run[0].key, run[0].now);
      TrackedBounded(p, Step(p, s, run[0]), run[1..]);
    }
  }

  lemma ConsumeBounded(p: Policy, before: Attempts, key: Key, now: int)
    requires ValidPolicy(p) && |before| <= p.maxTrackedKeys
    ensures |Consume(p, before, key, now).0| <= p.maxTrackedKeys
  {
    var kept, live := Evicted(before, now - p.windowMs), Live(Stored(before, key), now - p.windowMs);
    assert kept.Keys <= before.Keys;
    SubsetSize(kept.Keys, before.Keys);
    SetSize(before, key, live);
    SetSize(before, key, live + [now]);
    SetSize(kept, key, live + [now]);
  }

  lemma {:induction false} SubsetSize(a: set<Key>, b: set<Key>)
    requires a <= b
    ensures |a| <= |b|
  {
    if a != {} {
      var x :| x in a;
      SubsetSize(a - {x}, b - {x});
    }
  }

  lemma SetSize(m: Attempts, key: Key, times: seq<int>)
    ensures |m[key := times]| == |m| + if key in m then 0 else 1
  {
    assert m[key := times].Keys == m.Keys + {key};
    assert |m.Keys| == |m|;
  }

  /** The attempt finds the window full. */
  predicate OverLimit(p: Policy, s: Sys, a: Attempt) {
    |Live(Stored(s.attempts, a.key), a.now - p.windowMs)| >= p.limit
  }

  predicate Others(run: seq<Attempt>, key: Key) { forall i :: 0 <= i < |run| ==> run[i].key != key }

  lemma {:induction false} OthersGrantNothing(p: Policy, s: Sys, run: seq<Attempt>, key: Key)
    requires ValidPolicy(p) && Others(run, key)
    ensures Stored(AfterRun(p, s, run).granted, key) == Stored(s.granted, key)
    decreases |run|
  {
    if run != [] { OthersGrantNothing(p, Step(p, s, run[0]), run[1..], key); }
  }

  /** Once the `limit`-th newest grant has left the window, fewer than `limit` remain. */
  lemma DrainedMeansFew(p: Policy, s: Sys, a: Attempt)
    requires ValidPolicy(p) && Tracks(p, s, a.key) && s.clock <= a.now
    requires var g := Stored(s.granted, a.key); |g| >= p.limit && g[|g| - p.limit] + p.windowMs <= a.now
    ensures !OverLimit(p, s, a)
  {
    var g, stored, start := Stored(s.granted, a.key), Stored(s.attempts, a.key), a.now - p.windowMs;
    LiveCovers(p, stored, g, s.clock, a.now);
    if OverLimit(p, s, a) {
      LiveIsLive(stored, start, 0);
      assert false;
    }
  }

  lemma DeniedUntil(p: Policy, s: Sys, a: Attempt)
    requires ValidPolicy(p) && Tracks(p, s, a.key) && s.clock <= a.now && OverLimit(p, s, a)
    ensures var d, g := Consume(p, s.attempts, a.key, a.now).1, Stored(s.granted, a.key);
      !d.allowed && |g| >= p.limit && g[|g| - p.limit] + p.windowMs <= a.now + 1000 * d.retryAfterSeconds
  {
    var g, stored, start := Stored(s.granted, a.key), Stored(s.attempts, a.key), a.now - p.windowMs;
    LiveCovers(p, stored, g, s.clock, a.now);
    assert Live(stored, start)[0] == g[|g| - p.limit];
  }

  lemma AllowedExactly(p: Policy, s: Sys, a: Attempt)
    requires ValidPolicy(p) && !OverLimit(p, s, a)
    ensures Consume(p, s.attempts, a.key, a.now).1.allowed <==> HasRoom(p, s.attempts, a)
  {
  }

  predicate HasRoom(p: Policy, attempts: Attempts, a: Attempt) {
    a.key in attempts || |attempts| < p.maxTrackedKeys || |Evicted(attempts, a.now - p.windowMs)| < p.maxTrackedKeys
  }

  lemma DrainsWhileWaiting(p: Policy, s: Sys, a: Attempt, others: seq<Attempt>, again: Attempt)
    requires ValidPolicy(p) && Tracks(p, s, a.key) && s.clock <= a.now && OverLimit(p, s, a)
    requires Others(others, a.key) && Ordered(a.now, others) && again.key == a.key
    requires AfterRun(p, Step(p, s, a), others).clock <= again.now
    requires again.now >= a.now + 1000 * Consume(p, s.attempts, a.key, a.now).1.retryAfterSeconds
    ensures !OverLimit(p, AfterRun(p, Step(p, s, a), others), again)
  {
    DeniedUntil(p, s, a);
    StepTracks(p, s, a, a.key);
    RunTracks(p, Step(p, s, a), others, a.key);
    OthersGrantNothing(p, Step(p, s, a), others, a.key);
    DrainedMeansFew(p, AfterRun(p, Step(p, s, a), others), again);
  }

  /** After an over-limit denial, a caller that waits as long as it was told gets through, even if other
      keys kept trying: unless its own entry was evicted meanwhile and the tracker is full of live keys. */
  lemma WaitingSuffices(p: Policy, clock: int, before: seq<Attempt>, a: Attempt, others: seq<Attempt>, again: Attempt)
    requires ValidPolicy(p) && Ordered(clock, before) && Others(others, a.key) && again.key == a.key
    requires var s := AfterRun(p, Fresh(clock), before);
      && s.clock <= a.now && OverLimit(p, s, a) && Ordered(a.now, others)
      && AfterRun(p, Step(p, s, a), others).clock <= again.now
      && again.now >= a.now + 1000 * Consume(p, s.attempts, a.key, a.now).1.retryAfterSeconds
    ensures var s := AfterRun(p, Fresh(clock), before);
      var t := AfterRun(p, Step(p, s, a), others).attempts;
      && (Consume(p, t, again.key, again.now).1.allowed <==> HasRoom(p, t, again))
      && (others == [] ==> Consume(p, t, again.key, again.now).1.allowed)
  {
    RunTracks(p, Fresh(clock), before, a.key);
    var s := AfterRun(p, Fresh(clock), before);
    DrainsWhileWaiting(p, s, a, others, again);
    AllowedExactly(p, AfterRun(p, Step(p, s, a), others), again);
    if others == [] { assert a.key in Step(p, s, a).attempts; }
  }

  lemma {:induction false} NoneLive(times: seq<int>, start: int)
    requires forall i :: 0 <= i < |times| ==> times[i] <= start
    ensures Live(times, start) == []
  {
    if times != [] { NoneLive(times[1..], start); }
  }

  lemma {:induction false} LiveBounded(times: seq<int>, start: int, hi: int)
    requires forall i :: 0 <= i < |times| ==> times[i] <= hi
    ensures forall i :: 0 <= i < |Live(times, start)| ==> Live(times, start)[i] <= hi
  {
    if times != [] { LiveBounded(times[1..], start, hi); }
  }

  /** When no other attempt comes, everything stored has left the window one window length later. */
  lemma AllExpired(attempts: Attempts, clock: int, earlier: int, start: int)
    requires clock <= start
    requires forall k, i :: k in attempts && 0 <= i < |attempts[k]| ==> attempts[k][i] <= clock
    ensures Evicted(Evicted(attempts, earlier), start) == map[]
  {
    var kept := Evicted(attempts, earlier);
    forall k | k in kept ensures Live(kept[k], start) == [] {
      LiveBounded(attempts[k], earlier, clock);
      NoneLive(kept[k], start);
    }
  }

  lemma StoredBefore(p: Policy, clock: int, before: seq<Attempt>, k: Key)
    requires ValidPolicy(p) && Ordered(clock, before)
    ensures var s := AfterRun(p, Fresh(clock), before);
      forall i :: 0 <= i < |Stored(s.attempts, k)| ==> Stored(s.attempts, k)[i] <= s.clock
  {
    RunTracks(p, Fresh(clock), before, k);
  }

  /** After a denial because the tracker is full, waiting the reported time with no other attempt makes room
      for the key. */
  lemma WaitingMakesRoom(p: Policy, clock: int, before: seq<Attempt>, a: Attempt, again: Attempt)
    requires ValidPolicy(p) && Ordered(clock, before) && again.key == a.key
    requires var s := AfterRun(p, Fresh(clock), before);
      && s.clock <= a.now && !OverLimit(p, s, a) && !Consume(p, s.attempts, a.key, a.now).1.allowed
      && again.now >= a.now + 1000 * Consume(p, s.attempts, a.key, a.now).1.retryAfterSeconds
    ensures var s := AfterRun(p, Fresh(clock), before);
      Consume(p, Step(p, s, a).attempts, again.key, again.now).1.allowed
  {
    var s := AfterRun(p, Fresh(clock), before);
    forall k ensures forall i :: 0 <= i < |Stored(s.attempts, k)| ==> Stored(s.attempts, k)[i] <= s.clock {
      StoredBefore(p, clock, before, k);
    }
    WaitedOut(p, s, a, again);
  }

  lemma WaitedOut(p: Policy, s: Sys, a: Attempt, again: Attempt)
    requires ValidPolicy(p) && again.key == a.key && s.clock <= a.now && !OverLimit(p, s, a)
    requires !Consume(p, s.attempts, a.key, a.now).1.allowed
    requires again.now >= a.now + 1000 * Consume(p, s.attempts, a.key, a.now).1.retryAfterSeconds
    requires forall k :: forall i :: 0 <= i < |Stored(s.attempts, k)| ==> Stored(s.attempts, k)[i] <= s.clock
    ensures Consume(p, Step(p, s, a).attempts, again.key, again.now).1.allowed
  {
    forall k, i | k in s.attempts && 0 <= i < |s.attempts[k]| ensures s.attempts[k][i] <= s.clock {
      assert Stored(s.attempts, k)[i] <= s.clock;
    }
    AllExpired(s.attempts, s.clock, a.now - p.windowMs, again.now - p.windowMs);
    RoomAgain(p, s.attempts, a, again);
  }

  lemma RoomAgain(p: Policy, attempts: Attempts, a: Attempt, again: Attempt)
    requires ValidPolicy(p) && again.key == a.key && !Consume(p, attempts, a.key, a.now).1.allowed
    requires |Live(Stored(attempts, a.key), a.now - p.windowMs)| < p.limit
    requires Evicted(Evicted(attempts, a.now - p.windowMs), again.now - p.windowMs) == map[]
    ensures Consume(p, Consume(p, attempts, a.key, a.now).0, again.key, again.now).1.allowed
  {
  }
}
