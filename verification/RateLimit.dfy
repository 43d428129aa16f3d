/**
 Two rate limiters: a sliding window that keeps the accepted call times of each key, and fixed buckets
 counted in Redis with INCR and EXPIRE.  Clocks do not go back.
 */
module RateLimit {
  import opened Basics

  /** How many of these times lie in [lo, hi). */
  function CountIn(times: seq<real>, lo: real, hi: real): nat {
    if times == [] then 0
    else CountIn(times[..|times| - 1], lo, hi) + if lo <= times[|times| - 1] < hi then 1 else 0
  }

  /** How many of these times are later than `cutoff`. */
  function CountAfter(times: seq<real>, cutoff: real): nat {
    if times == [] then 0
    else CountAfter(times[..|times| - 1], cutoff) + if times[|times| - 1] > cutoff then 1 else 0
  }

  predicate Ascending(times: seq<real>) {
    forall i, j :: 0 <= i < j < |times| ==> times[i] <= times[j]
  }

  // ---------------------------------------------------------------- the sliding window

  /** Drop the leading times that are not later than `cutoff`. */
  function Pruned(times: seq<real>, cutoff: real): seq<real> {
    if times != [] && times[0] <= cutoff then Pruned(times[1..], cutoff) else times
  }

  function Serve(times: seq<real>, now: real, max: nat, window: real): (seq<real>, bool) {
    var kept := Pruned(times, now - window);
    if |kept| >= max then (kept, false) else (kept + [now], true)
  }

  const MAX_KEYS: nat := 10000

  /** The key whose last call is furthest back; a key without calls counts as the most recent. */
  predicate Oldest(calls: map<string, seq<real>>, key: string) {
    key in calls
    && forall k :: k in calls && calls[k] != [] ==>
      calls[key] != [] && calls[key][|calls[key]| - 1] <= calls[k][|calls[k]| - 1]
  }

  class RateLimiter {
    const maxCalls: nat
    const window: real
    var calls: map<string, seq<real>>

    constructor (maxCalls: nat, window: real)
      requires maxCalls >= 1 && window > 0.0
      ensures this.maxCalls == maxCalls && this.window == window && calls == map[]
    {
      this.maxCalls := maxCalls;
      this.window := window;
      calls := map[];
    }

    method OldestKey() returns (oldest: string)
      requires calls != map[]
      ensures Oldest(calls, oldest)
    {
      oldest :| oldest in calls;
      var rest := calls.Keys - {oldest};
      while rest != {}
        invariant oldest in calls && rest <= calls.Keys
        invariant forall k :: k in calls && k !in rest && calls[k] != [] ==>
          calls[oldest] != [] && calls[oldest][|calls[oldest]| - 1] <= calls[k][|calls[k]| - 1]
        decreases |rest|
      {
        var k :| k in rest;
        rest := rest - {k};
        if calls[k] != [] {
          if calls[oldest] == [] || calls[k][|calls[k]| - 1] < calls[oldest][|calls[oldest]| - 1] { oldest := k; }
        }
      }
    }

    /** A tracked key is served from its own times; a new one takes the place of the oldest when the table is
        full. */
    method IsAllowed(key: string, now: real) returns (ok: bool)
      modifies this
      ensures key in old(calls) ==> (calls, ok) == (old(calls)[key := Serve(old(calls)[key], now, maxCalls, window).0],
                                                    Serve(old(calls)[key], now, maxCalls, window).1)
      ensures key !in old(calls) && |old(calls)| < 10000 ==>
        calls == old(calls)[key := Serve([], now, maxCalls, window).0] && ok == Serve([], now, maxCalls, window).1
      ensures key !in old(calls) && |old(calls)| >= 10000 ==>
        (exists k :: Oldest(old(calls), k) && calls == (old(calls) - {k})[key := Serve([], now, maxCalls, window).0])
        && ok == Serve([], now, maxCalls, window).1
    {
      if key !in calls && |calls| >= MAX_KEYS {
        assert calls != map[];
        var oldest := OldestKey();
        calls := calls - {oldest};
      }
      var queue := if key in calls then calls[key] else [];
      ghost var start := queue;
      var cutoff := now - window;
      while queue != [] && queue[0] <= cutoff
        invariant Pruned(start, cutoff) == Pruned(queue, cutoff)
      {
        queue := queue[1..];
      }
      if |queue| >= maxCalls {
        calls := calls[key := queue];
        return false;
      }
      calls := calls[key := queue + [now]];
      return true;
    }

    method Remaining(key: string, now: real) returns (n: nat)
      ensures n == Left(if key in calls then calls[key] else [], now, maxCalls, window)
    {
      var queue := if key in calls then calls[key] else [];
      var active := 0;
      assert queue[..|queue|] == queue;
      for i := 0 to |queue|
        invariant active == CountAfter(queue[..i], now - window)
      {
        assert queue[..i + 1][..i] == queue[..i];
        if queue[i] > now - window { active := active + 1; }
      }
      n := if maxCalls > active then maxCalls - active else 0;
    }
  }

  function Left(times: seq<real>, now: real, max: nat, window: real): nat {
    var active := CountAfter(times, now - window);
    if max > active then max - active else 0
  }

  /** All accepted times of one key that is never evicted, and what the limiter keeps of them. */
  datatype Trace = Trace(accepted: seq<real>, kept: seq<real>)

  function Step(t: Trace, now: real, max: nat, window: real): Trace {
    var (kept, ok) := Serve(t.kept, now, max, window);
    Trace(if ok then t.accepted + [now] else t.accepted, kept)
  }

  function Traced(requests: seq<real>, max: nat, window: real): Trace {
    if requests == [] then Trace([], [])
    else Step(Traced(requests[..|requests| - 1], max, window), requests[|requests| - 1], max, window)
  }

  /** What is kept is the end of the accepted times; what was dropped is out of the window at `now`. */
  predicate KeptOk(t: Trace, now: real, window: real) {
    |t.kept| <= |t.accepted| && t.kept == t.accepted[|t.accepted| - |t.kept|..]
    && Ascending(t.accepted) && (forall i :: 0 <= i < |t.accepted| ==> t.accepted[i] <= now)
    && forall i :: 0 <= i < |t.accepted| - |t.kept| ==> t.accepted[i] <= now - window
  }

  /** Any `max` + 1 accepted calls in a row take at least one window. */
  predicate Spread(accepted: seq<real>, max: nat, window: real) {
    forall i :: 0 <= i && i + max < |accepted| ==> accepted[i + max] - accepted[i] >= window
  }

  lemma SuffixOfSuffix(s: seq<real>, m: nat, n: nat)
    requires n <= m <= |s|
    ensures s[|s| - m..][m - n..] == s[|s| - n..]
  {
  }

  lemma {:induction false} PrunedIs(times: seq<real>, cutoff: real)
    requires Ascending(times)
    ensures var kept := Pruned(times, cutoff);
      |kept| <= |times| && kept == times[|times| - |kept|..] && |kept| == CountAfter(times, cutoff)
      && forall i :: 0 <= i < |times| - |kept| ==> times[i] <= cutoff
    decreases |times|
  {
    if times != [] && times[0] <= cutoff {
      var rest, kept := times[1..], Pruned(times, cutoff);
      PrunedIs(rest, cutoff);
      CountTail(times, cutoff);
      hide CountAfter, Ascending;
      SuffixOfSuffix(times, |rest|, |kept|);
      forall i | 0 <= i < |times| - |kept| ensures times[i] <= cutoff {
        if i > 0 { assert times[i] == rest[i - 1]; }
      }
    } else {
      forall i | 0 <= i < |times| ensures times[i] > cutoff { assert times[0] <= times[i]; }
      AllAfter(times, cutoff);
    }
  }

  lemma {:induction false} CountTail(times: seq<real>, cutoff: real)
    requires times != []
    ensures CountAfter(times, cutoff) == CountAfter(times[1..], cutoff) + if times[0] > cutoff then 1 else 0
    decreases |times|
  {
    if |times| > 1 {
      CountTail(times[..|times| - 1], cutoff);
      assert times[..|times| - 1][1..] == times[1..][..|times| - 2];
    } else {
      assert times[1..] == [] && times[..0] == [];
    }
  }

  lemma {:induction false} AllAfter(times: seq<real>, cutoff: real)
    requires forall i :: 0 <= i < |times| ==> times[i] > cutoff
    ensures CountAfter(times, cutoff) == |times|
  {
    if times != [] { AllAfter(times[..|times| - 1], cutoff); }
  }

  lemma {:induction false} NoneAfter(times: seq<real>, cutoff: real)
    requires forall i :: 0 <= i < |times| ==> times[i] <= cutoff
    ensures CountAfter(times, cutoff) == 0
  {
    if times != [] { NoneAfter(times[..|times| - 1], cutoff); }
  }

  lemma {:induction false} CountConcat(a: seq<real>, b: seq<real>, cutoff: real)
    ensures CountAfter(a + b, cutoff) == CountAfter(a, cutoff) + CountAfter(b, cutoff)
  {
    if b == [] {
      assert a + b == a;
    } else {
      assert (a + b)[..|a + b| - 1] == a + b[..|b| - 1];
      CountConcat(a, b[..|b| - 1], cutoff);
    }
  }

  /** What was dropped does not count any more. */
  lemma KeptCounts(t: Trace, now: real, window: real)
    requires KeptOk(t, now, window)
    ensures CountAfter(t.accepted, now - window) == CountAfter(t.kept, now - window) && Ascending(t.kept)
  {
    hide CountAfter;
    var k := |t.accepted| - |t.kept|;
    assert t.accepted == t.accepted[..k] + t.kept;
    CountConcat(t.accepted[..k], t.kept, now - window);
    NoneAfter(t.accepted[..k], now - window);
  }

  lemma Later(t: Trace, before: real, now: real, window: real)
    requires KeptOk(t, before, window) && before <= now
    ensures KeptOk(t, now, window)
  {
  }

  /** Pruning drops exactly what has left the window. */
  lemma PruneTrace(t: Trace, now: real, window: real)
    requires KeptOk(t, now, window)
    ensures KeptOk(Trace(t.accepted, Pruned(t.kept, now - window)), now, window)
    ensures |Pruned(t.kept, now - window)| == CountAfter(t.accepted, now - window)
    ensures CountAfter(t.kept, now - window) == CountAfter(t.accepted, now - window)
  {
    hide CountAfter, Pruned;
    var kept, n := Pruned(t.kept, now - window), |t.accepted|;
    KeptCounts(t, now, window);
    PrunedIs(t.kept, now - window);
    forall i | 0 <= i < n - |kept| ensures t.accepted[i] <= now - window {
      if i >= n - |t.kept| { assert t.accepted[i] == t.kept[i - (n - |t.kept|)]; }
    }
    SuffixOfSuffix(t.accepted, |t.kept|, |kept|);
  }

  lemma AppendTrace(t: Trace, now: real, window: real)
    requires KeptOk(t, now, window)
    ensures KeptOk(Trace(t.accepted + [now], t.kept + [now]), now, window)
  {
    var n, next := |t.accepted|, t.accepted + [now];
    assert next[n - |t.kept|..] == t.accepted[n - |t.kept|..] + [now];
    assert forall i :: 0 <= i < n ==> next[i] == t.accepted[i];
  }

  lemma AppendSpread(t: Trace, now: real, max: nat, window: real)
    requires KeptOk(t, now, window) && |t.kept| < max && Spread(t.accepted, max, window)
    ensures Spread(t.accepted + [now], max, window)
  {
    var n, next := |t.accepted|, t.accepted + [now];
    forall i | 0 <= i && i + max < |next| ensures next[i + max] - next[i] >= window {
      if i + max < n {
        assert t.accepted[i + max] - t.accepted[i] >= window;
        assert next[i + max] == t.accepted[i + max] && next[i] == t.accepted[i];
      } else {
        assert t.accepted[i] <= now - window;
      }
    }
  }

  lemma StepOk(t: Trace, now: real, max: nat, window: real)
    requires KeptOk(t, now, window) && max >= 1 && window > 0.0
    ensures KeptOk(Step(t, now, max, window), now, window)
    ensures Spread(t.accepted, max, window) ==> Spread(Step(t, now, max, window).accepted, max, window)
  {
    hide KeptOk, Pruned, CountAfter, Spread;
    var pruned := Trace(t.accepted, Pruned(t.kept, now - window));
    PruneTrace(t, now, window);
    if |pruned.kept| < max {
      AppendTrace(pruned, now, window);
      if Spread(t.accepted, max, window) { AppendSpread(pruned, now, max, window); }
    }
  }

  lemma {:induction false} TraceOk(requests: seq<real>, max: nat, window: real, now: real)
    requires Ascending(requests + [now]) && max >= 1 && window > 0.0
    ensures KeptOk(Traced(requests, max, window), now, window) && Spread(Traced(requests, max, window).accepted, max, window)
    decreases |requests|
  {
    if requests != [] {
      var front, last := requests[..|requests| - 1], requests[|requests| - 1];
      assert requests == front + [last];
      var all := requests + [now];
      assert all[|requests| - 1] == last && all[|requests|] == now;
      assert forall i :: 0 <= i < |requests| ==> requests[i] == all[i];
      assert Ascending(front + [last]);
      TraceOk(front, max, window, last);
      var t := Traced(front, max, window);
      StepOk(t, last, max, window);
      Later(Step(t, last, max, window), last, now, window);
    }
  }

  /** A call is accepted exactly when fewer than `max` calls were accepted in the window that ends now, which
      is when `remaining` is positive. */
  lemma AcceptedIffRemaining(requests: seq<real>, now: real, max: nat, window: real)
    requires Ascending(requests + [now]) && max >= 1 && window > 0.0
    ensures var t := Traced(requests, max, window);
      Serve(t.kept, now, max, window).1 == (CountAfter(t.accepted, now - window) < max)
      && (Serve(t.kept, now, max, window).1 <==> Left(t.kept, now, max, window) > 0)
  {
    hide KeptOk, Pruned, CountAfter, Spread, Traced;
    var t := Traced(requests, max, window);
    TraceOk(requests, max, window, now);
    PruneTrace(t, now, window);
  }

  lemma {:induction false} CountNone(times: seq<real>, lo: real, hi: real)
    requires forall i :: 0 <= i < |times| ==> times[i] < lo || times[i] >= hi
    ensures CountIn(times, lo, hi) == 0
  {
    if times != [] { CountNone(times[..|times| - 1], lo, hi); }
  }

  lemma {:induction false} CountAtMost(times: seq<real>, lo: real, hi: real)
    ensures CountIn(times, lo, hi) <= |times|
  {
    if times != [] { CountAtMost(times[..|times| - 1], lo, hi); }
  }

  lemma {:induction false} CountJoin(a: seq<real>, b: seq<real>, lo: real, hi: real)
    ensures CountIn(a + b, lo, hi) == CountIn(a, lo, hi) + CountIn(b, lo, hi)
  {
    if b == [] {
      assert a + b == a;
    } else {
      assert (a + b)[..|a + b| - 1] == a + b[..|b| - 1];
      CountJoin(a, b[..|b| - 1], lo, hi);
    }
  }

  /** With the last time inside the interval, only the last `max` can be. */
  lemma LastOnes(accepted: seq<real>, max: nat, window: real, lo: real)
    requires Ascending(accepted) && Spread(accepted, max, window) && |accepted| > max
    requires accepted[|accepted| - 1] < lo + window
    ensures CountIn(accepted, lo, lo + window) <= max
  {
    hide CountIn, Spread, Ascending;
    var n := |accepted|;
    var past, recent := accepted[..n - max], accepted[n - max..];
    assert accepted == past + recent;
    PastOnes(accepted, past, max, window, lo);
    CountJoin(past, recent, lo, lo + window);
    CountNone(past, lo, lo + window);
    CountAtMost(recent, lo, lo + window);
  }

  lemma PastOnes(accepted: seq<real>, past: seq<real>, max: nat, window: real, lo: real)
    requires Ascending(accepted) && Spread(accepted, max, window) && |accepted| > max
    requires accepted[|accepted| - 1] < lo + window
    requires past == accepted[..|accepted| - max]
    ensures forall i :: 0 <= i < |past| ==> past[i] < lo
  {
    var k := |accepted| - 1 - max;
    assert accepted[k + max] - accepted[k] >= window;
    forall i | 0 <= i < |past| ensures past[i] < lo { assert accepted[i] <= accepted[k]; }
  }

  /** Spread-out times: no half-open interval of one window holds more than `max` of them. */
  lemma {:induction false} SpreadBounds(accepted: seq<real>, max: nat, window: real, lo: real)
    requires Ascending(accepted) && Spread(accepted, max, window)
    ensures CountIn(accepted, lo, lo + window) <= max
    decreases |accepted|
  {
    if |accepted| <= max {
      CountAtMost(accepted, lo, lo + window);
    } else if accepted[|accepted| - 1] >= lo + window {
      var front := accepted[..|accepted| - 1];
      assert Ascending(front) && Spread(front, max, window);
      SpreadBounds(front, max, window, lo);
    } else {
      LastOnes(accepted, max, window, lo);
    }
  }

  /** For every trace of requests the sliding window accepts at most `max` calls in every half-open interval
      of its length. */
  lemma SlidingBound(requests: seq<real>, max: nat, window: real, lo: real)
    requires Ascending(requests) && max >= 1 && window > 0.0
    ensures CountIn(Traced(requests, max, window).accepted, lo, lo + window) <= max
    ensures Spread(Traced(requests, max, window).accepted, max, window)
  {
    if requests != [] {
      var last := requests[|requests| - 1];
      var all := requests + [last];
      forall i, j | 0 <= i < j < |all| ensures all[i] <= all[j] {
        if i < |requests| { assert requests[i] <= last; }
      }
      TraceOk(requests, max, window, last);
      SpreadBounds(Traced(requests, max, window).accepted, max, window, lo);
    }
  }

  // ---------------------------------------------------------------- fixed buckets

  datatype Counter = Counter(count: nat, expires: real)

  function BucketOf(t: real, window: real): int
    requires window > 0.0
  {
    (t / window).Floor
  }

  /** The count of a key that has not expired. */
  function Current(store: map<int, Counter>, bucket: int, now: real): nat {
    if bucket in store && store[bucket].expires > now then store[bucket].count else 0
  }

  /** INCR, then EXPIRE to the whole seconds of the window plus one. */
  function Incr(store: map<int, Counter>, now: real, window: real): map<int, Counter>
    requires window > 0.0
  {
    var b := BucketOf(now, window);
    store[b := Counter(Current(store, b, now) + 1, now + (window.Floor + 1) as real)]
  }

  function LimitOf(maxPerWindow: int): nat {
    if maxPerWindow > 1 then maxPerWindow else 1
  }

  method CheckKeyed(store: map<int, Counter>, now: real, maxPerWindow: int, window: real)
    returns (store': map<int, Counter>, ok: bool)
    requires window > 0.0
    ensures store' == Incr(store, now, window)
    ensures store'[BucketOf(now, window)].expires == now + (window.Floor + 1) as real
    ensures ok ==
      var b := BucketOf(now, window);
      var before := if b in store && store[b].expires > now then store[b].count else 0;
      before < if maxPerWindow > 1 then maxPerWindow else 1
  {
    var limit := if maxPerWindow > 1 then maxPerWindow else 1;
    var bucket := BucketOf(now, window);
    var count := Current(store, bucket, now) + 1;
    store' := store[bucket := Counter(count, now + (window.Floor + 1) as real)];
    ok := count <= limit;
  }

  datatype Fixed = Fixed(store: map<int, Counter>, accepted: seq<real>)

  function FixedRun(requests: seq<real>, limit: nat, window: real): Fixed
    requires window > 0.0
  {
    if requests == [] then Fixed(map[], [])
    else
      var f, now := FixedRun(requests[..|requests| - 1], limit, window), requests[|requests| - 1];
      Fixed(Incr(f.store, now, window),
            if Current(f.store, BucketOf(now, window), now) < limit then f.accepted + [now] else f.accepted)
  }

  function InBucket(times: seq<real>, b: int, window: real): nat
    requires window > 0.0
  {
    if times == [] then 0
    else InBucket(times[..|times| - 1], b, window) + if BucketOf(times[|times| - 1], window) == b then 1 else 0
  }

  /** Where a bucket begins. */
  function BucketStart(b: int, window: real): real {
    b as real * window
  }

  lemma FloorBounds(q: real)
    ensures q.Floor as real <= q < (q.Floor + 1) as real
  {
  }

  lemma BucketBounds(t: real, window: real)
    requires window > 0.0
    ensures BucketStart(BucketOf(t, window), window) <= t < BucketStart(BucketOf(t, window) + 1, window)
  {
    var q := t / window;
    var above := (q.Floor + 1) as real;
    FloorBounds(q);
    MulOrder(q.Floor as real, q, window);
    MulStrict(q, above, window);
    assert q * window == t;
    assert t < above * window;
    assert BucketStart(BucketOf(t, window) + 1, window) == above * window;
  }

  lemma StartOrder(a: int, b: int, window: real)
    requires window > 0.0
    ensures a <= b ==> BucketStart(a, window) <= BucketStart(b, window)
    ensures BucketStart(a + 1, window) == BucketStart(a, window) + window
  {
    if a <= b { MulOrder(a as real, b as real, window); }
  }

  /** Two times in one bucket are less than a window apart. */
  lemma SameBucketClose(t: real, u: real, window: real)
    requires window > 0.0 && BucketOf(t, window) == BucketOf(u, window)
    ensures u - t < window
  {
    hide BucketOf, BucketStart;
    BucketBounds(t, window);
    BucketBounds(u, window);
    StartOrder(BucketOf(t, window), 0, window);
  }

  /** Only buckets of past requests have counters. */
  lemma {:induction false} CountersArePast(requests: seq<real>, limit: nat, window: real, b: int)
    requires window > 0.0
    ensures b in FixedRun(requests, limit, window).store <==> InBucket(requests, b, window) > 0
  {
    hide BucketOf;
    if requests != [] { CountersArePast(requests[..|requests| - 1], limit, window, b); }
  }

  lemma NotYet(requests: seq<real>, window: real, now: real)
    requires window > 0.0 && Ascending(requests + [now])
    requires requests != [] ==> BucketOf(requests[|requests| - 1], window) != BucketOf(now, window)
    ensures InBucket(requests, BucketOf(now, window), window) == 0
  {
    hide BucketOf;
    if requests != [] {
      AscendingFront(requests, now);
      BucketOrder(requests[|requests| - 1], now, window);
      EarlierBuckets(requests, window, BucketOf(now, window));
    }
  }

  lemma BucketOrder(t: real, u: real, window: real)
    requires window > 0.0 && t <= u
    ensures BucketOf(t, window) <= BucketOf(u, window)
  {
    hide BucketOf, BucketStart;
    BucketBounds(t, window);
    BucketBounds(u, window);
    StartOrder(BucketOf(u, window) + 1, BucketOf(t, window), window);
  }

  lemma {:induction false} EarlierBuckets(requests: seq<real>, window: real, b: int)
    requires window > 0.0 && Ascending(requests) && (requests != [] ==> BucketOf(requests[|requests| - 1], window) < b)
    ensures InBucket(requests, b, window) == 0
  {
    hide BucketOf;
    if |requests| > 1 {
      BucketOrder(requests[|requests| - 2], requests[|requests| - 1], window);
    }
    if requests != [] { EarlierBuckets(requests[..|requests| - 1], window, b); }
  }

  /** A counter never expires within its bucket: at any time it holds the number of requests so far. */
  lemma {:induction false} CounterIs(requests: seq<real>, now: real, limit: nat, window: real)
    requires window > 0.0 && Ascending(requests + [now])
    ensures Current(FixedRun(requests, limit, window).store, BucketOf(now, window), now)
      == InBucket(requests, BucketOf(now, window), window)
    decreases |requests|
  {
    hide BucketOf;
    var b := BucketOf(now, window);
    CountersArePast(requests, limit, window, b);
    if requests != [] {
      var front, last := requests[..|requests| - 1], requests[|requests| - 1];
      AscendingFront(requests, now);
      if BucketOf(last, window) == b {
        CounterIs(front, last, limit, window);
        SameBucketClose(last, now, window);
      } else {
        NotYet(requests, window, now);
      }
    }
  }

  lemma AscendingFront(requests: seq<real>, now: real)
    requires requests != [] && Ascending(requests + [now])
    ensures requests == requests[..|requests| - 1] + [requests[|requests| - 1]] && Ascending(requests)
    ensures requests[|requests| - 1] <= now
  {
    var all := requests + [now];
    assert forall i :: 0 <= i < |requests| ==> requests[i] == all[i];
    assert all[|requests| - 1] <= all[|requests|];
  }

  lemma InBucketGrows(times: seq<real>, t: real, b: int, window: real)
    requires window > 0.0
    ensures InBucket(times + [t], b, window) == InBucket(times, b, window) + if BucketOf(t, window) == b then 1 else 0
  {
    hide BucketOf;
    assert (times + [t])[..|times|] == times;
  }

  /** One more request is accepted when its bucket has had fewer than `limit`. */
  lemma AcceptStep(front: seq<real>, last: real, limit: nat, window: real)
    requires window > 0.0 && Ascending(front + [last])
    ensures var before := FixedRun(front, limit, window).accepted;
      FixedRun(front + [last], limit, window).accepted
      == if InBucket(front, BucketOf(last, window), window) < limit then before + [last] else before
  {
    hide BucketOf, Current, Incr;
    assert (front + [last])[..|front|] == front;
    CounterIs(front, last, limit, window);
  }

  /** Of the requests in a bucket exactly the first `limit` are accepted. */
  lemma {:induction false} BucketBound(requests: seq<real>, limit: nat, window: real, b: int)
    requires window > 0.0 && Ascending(requests)
    ensures var n := InBucket(requests, b, window);
      InBucket(FixedRun(requests, limit, window).accepted, b, window) == if n < limit then n else limit
    decreases |requests|
  {
    if requests != [] {
      hide BucketOf, FixedRun, InBucket;
      var front, last := requests[..|requests| - 1], requests[|requests| - 1];
      assert requests == front + [last];
      BucketBound(front, limit, window, b);
      AcceptStep(front, last, limit, window);
      InBucketGrows(front, last, b, window);
      InBucketGrows(FixedRun(front, limit, window).accepted, last, b, window);
    }
  }

  /** A time within one window of `lo` falls in one of two buckets. */
  lemma TwoBuckets(t: real, lo: real, window: real)
    requires window > 0.0 && lo <= t < lo + window
    ensures BucketOf(t, window) == BucketOf(lo, window) || BucketOf(t, window) == BucketOf(lo, window) + 1
  {
    hide BucketOf, BucketStart;
    var b := BucketOf(lo, window);
    BucketOrder(lo, t, window);
    BucketBounds(lo, window);
    BucketBounds(t, window);
    StartOrder(b + 1, 0, window);
    StartOrder(b + 2, BucketOf(t, window), window);
  }

  lemma {:induction false} CountByBuckets(times: seq<real>, lo: real, window: real)
    requires window > 0.0
    ensures CountIn(times, lo, lo + window)
      <= InBucket(times, BucketOf(lo, window), window) + InBucket(times, BucketOf(lo, window) + 1, window)
  {
    hide BucketOf;
    if times != [] {
      CountByBuckets(times[..|times| - 1], lo, window);
      if lo <= times[|times| - 1] < lo + window { TwoBuckets(times[|times| - 1], lo, window); }
    }
  }

  /** For every trace of requests the fixed buckets accept at most twice the limit in every half-open
      interval of window length. */
  lemma FixedBound(requests: seq<real>, maxPerWindow: int, window: real, lo: real)
    requires window > 0.0 && Ascending(requests)
    ensures CountIn(FixedRun(requests, LimitOf(maxPerWindow), window).accepted, lo, lo + window) <= 2 * LimitOf(maxPerWindow)
  {
    hide BucketOf;
    var limit := LimitOf(maxPerWindow);
    BucketBound(requests, limit, window, BucketOf(lo, window));
    BucketBound(requests, limit, window, BucketOf(lo, window) + 1);
    CountByBuckets(FixedRun(requests, limit, window).accepted, lo, window);
  }

  // ---------------------------------------------------------------- the bound is reached

  function Repeated(t: real, n: nat): (r: seq<real>)
    ensures |r| == n && forall i :: 0 <= i < n ==> r[i] == t
  {
    seq(n, i => t)
  }

  lemma {:induction false} AllAccepted(requests: seq<real>, limit: nat, window: real)
    requires window > 0.0 && Ascending(requests) && forall b :: InBucket(requests, b, window) <= limit
    ensures FixedRun(requests, limit, window).accepted == requests
    decreases |requests|
  {
    hide BucketOf;
    if requests != [] {
      var front, last := requests[..|requests| - 1], requests[|requests| - 1];
      assert requests == front + [last];
      forall b ensures InBucket(front, b, window) <= limit { assert InBucket(requests, b, window) <= limit; }
      AllAccepted(front, limit, window);
      AcceptStep(front, last, limit, window);
      assert InBucket(requests, BucketOf(last, window), window) <= limit;
    }
  }

  lemma {:induction false} RepeatedCounts(front: seq<real>, t: real, n: nat, window: real, lo: real, hi: real, b: int)
    requires window > 0.0
    ensures InBucket(front + Repeated(t, n), b, window) == InBucket(front, b, window) + if BucketOf(t, window) == b then n else 0
    ensures CountIn(front + Repeated(t, n), lo, hi) == CountIn(front, lo, hi) + if lo <= t < hi then n else 0
  {
    hide BucketOf;
    var all := front + Repeated(t, n);
    if n == 0 {
      assert all == front;
    } else {
      assert all[..|all| - 1] == front + Repeated(t, n - 1);
      RepeatedCounts(front, t, n - 1, window, lo, hi, b);
    }
  }

  function Burst(limit: nat, window: real, lo: real): seq<real> {
    Repeated(lo, limit) + Repeated(window, limit)
  }

  lemma NothingCounted(lo: real, hi: real, window: real, b: int)
    requires window > 0.0
    ensures InBucket([], b, window) == 0 && CountIn([], lo, hi) == 0
  {
  }

  lemma BurstCounts(limit: nat, window: real, lo: real, gap: real, b: int)
    requires window > 0.0 && lo < window < lo + gap && BucketOf(lo, window) == 0 && BucketOf(window, window) == 1
    ensures InBucket(Burst(limit, window, lo), b, window) <= limit
    ensures CountIn(Burst(limit, window, lo), lo, lo + gap) == 2 * limit
  {
    hide BucketOf, InBucket, CountIn;
    NothingCounted(lo, lo + gap, window, b);
    var early := Repeated(lo, limit);
    assert [] + early == early;
    RepeatedCounts([], lo, limit, window, lo, lo + gap, b);
    RepeatedCounts(early, window, limit, window, lo, lo + gap, b);
  }

  /** Around a bucket boundary twice the limit is accepted within an interval as short as one likes. */
  lemma BurstDoubles(limit: nat, window: real, gap: real) returns (requests: seq<real>, lo: real)
    requires limit >= 1 && 0.0 < gap <= window
    ensures Ascending(requests) && CountIn(FixedRun(requests, limit, window).accepted, lo, lo + gap) == 2 * limit
  {
    hide BucketOf, InBucket, FixedRun, CountIn;
    lo := window - gap / 2.0;
    requests := Burst(limit, window, lo);
    EdgeBuckets(window, gap);
    forall b ensures InBucket(requests, b, window) <= limit { BurstCounts(limit, window, lo, gap, b); }
    BurstCounts(limit, window, lo, gap, 0);
    AllAccepted(requests, limit, window);
  }

  lemma EdgeBuckets(window: real, gap: real)
    requires 0.0 < gap <= window
    ensures BucketOf(window - gap / 2.0, window) == 0 && BucketOf(window, window) == 1
  {
    assert window / window == 1.0;
    var t := window - gap / 2.0;
    BucketBounds(t, window);
    var b := BucketOf(t, window);
    StartOrder(1, b, window);
    StartOrder(b + 1, 0, window);
    assert BucketStart(0, window) == 0.0 && BucketStart(1, window) == window;
  }
}
