/** The two rate limiters: the sliding window over a pruned list of hits, and the fixed window over
    a counter that expires. Times are reals. */
module RateLimits {
  import opened JsonValues
  import opened Sorting

  function Max(a: int, b: int): int {
    if a < b then b else a
  }

  function Capacity(maxRequests: int, burst: int): int {
    Max(1, maxRequests + Max(0, burst))
  }

  /** Python's `int(x)`. */
  function Truncate(x: real): int {
    if x >= 0.0 then x.Floor else -((-x).Floor)
  }

  datatype Decision = Accepted | Denied(retryAfter: int)

  // ---------- The sliding window ----------

  function Since(hits: seq<real>, lo: real): (r: seq<real>)
    ensures |r| <= |hits|
  {
    if hits == [] then []
    else Since(hits[..|hits| - 1], lo) + if hits[|hits| - 1] >= lo then [hits[|hits| - 1]] else []
  }

  function RetryAfter(window: nat, now: real, oldest: real): int {
    Max(1, Truncate(window as real - (now - oldest)))
  }

  /** `allow` on the hits stored for a key. */
  function Allow(hits: seq<real>, capacity: int, window: nat, now: real): (seq<real>, Decision)
    requires capacity >= 1
  {
    var recent := Since(hits, now - window as real);
    if |recent| >= capacity then (recent, Denied(RetryAfter(window, now, recent[0]))) else (recent + [now], Accepted)
  }

  class InMemoryRateLimiter {
    var requests: map<string, seq<real>>

    constructor ()
      ensures requests == map[]
    {
      requests := map[];
    }

    function Hits(key: string): seq<real>
      reads this
    {
      if key in requests then requests[key] else []
    }

    method AllowRequest(key: string, maxRequests: int, burst: int, window: nat, now: real) returns (d: Decision)
      modifies this
      ensures var (hits, decision) := Allow(old(Hits(key)), Capacity(maxRequests, burst), window, now);
              d == decision && requests == old(requests)[key := hits]
    {
      var capacity := Capacity(maxRequests, burst);
      var stored := if key in requests then requests[key] else [];
      var hits: seq<real> := [];
      for i := 0 to |stored|
        invariant hits == Since(stored[..i], now - window as real)
      {
        assert stored[..i + 1][..i] == stored[..i];
        if stored[i] >= now - window as real {
          hits := hits + [stored[i]];
        }
      }
      assert stored[..|stored|] == stored;
      if |hits| >= capacity {
        d := Denied(Max(1, Truncate(window as real - (now - hits[0]))));
      } else {
        hits := hits + [now];
        d := Accepted;
      }
      requests := requests[key := hits];
    }
  }

  /** A request at `now`, after requests at `times`. */
  ghost predicate Arrives(times: seq<real>, now: real) {
    Ascending(times) && (times != [] ==> times[|times| - 1] <= now)
  }

  /** The hits stored after requests at `times`. */
  function Stored(times: seq<real>, capacity: int, window: nat): seq<real>
    requires capacity >= 1
  {
    if times == [] then []
    else Allow(Stored(times[..|times| - 1], capacity, window), capacity, window, times[|times| - 1]).0
  }

  /** The complete log of accepted requests, if a request is accepted exactly when fewer than
      `capacity` accepted ones lie in its window. */
  function Log(times: seq<real>, capacity: int, window: nat): seq<real> {
    if times == [] then []
    else
      var log := Log(times[..|times| - 1], capacity, window);
      var now := times[|times| - 1];
      if |Since(log, now - window as real)| < capacity then log + [now] else log
  }

  lemma SinceAppend(hits: seq<real>, x: real, lo: real)
    ensures Since(hits + [x], lo) == Since(hits, lo) + if x >= lo then [x] else []
  {
    assert (hits + [x])[..|hits|] == hits;
  }

  lemma {:induction false} SinceTwice(hits: seq<real>, lo: real, later: real)
    requires lo <= later
    ensures Since(Since(hits, lo), later) == Since(hits, later)
  {
    if hits != [] {
      var before, last := hits[..|hits| - 1], hits[|hits| - 1];
      SinceTwice(before, lo, later);
      SinceAppend(Since(before, lo), last, later);
      assert Since(hits, lo) == if last >= lo then Since(before, lo) + [last] else Since(before, lo);
    }
  }

  lemma {:induction false} LogIsAscending(times: seq<real>, capacity: int, window: nat)
    requires Ascending(times)
    ensures Ascending(Log(times, capacity, window))
    ensures forall i | 0 <= i < |Log(times, capacity, window)| :: times != [] && Log(times, capacity, window)[i] <= times[|times| - 1]
  {
    if times != [] {
      LogIsAscending(times[..|times| - 1], capacity, window);
    }
  }

  /** From the last request's window on, the pruned list is the complete log. */
  lemma {:induction false} StoredIsLog(times: seq<real>, capacity: int, window: nat, stored: seq<real>, log: seq<real>, lo: real)
    requires capacity >= 1 && Ascending(times) && (times != [] ==> lo >= times[|times| - 1] - window as real)
    requires stored == Stored(times, capacity, window) && log == Log(times, capacity, window)
    ensures Since(stored, lo) == Since(log, lo)
    decreases |times|
  {
    if times != [] {
      var before, last := times[..|times| - 1], times[|times| - 1];
      var stored0, log0 := Stored(before, capacity, window), Log(before, capacity, window);
      var lo0 := last - window as real;
      StoredIsLog(before, capacity, window, stored0, log0, lo0);
      var recent := Since(log0, lo0);
      SinceTwice(log0, lo0, lo);
      if |recent| < capacity {
        assert stored == recent + [last] && log == log0 + [last];
        SinceAppend(recent, last, lo);
        SinceAppend(log0, last, lo);
      }
    }
  }

  /** What a request at `now` finds: the pruned list is the complete log's last window. */
  lemma RecentIsLog(times: seq<real>, capacity: int, window: nat, now: real)
    requires capacity >= 1 && Arrives(times, now)
    ensures Since(Stored(times, capacity, window), now - window as real) == Since(Log(times, capacity, window), now - window as real)
  {
    StoredIsLog(times, capacity, window, Stored(times, capacity, window), Log(times, capacity, window), now - window as real);
  }

  /** `allow` accepts exactly when fewer than `capacity` accepted requests lie in [now - window, now]. */
  lemma AcceptsByTheFullLog(times: seq<real>, capacity: int, window: nat, now: real)
    requires capacity >= 1 && Arrives(times, now)
    ensures Allow(Stored(times, capacity, window), capacity, window, now).1.Accepted?
            <==> |Since(Log(times, capacity, window), now - window as real)| < capacity
  {
    RecentIsLog(times, capacity, window, now);
  }

  // ---------- What the sliding window guarantees ----------

  /** The number of log entries in [lo, hi]. */
  function Between(log: seq<real>, lo: real, hi: real): nat {
    if log == [] then 0
    else Between(log[..|log| - 1], lo, hi) + if lo <= log[|log| - 1] <= hi then 1 else 0
  }

  lemma {:induction false} BetweenAtMostSince(log: seq<real>, lo: real, hi: real, from: real)
    requires from <= lo
    ensures Between(log, lo, hi) <= |Since(log, from)|
  {
    if log != [] {
      BetweenAtMostSince(log[..|log| - 1], lo, hi, from);
    }
  }

  /** No closed window of the limiter's length holds more than `capacity` accepted requests. */
  lemma {:induction false} WindowBound(times: seq<real>, capacity: int, window: nat, lo: real)
    requires capacity >= 1 && Ascending(times)
    ensures Between(Log(times, capacity, window), lo, lo + window as real) <= capacity
  {
    if times != [] {
      var before, now := times[..|times| - 1], times[|times| - 1];
      var log := Log(before, capacity, window);
      WindowBound(before, capacity, window, lo);
      assert (log + [now])[..|log|] == log;
      if now <= lo + window as real {
        BetweenAtMostSince(log, lo, lo + window as real, now - window as real);
      }
    }
  }

  lemma {:induction false} SinceBounds(hits: seq<real>, lo: real, r: seq<real>)
    requires r == Since(hits, lo)
    ensures forall i | 0 <= i < |r| :: lo <= r[i] && r[i] in hits
  {
    if hits != [] {
      var before := hits[..|hits| - 1];
      SinceBounds(before, lo, Since(before, lo));
      assert forall x | x in before :: x in hits;
    }
  }

  lemma {:induction false} SinceIsAscending(hits: seq<real>, lo: real, r: seq<real>)
    requires Ascending(hits) && r == Since(hits, lo)
    ensures Ascending(r)
  {
    if hits != [] {
      var before, last := hits[..|hits| - 1], hits[|hits| - 1];
      var r0 := Since(before, lo);
      SinceIsAscending(before, lo, r0);
      SinceBounds(before, lo, r0);
      forall i | 0 <= i < |r0| ensures r0[i] <= last {
        var j :| 0 <= j < |before| && before[j] == r0[i];
        assert hits[j] <= last;
      }
    }
  }

  /** All hits remain exactly if the oldest does. */
  lemma {:induction false} SinceKeepsAll(hits: seq<real>, lo: real)
    requires Ascending(hits) && hits != []
    ensures |Since(hits, lo)| == |hits| <==> hits[0] >= lo
  {
    var before := hits[..|hits| - 1];
    if before != [] {
      SinceKeepsAll(before, lo);
    }
  }

  lemma {:induction false} StoredAtMostCapacity(times: seq<real>, capacity: int, window: nat)
    requires capacity >= 1
    ensures |Stored(times, capacity, window)| <= capacity
  {
    if times != [] {
      StoredAtMostCapacity(times[..|times| - 1], capacity, window);
    }
  }

  lemma TruncateBounds(x: real)
    requires x >= 0.0
    ensures 0.0 <= Truncate(x) as real <= x < Truncate(x) as real + 1.0
  {
  }

  /** The state in which a request at `now` is denied. */
  ghost predicate DeniedAt(times: seq<real>, capacity: int, window: nat, now: real)
    requires capacity >= 1
  {
    Arrives(times, now) && Allow(Stored(times, capacity, window), capacity, window, now).1.Denied?
  }

  lemma HitsOfLog(log: seq<real>, lo: real, now: real, hits: seq<real>)
    requires Ascending(log) && hits == Since(log, lo) && forall i | 0 <= i < |log| :: log[i] <= now
    ensures Ascending(hits) && forall i | 0 <= i < |hits| :: lo <= hits[i] <= now
  {
    SinceIsAscending(log, lo, hits);
    SinceBounds(log, lo, hits);
  }

  lemma LogBefore(times: seq<real>, capacity: int, window: nat, now: real, log: seq<real>)
    requires Arrives(times, now) && log == Log(times, capacity, window)
    ensures Ascending(log) && forall i | 0 <= i < |log| :: log[i] <= now
  {
    LogIsAscending(times, capacity, window);
  }

  lemma RecentHits(times: seq<real>, capacity: int, window: nat, now: real, stored: seq<real>, lo: real, hits: seq<real>)
    requires capacity >= 1 && Arrives(times, now) && lo == now - window as real
    requires stored == Stored(times, capacity, window) && hits == Since(stored, lo)
    ensures Ascending(hits) && forall i | 0 <= i < |hits| :: lo <= hits[i] <= now
  {
    var log := Log(times, capacity, window);
    LogBefore(times, capacity, window, now, log);
    StoredIsLog(times, capacity, window, stored, log, lo);
    HitsOfLog(log, lo, now, hits);
  }

  lemma DeniedHits(times: seq<real>, capacity: int, window: nat, now: real, hits: seq<real>)
    requires capacity >= 1 && DeniedAt(times, capacity, window, now)
    requires hits == Since(Stored(times, capacity, window), now - window as real)
    ensures |hits| == capacity && Ascending(hits) && now - window as real <= hits[0] <= now
  {
    RecentHits(times, capacity, window, now, Stored(times, capacity, window), now - window as real, hits);
    StoredAtMostCapacity(times, capacity, window);
  }

  /** The announced delay lies between one second and the window. */
  lemma RetryAfterBounds(times: seq<real>, capacity: int, window: nat, now: real)
    requires capacity >= 1 && DeniedAt(times, capacity, window, now)
    ensures 1 <= Allow(Stored(times, capacity, window), capacity, window, now).1.retryAfter <= Max(1, window)
  {
    var hits := Since(Stored(times, capacity, window), now - window as real);
    DeniedHits(times, capacity, window, now, hits);
    TruncateBounds(window as real - (now - hits[0]));
  }

  /** A denied key that stays quiet for `delay` seconds is then accepted exactly if its oldest hit
      has left the window. */
  lemma QuietAcceptedIff(times: seq<real>, capacity: int, window: nat, now: real, delay: real)
    requires capacity >= 1 && DeniedAt(times, capacity, window, now) && delay >= 0.0
    ensures var (hits, d) := Allow(Stored(times, capacity, window), capacity, window, now);
            && |hits| > 0
            && (Allow(hits, capacity, window, now + delay).1.Accepted? <==> hits[0] < now + delay - window as real)
  {
    var hits := Since(Stored(times, capacity, window), now - window as real);
    DeniedHits(times, capacity, window, now, hits);
    SinceKeepsAll(hits, now + delay - window as real);
  }

  /** One second more than the announced delay is always enough. */
  lemma RetryAfterIsEnough(times: seq<real>, capacity: int, window: nat, now: real, delay: real)
    requires capacity >= 1 && DeniedAt(times, capacity, window, now)
    requires delay >= Allow(Stored(times, capacity, window), capacity, window, now).1.retryAfter as real + 1.0
    ensures Allow(Allow(Stored(times, capacity, window), capacity, window, now).0, capacity, window, now + delay).1.Accepted?
  {
    var hits := Since(Stored(times, capacity, window), now - window as real);
    DeniedHits(times, capacity, window, now, hits);
    TruncateBounds(window as real - (now - hits[0]));
    QuietAcceptedIff(times, capacity, window, now, delay);
  }

  lemma {:induction false} SinceAll(hits: seq<real>, lo: real)
    requires forall i | 0 <= i < |hits| :: lo <= hits[i]
    ensures Since(hits, lo) == hits
  {
    if hits != [] {
      SinceAll(hits[..|hits| - 1], lo);
    }
  }

  /** One more request, after `kept` of the same window were stored. */
  lemma OneMoreIsStored(kept: seq<real>, capacity: int, window: nat, last: real)
    requires capacity >= 1 && forall i | 0 <= i < |kept| :: last - window as real <= kept[i]
    ensures Allow(kept, capacity, window, last).0 == if |kept| >= capacity then kept else kept + [last]
    ensures Allow(kept, capacity, window, last).1.Accepted? <==> |kept| < capacity
  {
    SinceAll(kept, last - window as real);
  }

  lemma {:induction false} BurstIsStored(times: seq<real>, capacity: nat, window: nat, stored: seq<real>)
    requires capacity >= 1 && Ascending(times) && (times != [] ==> times[|times| - 1] - window as real <= times[0])
    requires stored == Stored(times, capacity, window)
    ensures stored <= times && |stored| == if |times| <= capacity then |times| else capacity
  {
    if times != [] {
      var before, last := times[..|times| - 1], times[|times| - 1];
      var kept := Stored(before, capacity, window);
      BurstIsStored(before, capacity, window, kept);
      assert forall i | 0 <= i < |kept| :: kept[i] == times[i];
      OneMoreIsStored(kept, capacity, window, last);
    }
  }

  /** Of the requests of one window the first is accepted, and so are the first `maxRequests` and the
      `burst` ones after them, and no others. A negative burst counts for nothing. */
  lemma BurstIsAccepted(times: seq<real>, maxRequests: int, burst: int, window: nat, now: real)
    requires Arrives(times, now) && (times != [] ==> now - window as real <= times[0])
    ensures Allow(Stored(times, Capacity(maxRequests, burst), window), Capacity(maxRequests, burst), window, now).1.Accepted?
            <==> times == [] || |times| < maxRequests || (burst > 0 && |times| < maxRequests + burst)
  {
    var capacity := Capacity(maxRequests, burst);
    var stored := Stored(times, capacity, window);
    BurstIsStored(times, capacity, window, stored);
    assert forall i | 0 <= i < |stored| :: stored[i] == times[i];
    OneMoreIsStored(stored, capacity, window, now);
  }

  /** The announced delay itself is not: a client that comes back after exactly 59 seconds, as told,
      is denied again. */
  lemma RetryAfterIsTooShort()
    ensures Allow(Stored([0.0], 1, 60), 1, 60, 0.5) == ([0.0], Denied(59))
    ensures Allow([0.0], 1, 60, 59.5).1.Denied?
  {
    assert [0.0][..0] == [];
    assert Since([0.0], 0.5 - 60.0) == [0.0] && Since([0.0], 59.5 - 60.0) == [0.0];
    assert Stored([], 1, 60) == [] && Since([], 0.0 - 60.0) == [];
    assert Stored([0.0], 1, 60) == [0.0];
  }

  // ---------- The fixed window ----------

  /** A counter of the store, with the time at which it expires. */
  datatype Counter = Counter(count: nat, expiresAt: Option<real>)

  type Counters = map<(int, string), Counter>

  /** INCR: a missing or expired counter starts at one, without expiry. */
  function Increment(counters: Counters, k: (int, string), now: real): Counters {
    var live := k in counters && (counters[k].expiresAt.None? || now < counters[k].expiresAt.value);
    counters[k := if live then counters[k].(count := counters[k].count + 1) else Counter(1, None)]
  }

  function SetExpiry(counters: Counters, k: (int, string), at: real): Counters {
    if k in counters then counters[k := counters[k].(expiresAt := Some(at))] else counters
  }

  function Bucket(now: real, window: int): int
    requires window > 0
  {
    (now / window as real).Floor
  }

  /** `RedisRateLimiter.allow`. */
  function AllowFixed(counters: Counters, key: string, capacity: int, window: int, now: real): (Counters, Decision)
    requires window > 0
  {
    var k := (Bucket(now, window), key);
    var incremented := Increment(counters, k, now);
    var count := incremented[k].count;
    var after := if count == 1 then SetExpiry(incremented, k, now + window as real) else incremented;
    (after, if count > capacity then Denied(Max(1, Truncate(window as real - (now - (k.0 * window) as real)))) else Accepted)
  }

  class RedisClient {
    var counters: Counters

    constructor ()
      ensures counters == map[]
    {
      counters := map[];
    }

    method Incr(k: (int, string), now: real) returns (count: nat)
      modifies this
      ensures counters == Increment(old(counters), k, now) && count == counters[k].count
    {
      if k !in counters || (counters[k].expiresAt.Some? && counters[k].expiresAt.value <= now) {
        counters := counters[k := Counter(0, None)];
      }
      counters := counters[k := counters[k].(count := counters[k].count + 1)];
      count := counters[k].count;
    }

    method Expire(k: (int, string), at: real)
      modifies this
      ensures counters == SetExpiry(old(counters), k, at)
    {
      if k in counters {
        counters := counters[k := counters[k].(expiresAt := Some(at))];
      }
    }
  }

  /** Where the store fails during a request: it is not there at all, or it fails at the expiry. */
  datatype Outage = NoOutage | AtIncrement | AtExpiry

  /** The store fails to answer: the expiry is only asked for at a counter's first increment. */
  predicate FallsBack(counters: Counters, k: (int, string), now: real, outage: Outage) {
    outage.AtIncrement? || (outage.AtExpiry? && Increment(counters, k, now)[k].count == 1)
  }

  class RedisRateLimiter {
    const client: RedisClient
    const fallback: InMemoryRateLimiter

    constructor (client: RedisClient, fallback: InMemoryRateLimiter)
      ensures this.client == client && this.fallback == fallback
    {
      this.client, this.fallback := client, fallback;
    }

    method AllowRequest(key: string, maxRequests: int, burst: int, window: int, now: real, outage: Outage) returns (d: Decision)
      requires window > 0
      modifies client, fallback
      ensures var k := (Bucket(now, window), key);
              var capacity := Capacity(maxRequests, burst);
              if FallsBack(old(client.counters), k, now, outage) then
                var (hits, decision) := Allow(old(fallback.Hits(key)), capacity, window, now);
                && d == decision && fallback.requests == old(fallback.requests)[key := hits]
                && client.counters == if outage.AtExpiry? then Increment(old(client.counters), k, now) else old(client.counters)
              else
                && (client.counters, d) == AllowFixed(old(client.counters), key, capacity, window, now)
                && fallback.requests == old(fallback.requests)
    {
      if outage.AtIncrement? {
        d := fallback.AllowRequest(key, maxRequests, burst, window, now);
        return;
      }
      var bucket := (now / window as real).Floor;
      var count := client.Incr((bucket, key), now);
      if count == 1 {
        if outage.AtExpiry? {
          d := fallback.AllowRequest(key, maxRequests, burst, window, now);
          return;
        }
        client.Expire((bucket, key), now + window as real);
      }
      if count > Capacity(maxRequests, burst) {
        d := Denied(Max(1, Truncate(window as real - (now - (bucket * window) as real))));
      } else {
        d := Accepted;
      }
    }
  }

  datatype Hit = Hit(key: string, at: real)

  function CountersAfter(hits: seq<Hit>, capacity: int, window: int): Counters
    requires window > 0
  {
    if hits == [] then map[]
    else
      var hit := hits[|hits| - 1];
      AllowFixed(CountersAfter(hits[..|hits| - 1], capacity, window), hit.key, capacity, window, hit.at).0
  }

  /** The requests of a key in a bucket. */
  function Requests(hits: seq<Hit>, k: (int, string), window: int): nat
    requires window > 0
  {
    if hits == [] then 0
    else
      var hit := hits[|hits| - 1];
      Requests(hits[..|hits| - 1], k, window) + if (Bucket(hit.at, window), hit.key) == k then 1 else 0
  }

  /** Those that were accepted. */
  function Accepts(hits: seq<Hit>, k: (int, string), capacity: int, window: int): nat
    requires window > 0
  {
    if hits == [] then 0
    else
      var hit := hits[|hits| - 1];
      var before := hits[..|hits| - 1];
      var accepted := AllowFixed(CountersAfter(before, capacity, window), hit.key, capacity, window, hit.at).1.Accepted?;
      Accepts(before, k, capacity, window) + if (Bucket(hit.at, window), hit.key) == k && accepted then 1 else 0
  }

  lemma Scaled(a: real, b: real, w: real)
    requires w > 0.0
    ensures (a < b ==> a * w < b * w) && (a <= b ==> a * w <= b * w)
  {
  }

  lemma FloorBounds(q: real)
    ensures q.Floor as real <= q < (q.Floor + 1) as real
  {
    assert (q.Floor + 1) as real == q.Floor as real + 1.0;
  }

  lemma Product(b: int, window: int)
    ensures (b * window) as real == b as real * window as real
  {
  }

  lemma QuotientBounds(now: real, w: real, q: real, b: real, next: real)
    requires w > 0.0 && q == now / w && b <= q < next
    ensures b * w <= now < next * w
  {
    assert q * w == now;
    Scaled(b, q, w);
    Scaled(q, next, w);
  }

  lemma BucketBounds(now: real, window: int)
    requires window > 0
    ensures (Bucket(now, window) * window) as real <= now < ((Bucket(now, window) + 1) * window) as real
  {
    var b, next := Bucket(now, window), Bucket(now, window) + 1;
    FloorBounds(now / window as real);
    QuotientBounds(now, window as real, now / window as real, b as real, next as real);
    Product(b, window);
    Product(next, window);
  }

  /** Counters count: the expiry set at the first increment outlives the bucket. */
  ghost predicate Exact(counters: Counters, hits: seq<Hit>, window: int)
    requires window > 0
  {
    forall b, key ::
      if Requests(hits, (b, key), window) == 0 then (b, key) !in counters
      else && (b, key) in counters && counters[(b, key)].count == Requests(hits, (b, key), window)
           && counters[(b, key)].expiresAt.Some? && ((b + 1) * window) as real <= counters[(b, key)].expiresAt.value
  }

  lemma {:induction false} CountersAreExact(hits: seq<Hit>, capacity: int, window: int)
    requires window > 0
    ensures Exact(CountersAfter(hits, capacity, window), hits, window)
  {
    if hits != [] {
      var before, hit := hits[..|hits| - 1], hits[|hits| - 1];
      CountersAreExact(before, capacity, window);
      BucketBounds(hit.at, window);
      IncrementIsExact(CountersAfter(before, capacity, window), before, hit, capacity, window);
      assert before + [hit] == hits;
    }
  }

  lemma IncrementIsExact(counters: Counters, before: seq<Hit>, hit: Hit, capacity: int, window: int)
    requires window > 0 && Exact(counters, before, window)
    ensures Exact(AllowFixed(counters, hit.key, capacity, window, hit.at).0, before + [hit], window)
    ensures var k := (Bucket(hit.at, window), hit.key);
            AllowFixed(counters, hit.key, capacity, window, hit.at).1.Accepted? <==> Requests(before, k, window) < capacity
  {
    BucketBounds(hit.at, window);
    var bucket := Bucket(hit.at, window);
    assert ((bucket + 1) * window) as real == (bucket * window) as real + window as real;
    assert (before + [hit])[..|before|] == before;
    assert Requests(before, (bucket, hit.key), window) == 0 || (bucket, hit.key) in counters;
  }

  /** The accepted requests of a key in a bucket are its first `capacity` ones. */
  lemma {:induction false} AcceptsPerBucket(hits: seq<Hit>, k: (int, string), capacity: int, window: int)
    requires window > 0 && capacity >= 1
    ensures Accepts(hits, k, capacity, window) == if Requests(hits, k, window) < capacity then Requests(hits, k, window) else capacity
  {
    if hits != [] {
      var before, hit := hits[..|hits| - 1], hits[|hits| - 1];
      AcceptsPerBucket(before, k, capacity, window);
      CountersAreExact(before, capacity, window);
      IncrementIsExact(CountersAfter(before, capacity, window), before, hit, capacity, window);
    }
  }

  /** The accepted requests of `key` in the closed window [lo, hi]. */
  function AcceptedBetween(hits: seq<Hit>, key: string, capacity: int, window: int, lo: real, hi: real): nat
    requires window > 0
  {
    if hits == [] then 0
    else
      var hit := hits[|hits| - 1];
      var before := hits[..|hits| - 1];
      var accepted := AllowFixed(CountersAfter(before, capacity, window), hit.key, capacity, window, hit.at).1.Accepted?;
      AcceptedBetween(before, key, capacity, window, lo, hi) + if hit.key == key && lo <= hit.at <= hi && accepted then 1 else 0
  }

  lemma BucketsOfWindow(at: real, lo: real, window: int)
    requires window > 0 && lo <= at <= lo + window as real
    ensures Bucket(lo, window) <= Bucket(at, window) <= Bucket(lo, window) + 1
  {
    var a, b := Bucket(at, window), Bucket(lo, window);
    BucketBounds(at, window);
    BucketBounds(lo, window);
    assert (a + 1) * window <= b * window <==> a + 1 <= b;
    assert (b + 2) * window <= a * window <==> b + 2 <= a;
    assert (b + 2) * window == (b + 1) * window + window;
  }

  lemma {:induction false} WindowInTwoBuckets(hits: seq<Hit>, key: string, capacity: int, window: int, lo: real)
    requires window > 0
    ensures AcceptedBetween(hits, key, capacity, window, lo, lo + window as real)
            <= Accepts(hits, (Bucket(lo, window), key), capacity, window) + Accepts(hits, (Bucket(lo, window) + 1, key), capacity, window)
  {
    if hits != [] {
      WindowInTwoBuckets(hits[..|hits| - 1], key, capacity, window, lo);
      var at := hits[|hits| - 1].at;
      if lo <= at <= lo + window as real {
        BucketsOfWindow(at, lo, window);
      }
    }
  }

  /** Any closed window of the limiter's length holds at most twice the capacity. */
  lemma FixedWindowBound(hits: seq<Hit>, key: string, capacity: int, window: int, lo: real)
    requires window > 0 && capacity >= 1
    ensures AcceptedBetween(hits, key, capacity, window, lo, lo + window as real) <= 2 * capacity
  {
    WindowInTwoBuckets(hits, key, capacity, window, lo);
    AcceptsPerBucket(hits, (Bucket(lo, window), key), capacity, window);
    AcceptsPerBucket(hits, (Bucket(lo, window) + 1, key), capacity, window);
  }

  /** The delay that the fixed window announces ends within the last second of the bucket, or at its
      end; if that is less than a second away, the delay is one second. */
  lemma FixedRetryAfterIs(counters: Counters, key: string, capacity: int, window: int, now: real)
    requires window > 0 && AllowFixed(counters, key, capacity, window, now).1.Denied?
    ensures var end := ((Bucket(now, window) + 1) * window) as real;
            var delay := AllowFixed(counters, key, capacity, window, now).1.retryAfter;
            && 1 <= delay <= window && end - 1.0 < now + delay as real
            && (now + delay as real <= end || (delay == 1 && end - 1.0 < now))
  {
    BucketBounds(now, window);
    var b := Bucket(now, window);
    assert ((b + 1) * window) as real == (b * window) as real + window as real;
    TruncateBounds(window as real - (now - (b * window) as real));
  }
}
