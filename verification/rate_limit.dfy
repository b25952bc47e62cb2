/** lib/rate-limit.ts: a fixed-window request counter kept in the key-value store.
    The store's counters and its clock (in seconds) are the state of a RateLimiter
    object; how many of a call's store commands are answered before one throws is an
    input of each call. */
module RateLimit {
  import opened Types

  /** `RateLimitConfig`: window length in seconds and the number of requests allowed in it. */
  datatype Config = Config(interval: nat, limit: nat)

  /** `rateLimitConfigs`. */
  const AuthConfig: Config := Config(15 * 60, 5)
  const TestCaseConfig: Config := Config(60 * 60, 100)
  const ExecutionConfig: Config := Config(60 * 60, 200)
  const AnalyticsConfig: Config := Config(60 * 60, 50)

  const KeyPrefix: string := "rate_limit:"

  /** The store key of an identifier. */
  function Key(identifier: string): (k: string)
    ensures KeyPrefix <= k && k[|KeyPrefix|..] == identifier
  {
    KeyPrefix + identifier
  }

  /** Different identifiers never share a counter. */
  lemma KeyInjective(a: string, b: string)
    requires Key(a) == Key(b)
    ensures a == b
  {
    assert a == Key(a)[|KeyPrefix|..];
  }

  /** A counter and the absolute time (seconds) at which the store drops it, if any. */
  datatype Counter = Counter(count: nat, expiresAt: Option<int>)

  /** What `rateLimit` returns; reset is in milliseconds. */
  datatype Outcome = Outcome(success: bool, remaining: nat, reset: int)

  /** The counter under key as the store sees it at time now: an expired key is absent. */
  function Live(counters: map<string, Counter>, now: int, key: string): (r: Option<Counter>)
    ensures r.Some? <==> key in counters && (counters[key].expiresAt.None? || now < counters[key].expiresAt.value)
    ensures r.Some? ==> r.value == counters[key]
  {
    if key in counters && (counters[key].expiresAt.None? || now < counters[key].expiresAt.value)
    then Some(counters[key])
    else None
  }

  /** `INCR`: an absent or expired key starts again from 0, without expiry. */
  function Incremented(live: Option<Counter>): (c: Counter)
    ensures live.None? ==> c == Counter(1, None)
    ensures live.Some? ==> c.count == live.value.count + 1 && c.expiresAt == live.value.expiresAt
  {
    match live
    case None => Counter(1, None)
    case Some(old_) => Counter(old_.count + 1, old_.expiresAt)
  }

  /** `TTL` of an existing key: seconds left, or -1 when it has no expiry. */
  function SecondsLeft(c: Counter, now: int): int
  {
    if c.expiresAt.Some? then c.expiresAt.value - now else -1
  }

  /** `Math.max(0, limit - current)`. */
  function Remaining(limit: nat, count: nat): (r: nat)
    ensures r <= limit
    ensures count <= limit ==> r + count == limit
    ensures count >= limit ==> r == 0
  {
    if count <= limit then limit - count else 0
  }

  /** The store after one call, and the call's outcome. */
  datatype Admission = Admission(counters: map<string, Counter>, outcome: Outcome)

  /** One call with the store answering: increment, set the window on the first
      increment, read the time left, decide. */
  function Step(counters: map<string, Counter>, now: int, key: string, config: Config): (a: Admission)
    ensures key in a.counters && a.counters == counters[key := a.counters[key]]
    ensures a.counters[key].count == if Live(counters, now, key).Some? then counters[key].count + 1 else 1
    ensures a.counters[key].count == 1 ==> a.counters[key].expiresAt == Some(now + config.interval)
    ensures a.outcome.success <==> a.counters[key].count <= config.limit
    ensures a.outcome.remaining == Remaining(config.limit, a.counters[key].count)
  {
    var bumped := Incremented(Live(counters, now, key));
    var c := if bumped.count == 1 then Counter(1, Some(now + config.interval)) else bumped;
    var ttl := SecondsLeft(c, now);
    Admission(counters[key := c], Outcome(c.count <= config.limit, Remaining(config.limit, c.count), (now + ttl) * 1000))
  }

  /** The catch branch: the request is let through with a full allowance. */
  function FailOpen(config: Config, now: int): (o: Outcome)
    ensures o.success && o.remaining == config.limit
  {
    Outcome(true, config.limit, (now + config.interval) * 1000)
  }

  /** Outcomes of calls for one key at the given times, the store answering each. */
  function Run(counters: map<string, Counter>, key: string, config: Config, times: seq<int>): (os: seq<Outcome>)
    ensures |os| == |times|
    decreases |times|
  {
    if times == [] then []
    else
      var a := Step(counters, times[0], key, config);
      [a.outcome] + Run(a.counters, key, config, times[1..])
  }

  /** Inside a window whose counter already stands at count, the i-th further call
      is admitted iff count + i + 1 <= limit. */
  lemma {:induction false} RunWithinWindow(counters: map<string, Counter>, key: string, config: Config, times: seq<int>, expiry: int)
    requires key in counters && counters[key].count >= 1 && counters[key].expiresAt == Some(expiry)
    requires forall i :: 0 <= i < |times| ==> times[i] < expiry
    ensures forall i :: 0 <= i < |times| ==>
      (Run(counters, key, config, times)[i].success <==> counters[key].count + i + 1 <= config.limit)
  {
    if times != [] {
      var a := Step(counters, times[0], key, config);
      assert a.counters[key] == Counter(counters[key].count + 1, Some(expiry));
      var rest := Run(a.counters, key, config, times[1..]);
      RunWithinWindow(a.counters, key, config, times[1..], expiry);
      assert Run(counters, key, config, times) == [a.outcome] + rest;
      forall i | 1 <= i < |times|
        ensures Run(counters, key, config, times)[i] == rest[i - 1]
      {
      }
    }
  }

  /** Starting from no live counter, calls 1..limit inside the window are admitted and
      every later call in the same window is refused. */
  lemma FreshWindow(counters: map<string, Counter>, key: string, config: Config, times: seq<int>)
    requires |times| > 0 && Live(counters, times[0], key).None?
    requires forall i :: 0 <= i < |times| ==> times[i] < times[0] + config.interval
    ensures forall i :: 0 <= i < |times| ==>
      (Run(counters, key, config, times)[i].success <==> i + 1 <= config.limit)
  {
    var a := Step(counters, times[0], key, config);
    var rest := Run(a.counters, key, config, times[1..]);
    RunWithinWindow(a.counters, key, config, times[1..], times[0] + config.interval);
    assert Run(counters, key, config, times) == [a.outcome] + rest;
    forall i | 1 <= i < |times|
      ensures Run(counters, key, config, times)[i] == rest[i - 1]
    {
    }
  }

  /** Once the window has expired the counter restarts: the next call counts 1 and,
      with any positive limit, is admitted. */
  lemma WindowRestarts(counters: map<string, Counter>, now: int, key: string, config: Config)
    requires key in counters && counters[key].expiresAt.Some? && counters[key].expiresAt.value <= now
    ensures Step(counters, now, key, config).counters[key] == Counter(1, Some(now + config.interval))
    ensures Step(counters, now, key, config).outcome.success <==> config.limit >= 1
  {
  }

  /** Under the `auth` config, five quick calls pass and the sixth is refused. */
  lemma SixthAuthAttemptRefused(key: string, t: int)
    ensures forall i :: 0 <= i < 5 ==> Run(map[], key, AuthConfig, [t, t, t, t, t, t])[i].success
    ensures !Run(map[], key, AuthConfig, [t, t, t, t, t, t])[5].success
  {
    FreshWindow(map[], key, AuthConfig, [t, t, t, t, t, t]);
  }

  /** One call when the store answers only its first `answered` commands (INCR, then
      EXPIRE on a fresh counter, then TTL) and throws on the next: the catch lets the
      call through, keeping whatever the answered commands already changed. */
  function Call(counters: map<string, Counter>, now: int, key: string, config: Config, answered: nat): (a: Admission)
    ensures answered == 0 ==> a == Admission(counters, FailOpen(config, now))
    ensures answered >= 3 ==> a == Step(counters, now, key, config)
    ensures a.counters == counters || (key in a.counters && a.counters == counters[key := a.counters[key]])
    ensures !a.outcome.success ==> a == Step(counters, now, key, config)
    ensures a.outcome != Step(counters, now, key, config).outcome ==> a.outcome == FailOpen(config, now)
  {
    if answered == 0 then Admission(counters, FailOpen(config, now))
    else
      var bumped := Incremented(Live(counters, now, key));
      if bumped.count == 1 && answered == 1 then Admission(counters[key := bumped], FailOpen(config, now))
      else if answered == (if bumped.count == 1 then 2 else 1) then
        Admission(Step(counters, now, key, config).counters, FailOpen(config, now))
      else Step(counters, now, key, config)
  }

  /** When EXPIRE throws right after the INCR that started a counter, the call is let
      through but the counter is left at 1 with no window. */
  lemma ExpireFailureStrands(counters: map<string, Counter>, now: int, key: string, config: Config)
    requires Live(counters, now, key).None?
    ensures Call(counters, now, key, config, 1).counters[key] == Counter(1, None)
    ensures Call(counters, now, key, config, 1).outcome == FailOpen(config, now)
  {
  }

  /** A counter without a window is never reset: at any later times, the i-th further
      call is admitted iff count + i + 1 <= limit. */
  lemma {:induction false} RunWithoutWindow(counters: map<string, Counter>, key: string, config: Config, times: seq<int>)
    requires key in counters && counters[key].count >= 1 && counters[key].expiresAt.None?
    ensures forall i :: 0 <= i < |times| ==>
      (Run(counters, key, config, times)[i].success <==> counters[key].count + i + 1 <= config.limit)
  {
    if times != [] {
      var a := Step(counters, times[0], key, config);
      assert a.counters[key] == Counter(counters[key].count + 1, None);
      var rest := Run(a.counters, key, config, times[1..]);
      RunWithoutWindow(a.counters, key, config, times[1..]);
      assert Run(counters, key, config, times) == [a.outcome] + rest;
      forall i | 1 <= i < |times|
        ensures Run(counters, key, config, times)[i] == rest[i - 1]
      {
      }
    }
  }

  /** After an EXPIRE failure strands a fresh counter, the identifier gets limit - 1 more
      calls and is then refused forever, however much time passes. */
  lemma ExpireFailureLocksOut(counters: map<string, Counter>, now: int, key: string, config: Config, times: seq<int>)
    requires Live(counters, now, key).None?
    ensures Call(counters, now, key, config, 1).outcome.success
    ensures forall i :: 0 <= i < |times| ==>
      (Run(Call(counters, now, key, config, 1).counters, key, config, times)[i].success <==> i + 2 <= config.limit)
  {
    ExpireFailureStrands(counters, now, key, config);
    RunWithoutWindow(Call(counters, now, key, config, 1).counters, key, config, times);
  }

  /** The store behind the limiter: its counters and its clock. */
  class RateLimiter {
    var counters: map<string, Counter>
    var now: int

    /** Every counter the store holds has been incremented at least once. A counter need
        not have a window: EXPIRE may have failed after the INCR that created it. */
    predicate Valid()
      reads this
    {
      forall k :: k in counters ==> counters[k].count >= 1
    }

    constructor(start: int)
      ensures counters == map[] && now == start
      ensures Valid()
    {
      counters := map[];
      now := start;
    }

    /** `redis.incr(key)`. */
    method Incr(key: string) returns (current: nat)
      modifies this
      ensures now == old(now)
      ensures counters == old(counters)[key := Incremented(Live(old(counters), now, key))]
      ensures current == counters[key].count
    {
      var c := Incremented(Live(counters, now, key));
      counters := counters[key := c];
      current := c.count;
    }

    /** `redis.expire(key, seconds)` on an existing key. */
    method Expire(key: string, seconds: nat)
      requires key in counters
      modifies this
      ensures now == old(now)
      ensures counters == old(counters)[key := Counter(old(counters)[key].count, Some(now + seconds))]
    {
      counters := counters[key := Counter(counters[key].count, Some(now + seconds))];
    }

    /** `redis.ttl(key)` on an existing key. */
    method Ttl(key: string) returns (ttl: int)
      requires key in counters
      ensures ttl == SecondsLeft(counters[key], now)
    {
      var c := counters[key];
      if c.expiresAt.Some? {
        ttl := c.expiresAt.value - now;
      } else {
        ttl := -1;
      }
    }

    /** `rateLimit(identifier, config)`, with the store answering the first `answered`
        commands of the call. */
    method RateLimit(identifier: string, config: Config, answered: nat) returns (o: Outcome)
      requires Valid()
      modifies this
      ensures Valid()
      ensures now == old(now)
      ensures Admission(counters, o) == Call(old(counters), now, Key(identifier), config, answered)
    {
      var key := "rate_limit:" + identifier;
      var failOpen := Outcome(true, config.limit, (now + config.interval) * 1000);
      var left := answered;
      if left == 0 {
        return failOpen;
      }
      left := left - 1;
      var current := Incr(key);
      if current == 1 {
        if left == 0 {
          return failOpen;
        }
        left := left - 1;
        Expire(key, config.interval);
      }
      if left == 0 {
        return failOpen;
      }
      var ttl := Ttl(key);
      var remaining := if config.limit - current > 0 then config.limit - current else 0;
      o := Outcome(current <= config.limit, remaining, (now + ttl) * 1000);
    }

    /** The clock moves forward. */
    method Tick(seconds: nat)
      modifies this
      ensures now == old(now) + seconds
      ensures counters == old(counters)
    {
      now := now + seconds;
    }
  }

  // ---------------------------------------------------------------------------
  // As written, lib/rate-limit.ts imports a `redis` binding its store module never
  // exports, so `redis.incr` throws on every call and the catch branch always runs.

  /** `rateLimit` as written: every call takes the error path. */
  function RateLimitAsWritten(identifier: string, config: Config, now: int): (o: Outcome)
    ensures o == FailOpen(config, now)
  {
    FailOpen(config, now)
  }

  /** As written, call limit + 1 inside one window is still admitted, while the
      intended limiter refuses it. */
  lemma AsWrittenNeverRefuses(key: string, config: Config, t: int)
    requires config.interval > 0
    ensures RateLimitAsWritten(key, config, t).success
    ensures !Run(map[], Key(key), config, seq(config.limit + 1, _ => t))[config.limit].success
  {
    var times := seq(config.limit + 1, _ => t);
    FreshWindow(map[], Key(key), config, times);
  }
}
