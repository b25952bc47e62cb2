/** lib/redis.ts: the `cache` helper over the key-value store. Values are kept as the
    JSON they were serialised to; each entry expires at an absolute time in seconds.
    `available` stands for "the connection variables are set and the store answers":
    when it is false every helper degrades to a miss or a no-op instead of throwing. */
module Cache {
  import opened Types
  import opened Json

  /** `CACHE_DURATION`, in seconds. */
  const AnalyticsTtl: nat := 15 * 60
  const TestSuitesTtl: nat := 30 * 60
  const ProjectMetadataTtl: nat := 60 * 60
  const TestCasesTtl: nat := 10 * 60

  datatype Entry = Entry(value: JsValue, expiresAt: int)

  type Entries = map<string, Entry>

  /** What `get` sees: the stored value until its expiry, nothing afterwards. */
  function Visible(entries: Entries, now: int, key: string): (r: Option<JsValue>)
    ensures r.Some? <==> key in entries && now < entries[key].expiresAt
    ensures r.Some? ==> r.value == entries[key].value
  {
    if key in entries && now < entries[key].expiresAt then Some(entries[key].value) else None
  }

  /** `SETEX key ttl value`; a non-positive ttl is an error, which `set` swallows. */
  function Stored(entries: Entries, now: int, key: string, value: JsValue, ttl: int): (r: Entries)
    ensures ttl <= 0 ==> r == entries
    ensures ttl > 0 ==> r == entries[key := Entry(value, now + ttl)]
  {
    if ttl <= 0 then entries else entries[key := Entry(value, now + ttl)]
  }

  /** A glob `prefix*`, the only shape of pattern the routes pass to `delPattern`. */
  predicate MatchesPrefixGlob(key: string, prefix: string)
  {
    prefix <= key
  }

  /** The entries left after deleting every key that matches `prefix*`. */
  function WithoutPrefix(entries: Entries, prefix: string): (r: Entries)
    ensures forall k :: k in r <==> k in entries && !MatchesPrefixGlob(k, prefix)
    ensures forall k :: k in r ==> r[k] == entries[k]
  {
    map k | k in entries && !MatchesPrefixGlob(k, prefix) :: entries[k]
  }

  /** After set(k, v, t), get(k) returns v until t seconds have passed and nothing afterwards;
      other keys read as before. */
  lemma SetThenGet(entries: Entries, now: int, key: string, value: JsValue, ttl: int, later: int, other: string)
    requires ttl > 0 && other != key
    ensures Visible(Stored(entries, now, key, value, ttl), later, key) == if later < now + ttl then Some(value) else None
    ensures Visible(Stored(entries, now, key, value, ttl), later, other) == Visible(entries, later, other)
  {
  }

  /** delPattern(prefix*) hides exactly the matching keys and leaves every other read unchanged. */
  lemma DelPatternReads(entries: Entries, now: int, prefix: string, key: string)
    ensures Visible(WithoutPrefix(entries, prefix), now, key) ==
      if MatchesPrefixGlob(key, prefix) then None else Visible(entries, now, key)
  {
  }

  /** Invalidating a prefix twice is the same as once; with no match it changes nothing. */
  lemma DelPatternIdempotent(entries: Entries, prefix: string)
    ensures WithoutPrefix(WithoutPrefix(entries, prefix), prefix) == WithoutPrefix(entries, prefix)
    ensures (forall k :: k in entries ==> !MatchesPrefixGlob(k, prefix)) ==> WithoutPrefix(entries, prefix) == entries
  {
  }

  /** The cache helper together with the store it talks to. */
  class RedisCache {
    var entries: Entries
    var now: int
    var available: bool

    constructor(start: int, up: bool)
      ensures entries == map[] && now == start && available == up
    {
      entries := map[];
      now := start;
      available := up;
    }

    /** `cache.get(key)`: the live value, or null when absent, expired or on any error. */
    method Get(key: string) returns (r: Option<JsValue>)
      ensures r == if available then Visible(entries, now, key) else None
    {
      if !available {
        return None;
      }
      if key in entries && now < entries[key].expiresAt {
        r := Some(entries[key].value);
      } else {
        r := None;
      }
    }

    /** `cache.set(key, value, expirationSeconds)`. */
    method Set(key: string, value: JsValue, expirationSeconds: int)
      modifies this
      ensures now == old(now) && available == old(available)
      ensures entries == if available then Stored(old(entries), now, key, value, expirationSeconds) else old(entries)
    {
      if available && expirationSeconds > 0 {
        entries := entries[key := Entry(value, now + expirationSeconds)];
      }
    }

    /** `cache.del(key)`: only key goes. */
    method Del(key: string)
      modifies this
      ensures now == old(now) && available == old(available)
      ensures entries == if available then old(entries) - {key} else old(entries)
    {
      if available {
        entries := entries - {key};
      }
    }

    /** `cache.delPattern(prefix + "*")`: KEYS, then DEL of whatever matched. */
    method DelPattern(prefix: string)
      modifies this
      ensures now == old(now) && available == old(available)
      ensures entries == if available then WithoutPrefix(old(entries), prefix) else old(entries)
    {
      if !available {
        return;
      }
      var keys := set k | k in entries && MatchesPrefixGlob(k, prefix);
      if keys != {} {
        entries := entries - keys;
      }
      assert forall k :: k in entries <==> k in old(entries) && k !in keys;
      assert entries.Keys == WithoutPrefix(old(entries), prefix).Keys;
    }

    /** The clock moves forward. */
    method Tick(seconds: nat)
      modifies this
      ensures now == old(now) + seconds
      ensures entries == old(entries) && available == old(available)
    {
      now := now + seconds;
    }
  }
}
