/** What the route handlers under app/api share: the validation outcome, the 429 answer
    of the rate-limited routes, the cache key families the writes invalidate, and the
    stored-text invariant the sanitisers keep. */
module Handler {
  import opened Types
  import opened Text
  import opened Json
  import opened Cache
  import RateLimit

  /** A request body either fails validation with a response or yields what to store. */
  datatype Decision<T> = Refuse(response: Response) | Accept(value: T)

  const TooManyRequests: Response := ErrorResponse(429, "Too many requests")

  /** The key families behind `delPattern("testcases:*")` and its siblings. */
  const TestCasesFamily: string := "testcases:"
  const TestSuitesFamily: string := "testsuites:"
  const AnalyticsFamily: string := "analytics:"

  /** Whether `rateLimit(identifier, config)` lets a call through, given the counters before
      it, the store's clock and how many of the call's store commands are answered (a
      command that throws lets the call through). */
  ghost predicate Admits(counters: map<string, RateLimit.Counter>, now: int, answered: nat, identifier: string, config: RateLimit.Config)
  {
    RateLimit.Call(counters, now, RateLimit.Key(identifier), config, answered).outcome.success
  }

  /** `NextResponse.json({ [key]: rows })` after a listing query, or 500 when it threw. */
  function Listing(key: string, rows: Option<seq<Row>>): (r: Response)
    ensures rows.None? ==> r == InternalError
    ensures rows.Some? ==>
      r.status == 200 && r.body.Object? && r.body.fields.Keys == {key} && r.body.fields[key] == RowsJson(rows.value)
  {
    if rows.None? then InternalError else Response(200, Object(map[key := RowsJson(rows.value)]))
  }

  /** What `if (cached)` after `cache.get(key)` lets a read-through handler serve: the
      live value under key when it is truthy, nothing otherwise. */
  function Served(entries: Entries, now: int, available: bool, key: string): (v: Option<JsValue>)
    ensures v.Some? ==> Truthy(v.value) && v == Visible(entries, now, key)
    ensures v.None? ==> !available || Visible(entries, now, key).None? || !Truthy(Visible(entries, now, key).value)
  {
    if available && Visible(entries, now, key).Some? && Truthy(Visible(entries, now, key).value)
    then Visible(entries, now, key) else None
  }

  ghost function Cached(cache: RedisCache, key: string): (v: Option<JsValue>)
    reads cache
    ensures v.Some? ==> Truthy(v.value)
  {
    Served(cache.entries, cache.now, cache.available, key)
  }

  /** A value just stored under key is served until its time to live runs out; once its
      family is invalidated it is not served at all. */
  lemma ServedAfterStore(entries: Entries, now: int, later: int, key: string, value: JsValue, ttl: int, family: string)
    requires Truthy(value) && ttl > 0 && now <= later < now + ttl
    ensures Served(Stored(entries, now, key, value, ttl), later, true, key) == Some(value)
    ensures MatchesPrefixGlob(key, family) ==> Served(WithoutPrefix(entries, family), later, true, key).None?
  {
    DelPatternReads(entries, later, family, key);
  }

  /** The rate limiter's counters share the store with the cache, but no invalidation
      touches them: none of the three families is a prefix of a counter key. */
  lemma CountersSurviveInvalidation(identifier: string)
    ensures !MatchesPrefixGlob(RateLimit.Key(identifier), TestCasesFamily)
    ensures !MatchesPrefixGlob(RateLimit.Key(identifier), TestSuitesFamily)
    ensures !MatchesPrefixGlob(RateLimit.Key(identifier), AnalyticsFamily)
  {
    var k := RateLimit.Key(identifier);
    assert k[0] == 'r' && k[1] == 'a';
    assert TestCasesFamily[0] == 't' && TestSuitesFamily[0] == 't' && AnalyticsFamily[1] == 'n';
  }

  /** Text the sanitisers let through never holds an angle bracket. */
  predicate NoAngles(s: string)
  {
    forall i :: 0 <= i < |s| ==> s[i] != '<' && s[i] != '>'
  }

  predicate NoAnglesOptional(v: Option<string>)
  {
    v.Some? ==> NoAngles(v.value)
  }

  /** `x.trim().replace(/[<>]/g, "")` and its optional form keep the invariant, and a
      non-empty optional result is the plain sanitiser's result. */
  lemma SanitisedHasNoAngles(s: string, v: Option<string>)
    ensures NoAngles(SanitizeText(s))
    ensures NoAnglesOptional(SanitizeOptional(v))
    ensures SanitizeOptional(v).Some? ==> SanitizeOptional(v).value == SanitizeText(v.value)
  {
  }

  /** Text already free of brackets and outer white space passes the sanitiser unchanged. */
  lemma SanitizeTextKeepsClean(s: string)
    requires NoAngles(s) && Trim(s) == s
    ensures SanitizeText(s) == s
  {
  }
}
