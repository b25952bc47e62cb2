/** app/api/executions/route.ts: the filtered listing of test runs (GET) and the
    recording of one run (POST), both for admins, test leads and testers. */
module ExecutionsRoute {
  import opened Types
  import opened Text
  import opened Json
  import opened SqlQuery
  import opened Store
  import opened Cache
  import opened Handler
  import opened Middleware
  import RateLimit

  /** The query string; `limit` is what `parseInt` made of it (None when absent or empty). */
  datatype ListParams = ListParams(
    testCaseId: Option<string>, projectId: Option<string>, status: Option<string>, limit: Option<int>)

  /** `parseInt(searchParams.get("limit") || "50")`. */
  function Limit(p: ListParams): int
  {
    if p.limit.Some? then p.limit.value else 50
  }

  /** The filters a request turns on, in the order the handler tests them. */
  function Filters(p: ListParams): (fs: seq<Filter>)
    ensures |fs| <= 3
  {
    EqualsIf("te.test_case_id", p.testCaseId) + EqualsIf("tc.project_id", p.projectId) +
    EqualsIf("te.status", p.status)
  }

  const ListSelect: string :=
    "SELECT te.*, u.full_name as executed_by_name, tc.title as test_case_title, " +
    "tc.priority as test_case_priority FROM test_executions te " +
    "LEFT JOIN users u ON te.executed_by = u.id " +
    "LEFT JOIN test_cases tc ON te.test_case_id = tc.id WHERE 1=1"

  const LimitText: string := " ORDER BY te.executed_at DESC LIMIT "

  /** The listing query: the filters' clauses, then LIMIT on the next placeholder. */
  function ListQuery(p: ListParams): Query
  {
    Then(Filtered(ListSelect, Filters(p)), LimitText, Num(Limit(p)))
  }

  /** Lines 16-50: the query, built clause by clause. */
  method BuildListQuery(p: ListParams) returns (q: Query)
    ensures q == ListQuery(p)
  {
    var b := new QueryBuilder(ListSelect);
    AddFilters(b, p);
    b.Bind(LimitText, Num(Limit(p)));
    q := b.Build();
  }

  /** Lines 31-47: the three optional filters, in order, each with the next placeholder. */
  method AddFilters(b: QueryBuilder, p: ListParams)
    requires b.Valid() && b.params == []
    modifies b
    ensures b.Valid()
    ensures b.pieces == old(b.pieces) + Clauses(Filters(p)) && b.params == BoundValues(Filters(p))
  {
    ghost var base := b.pieces;
    ghost var fs: seq<Filter> := [];
    assert base + Clauses(fs) == base;
    b.AddOptional(EqualsIf("te.test_case_id", p.testCaseId), base, fs);
    fs := fs + EqualsIf("te.test_case_id", p.testCaseId);
    b.AddOptional(EqualsIf("tc.project_id", p.projectId), base, fs);
    fs := fs + EqualsIf("tc.project_id", p.projectId);
    b.AddOptional(EqualsIf("te.status", p.status), base, fs);
    fs := fs + EqualsIf("te.status", p.status);
    assert fs == Filters(p);
  }

  /** The query binds exactly the placeholders it uses, and the limit is the last value,
      on the last placeholder. */
  lemma ListQueryNumbered(p: ListParams)
    ensures WellNumbered(ListQuery(p))
    ensures var q := ListQuery(p);
      Placeholders(q.pieces)[|Placeholders(q.pieces)| - 1] == |q.params| && q.params[|q.params| - 1] == Num(Limit(p))
  {
    var fs := Filters(p);
    FilteredNumbered(ListSelect, fs);
    ThenNumbered(Filtered(ListSelect, fs), LimitText, Num(Limit(p)));
  }

  /** The bound values are those of the non-empty filters, in the order test case,
      project, status, then the limit. */
  lemma ListQueryBinds(p: ListParams)
    ensures ListQuery(p).params == Present([p.testCaseId, p.projectId, p.status]) + [Num(Limit(p))]
  {
    var fs := Filters(p);
    var first := EqualsIf("te.test_case_id", p.testCaseId);
    var rest := EqualsIf("tc.project_id", p.projectId) + EqualsIf("te.status", p.status);
    assert fs == first + rest;
    BoundConcat(first, rest);
    EqualsBindPresent("tc.project_id", p.projectId, "te.status", p.status);
    assert [p.testCaseId, p.projectId, p.status][1..] == [p.projectId, p.status];
  }

  /** `GET /api/executions`. */
  method ListExecutions(caller: Option<User>, p: ListParams, db: Database) returns (r: Response)
    modifies db
    ensures db.up == old(db.up) && db.now == old(db.now)
    ensures Authorize(caller, Some(Executors)).Reject? ==>
      r == Authorize(caller, Some(Executors)).response && unchanged(db)
    ensures Authorize(caller, Some(Executors)).Admit? ==>
      db.log == old(db.log) + [ListQuery(p)] &&
      r == Listing("executions", if db.up then db.engine(ListQuery(p)) else None)
  {
    var gate := Authorize(caller, Some(Executors));
    if gate.Reject? {
      return gate.response;
    }
    var query := BuildListQuery(p);
    var executions := db.Select(query);
    r := Listing("executions", executions);
  }

  // ---------------------------------------------------------------------------
  // POST

  /** The request body; a field the client left out is None. */
  datatype NewExecution = NewExecution(
    testCaseId: Option<JsValue>, testSuiteId: Option<JsValue>, status: Option<JsValue>,
    comments: Option<string>, executionTime: Option<JsValue>)

  /** The recorded outcome named by a body's status, if it names one. */
  function StatusOf(status: Option<JsValue>): (s: Option<ExecutionStatus>)
    ensures s.Some? <==> status.Some? && status.value.Str? && ParseExecutionStatus(status.value.s).Some?
    ensures s.Some? ==> status.value == Str(ExecutionStatusName(s.value))
  {
    if status.Some? && status.value.Str? then ParseExecutionStatus(status.value.s) else None
  }

  /** Lines 76-86: the required fields, then the status, then the comments. */
  function CheckNewExecution(u: User, body: NewExecution): (d: Decision<ExecutionFields>)
    ensures !Given(body.testCaseId) || !Given(body.status) ==>
      d == Refuse(ErrorResponse(400, "Test case ID and status are required"))
    ensures Given(body.testCaseId) && Given(body.status) && StatusOf(body.status).None? ==>
      d == Refuse(ErrorResponse(400, "Invalid status"))
    ensures d.Accept? <==> Given(body.testCaseId) && StatusOf(body.status).Some?
    ensures d.Accept? ==>
      d.value.executedBy == u.id && d.value.testCaseId == body.testCaseId.value &&
      body.status == Some(Str(ExecutionStatusName(d.value.status))) &&
      d.value.comments == SanitizeOptional(body.comments) && NoAnglesOptional(d.value.comments)
  {
    if !Given(body.testCaseId) || !Given(body.status) then
      Refuse(ErrorResponse(400, "Test case ID and status are required"))
    else if StatusOf(body.status).None? then
      Refuse(ErrorResponse(400, "Invalid status"))
    else
      SanitisedHasNoAngles("", body.comments);
      Accept(ExecutionFields(
        body.testCaseId.value, OrNull(body.testSuiteId), u.id, StatusOf(body.status).value,
        SanitizeOptional(body.comments), OrNull(body.executionTime)))
  }

  /** The rate-limit identifier of a recording user. */
  function CreateIdentifier(u: User): string
  {
    "executions:create:" + NatToString(u.id)
  }

  function ExecutionJson(rec: Record<ExecutionFields>): JsValue
  {
    var f := rec.fields;
    Object(map[
      "id" := Num(rec.id), "test_case_id" := f.testCaseId, "test_suite_id" := f.testSuiteId,
      "executed_by" := Num(f.executedBy), "status" := Str(ExecutionStatusName(f.status)),
      "comments" := TextOrNull(f.comments), "execution_time" := f.executionTime])
  }

  /** The entries left once a recorded run has invalidated the analytics and the
      test-case listings. */
  function AfterRecord(entries: Entries): Entries
  {
    WithoutPrefix(WithoutPrefix(entries, AnalyticsFamily), TestCasesFamily)
  }

  /** After a recorded run no analytics or test-case listing is served from the cache, and
      every other key reads as before. */
  lemma AfterRecordReads(entries: Entries, now: int, key: string)
    ensures Visible(AfterRecord(entries), now, key) ==
      if MatchesPrefixGlob(key, AnalyticsFamily) || MatchesPrefixGlob(key, TestCasesFamily) then None
      else Visible(entries, now, key)
  {
    DelPatternReads(entries, now, AnalyticsFamily, key);
    DelPatternReads(WithoutPrefix(entries, AnalyticsFamily), now, TestCasesFamily, key);
  }

  /** `POST /api/executions`. */
  method CreateExecution(caller: Option<User>, body: NewExecution, limiter: RateLimit.RateLimiter, answered: nat, cache: RedisCache, db: Database)
    returns (r: Response)
    requires limiter.Valid() && db.executions.Valid()
    modifies limiter, cache, db.executions
    ensures limiter.Valid() && db.executions.Valid()
    ensures limiter.now == old(limiter.now)
    ensures Authorize(caller, Some(Executors)).Admit? ==>
      limiter.counters == RateLimit.Call(old(limiter.counters), old(limiter.now), RateLimit.Key(CreateIdentifier(caller.value)), RateLimit.ExecutionConfig, answered).counters
    ensures cache.now == old(cache.now) && cache.available == old(cache.available)
    ensures Authorize(caller, Some(Executors)).Reject? ==>
      r == Authorize(caller, Some(Executors)).response && unchanged(limiter, cache, db.executions)
    ensures (Authorize(caller, Some(Executors)).Admit? &&
      !Admits(old(limiter.counters), old(limiter.now), answered, CreateIdentifier(caller.value), RateLimit.ExecutionConfig)) ==>
      r == TooManyRequests && unchanged(cache, db.executions)
    ensures (Authorize(caller, Some(Executors)).Admit? &&
      Admits(old(limiter.counters), old(limiter.now), answered, CreateIdentifier(caller.value), RateLimit.ExecutionConfig)) ==>
      (CheckNewExecution(caller.value, body).Refuse? ==>
        r == CheckNewExecution(caller.value, body).response && unchanged(cache, db.executions)) &&
      (CheckNewExecution(caller.value, body).Accept? && !db.up ==>
        r == InternalError && unchanged(cache, db.executions)) &&
      (CheckNewExecution(caller.value, body).Accept? && db.up ==>
        var rec := Record(old(db.executions.nextId), CheckNewExecution(caller.value, body).value);
        db.executions.rows == old(db.executions.rows) + [rec] && db.executions.nextId == rec.id + 1 &&
        cache.entries == (if cache.available then AfterRecord(old(cache.entries)) else old(cache.entries)) &&
        r == Response(201, Object(map["execution" := ExecutionJson(rec)])))
  {
    var gate := Authorize(caller, Some(Executors));
    if gate.Reject? {
      return gate.response;
    }
    var user := gate.user;
    var outcome := limiter.RateLimit(CreateIdentifier(user), RateLimit.ExecutionConfig, answered);
    if !outcome.success {
      return TooManyRequests;
    }
    var checked := CheckNewExecution(user, body);
    if checked.Refuse? {
      return checked.response;
    }
    if !db.up {
      return InternalError;
    }
    var id := db.executions.Insert(checked.value);
    cache.DelPattern(AnalyticsFamily);
    cache.DelPattern(TestCasesFamily);
    r := Response(201, Object(map["execution" := ExecutionJson(Record(id, checked.value))]));
  }
}
