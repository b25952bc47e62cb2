/** app/api/test-cases/route.ts: the paginated, filtered, cached listing (GET) and the
    creation of a test case with its steps (POST). Query-string values arrive as
    `searchParams.get(..)` strings or null; `page` and `limit` as the numbers
    `parseInt` made of them (None when the parameter is absent or empty). */
module TestCasesRoute {
  import opened Types
  import opened Text
  import opened Json
  import opened SqlQuery
  import opened Store
  import opened Cache
  import opened Handler
  import opened Middleware
  import RateLimit

  datatype ListParams = ListParams(
    projectId: Option<string>, priority: Option<string>, kind: Option<string>,
    search: Option<string>, assignedTo: Option<string>,
    page: Option<int>, limit: Option<int>)

  /** `parseInt(searchParams.get("page") || "1")`. */
  function Page(p: ListParams): int
  {
    if p.page.Some? then p.page.value else 1
  }

  /** `parseInt(searchParams.get("limit") || "20")`. */
  function Limit(p: ListParams): int
  {
    if p.limit.Some? then p.limit.value else 20
  }

  function Offset(p: ListParams): (offset: int)
    ensures p.page.None? ==> offset == 0
    ensures offset == (Page(p) - 1) * Limit(p)
  {
    (Page(p) - 1) * Limit(p)
  }

  // ---------------------------------------------------------------------------
  // The queries

  function SearchIf(v: Option<string>): (fs: seq<Filter>)
    ensures |fs| <= 1
  {
    if GivenText(v) then [Search(v.value)] else []
  }

  /** The filters a request turns on, in the order the handler tests them. */
  function Filters(p: ListParams): (fs: seq<Filter>)
    ensures |fs| <= 5
  {
    EqualsIf("tc.project_id", p.projectId) + EqualsIf("tc.priority", p.priority) +
    EqualsIf("tc.type", p.kind) + SearchIf(p.search) + EqualsIf("tc.assigned_to", p.assignedTo)
  }

  const ListSelect: string :=
    "SELECT tc.*, u1.full_name as created_by_name, u2.full_name as assigned_to_name, " +
    "(SELECT COUNT(*) FROM test_steps WHERE test_case_id = tc.id) as steps_count " +
    "FROM test_cases tc LEFT JOIN users u1 ON tc.created_by = u1.id " +
    "LEFT JOIN users u2 ON tc.assigned_to = u2.id WHERE 1=1"

  const CountSelect: string := "SELECT COUNT(*) as total FROM test_cases tc WHERE 1=1"

  const LimitText: string := " ORDER BY tc.created_at DESC LIMIT "
  const OffsetText: string := " OFFSET "

  /** The page query of a list of filters: their clauses, then LIMIT and OFFSET on the
      next two placeholders. */
  function PageQuery(fs: seq<Filter>, limit: int, offset: int): Query
  {
    Then(Then(Filtered(ListSelect, fs), LimitText, Num(limit)), OffsetText, Num(offset))
  }

  /** The count query of a list of filters: the same clauses and values, no LIMIT or OFFSET. */
  function TotalQuery(fs: seq<Filter>): Query
  {
    Filtered(CountSelect, fs)
  }

  function ListQuery(p: ListParams): Query
  {
    PageQuery(Filters(p), Limit(p), Offset(p))
  }

  function CountQuery(p: ListParams): Query
  {
    TotalQuery(Filters(p))
  }

  /** The five optional filters, in order, each with the next placeholder (lines 51-79 for
      the page query, 91-119 for the count query). */
  method AddFilters(b: QueryBuilder, p: ListParams)
    requires b.Valid() && b.params == []
    modifies b
    ensures b.Valid()
    ensures b.pieces == old(b.pieces) + Clauses(Filters(p)) && b.params == BoundValues(Filters(p))
  {
    ghost var base := b.pieces;
    ghost var fs: seq<Filter> := [];
    assert base + Clauses(fs) == base;
    b.AddOptional(EqualsIf("tc.project_id", p.projectId), base, fs);
    fs := fs + EqualsIf("tc.project_id", p.projectId);
    b.AddOptional(EqualsIf("tc.priority", p.priority), base, fs);
    fs := fs + EqualsIf("tc.priority", p.priority);
    b.AddOptional(EqualsIf("tc.type", p.kind), base, fs);
    fs := fs + EqualsIf("tc.type", p.kind);
    b.AddOptional(SearchIf(p.search), base, fs);
    fs := fs + SearchIf(p.search);
    b.AddOptional(EqualsIf("tc.assigned_to", p.assignedTo), base, fs);
    fs := fs + EqualsIf("tc.assigned_to", p.assignedTo);
    assert fs == Filters(p);
  }

  /** Line 81: LIMIT and OFFSET on the next two placeholders (a builder holding the filters'
      clauses becomes the page query). */
  method AddPaging(b: QueryBuilder, ghost fs: seq<Filter>, limit: int, offset: int) returns (q: Query)
    requires b.Valid() && Query(b.pieces, b.params) == Filtered(ListSelect, fs)
    modifies b
    ensures q == PageQuery(fs, limit, offset)
  {
    b.Bind(LimitText, Num(limit));
    b.Bind(OffsetText, Num(offset));
    q := b.Build();
  }

  /** Lines 36-84: the page query, built clause by clause. */
  method BuildListQuery(p: ListParams) returns (q: Query)
    ensures q == ListQuery(p)
  {
    var b := new QueryBuilder(ListSelect);
    AddFilters(b, p);
    q := AddPaging(b, Filters(p), Limit(p), Offset(p));
  }

  /** Lines 87-121: the count query, built the same way. */
  method BuildCountQuery(p: ListParams) returns (q: Query)
    ensures q == CountQuery(p)
  {
    var b := new QueryBuilder(CountSelect);
    AddFilters(b, p);
    q := b.Build();
  }

  /** Both queries of a request bind exactly the placeholders they use; the count query
      carries the page query's clauses and values, and the page query adds LIMIT and
      OFFSET as its last two placeholders. */
  lemma QueriesAgree(p: ListParams)
    ensures WellNumbered(ListQuery(p)) && WellNumbered(CountQuery(p))
    ensures var q, c := ListQuery(p), CountQuery(p);
      q.params == c.params + [Num(Limit(p)), Num(Offset(p))] &&
      q.pieces == [Sql(ListSelect)] + c.pieces[1..] +
        [Sql(LimitText), Param(|c.params| + 1)] + [Sql(OffsetText), Param(|c.params| + 2)]
  {
    var fs := Filters(p);
    FilteredNumbered(ListSelect, fs);
    FilteredNumbered(CountSelect, fs);
    var first := Then(Filtered(ListSelect, fs), LimitText, Num(Limit(p)));
    ThenNumbered(Filtered(ListSelect, fs), LimitText, Num(Limit(p)));
    ThenNumbered(first, OffsetText, Num(Offset(p)));
    assert ([Sql(CountSelect)] + Clauses(fs))[1..] == Clauses(fs);
    assert first.params + [Num(Offset(p))] == BoundValues(fs) + [Num(Limit(p)), Num(Offset(p))];
  }

  /** A filter is applied exactly when its parameter is a non-empty string, and the
      search term is bound once, wrapped in `%`. */
  lemma FilterChoice(p: ListParams)
    ensures |Filters(p)| ==
      (if GivenText(p.projectId) then 1 else 0) + (if GivenText(p.priority) then 1 else 0) +
      (if GivenText(p.kind) then 1 else 0) + (if GivenText(p.search) then 1 else 0) +
      (if GivenText(p.assignedTo) then 1 else 0)
    ensures GivenText(p.search) ==> Str("%" + p.search.value + "%") in BoundValues(Filters(p))
    ensures (!GivenText(p.projectId) && !GivenText(p.priority) && !GivenText(p.kind) &&
      !GivenText(p.search) && !GivenText(p.assignedTo)) ==>
      ListQuery(p).params == [Num(Limit(p)), Num(Offset(p))] && CountQuery(p).params == []
  {
    var fs := Filters(p);
    if GivenText(p.search) {
      var before := EqualsIf("tc.project_id", p.projectId) + EqualsIf("tc.priority", p.priority) + EqualsIf("tc.type", p.kind);
      assert fs[|before|] == Search(p.search.value);
      assert BoundValues(fs)[|before|] == Str("%" + p.search.value + "%");
    }
  }

  // ---------------------------------------------------------------------------
  // Pagination

  /** `Math.ceil(total / limit)`; a zero limit gives Infinity or NaN, which JSON prints as null. */
  function TotalPages(total: nat, limit: int): (r: Option<int>)
    ensures limit == 0 <==> r.None?
  {
    if limit > 0 then Some((total + limit - 1) / limit)
    else if limit < 0 then Some(-(total / -limit))
    else None
  }

  /** With a positive limit, the pages cover every row and the last page is not empty. */
  lemma TotalPagesCover(total: nat, limit: int)
    requires limit > 0
    ensures var pages := TotalPages(total, limit).value;
      pages >= 0 && total <= pages * limit && (total > 0 ==> (pages - 1) * limit < total) &&
      (total == 0 ==> pages == 0)
  {
    var pages := (total + limit - 1) / limit;
    var r := (total + limit - 1) % limit;
    assert total + limit - 1 == pages * limit + r;
    assert (pages - 1) * limit == pages * limit - limit;
  }

  /** Row i of the full result (0-based) is on page i / limit + 1, at that page's offset,
      and that page number never exceeds the page count. */
  lemma RowOnPage(i: nat, total: nat, limit: int)
    requires limit > 0 && i < total
    ensures var page := i / limit + 1;
      (page - 1) * limit <= i < (page - 1) * limit + limit &&
      1 <= page <= TotalPages(total, limit).value
  {
    var page := i / limit + 1;
    assert i == (i / limit) * limit + i % limit;
    TotalPagesCover(total, limit);
  }

  // ---------------------------------------------------------------------------
  // Responses

  /** `{ testCases, pagination: { page, limit, total, totalPages } }`. */
  function PageBody(p: ListParams, rows: seq<Row>, countRows: seq<Row>): (body: JsValue)
    ensures body.Object? && body.fields.Keys == {"testCases", "pagination"}
    ensures body.fields["testCases"] == RowsJson(rows)
  {
    var total := Count(countRows, "total");
    var pages := TotalPages(total, Limit(p));
    Object(map[
      "testCases" := RowsJson(rows),
      "pagination" := Object(map[
        "page" := Num(Page(p)), "limit" := Num(Limit(p)), "total" := Num(total),
        "totalPages" := if pages.Some? then Num(pages.value) else Null])])
  }

  /** A cached page served again: the page itself, marked `fromCache`. */
  function HitBody(cached: JsValue): (body: JsValue)
    ensures body.Object? && "fromCache" in body.fields && body.fields["fromCache"] == Bool(true)
    ensures cached.Object? ==> forall k :: k in cached.fields && k != "fromCache" ==> k in body.fields && body.fields[k] == cached.fields[k]
  {
    match cached
    case Object(fields) => Object(fields["fromCache" := Bool(true)])
    case _ => Object(map["testCases" := cached, "fromCache" := Bool(true)])
  }

  /** Lines 31-32 as written: the whole cached page is nested under `testCases`. */
  function HitBodyAsWritten(cached: JsValue): (body: JsValue)
    ensures body.Object? && body.fields.Keys == {"testCases", "fromCache"}
    ensures body.fields["testCases"] == cached
  {
    Object(map["testCases" := cached, "fromCache" := Bool(true)])
  }

  /** As written, a client reading `testCases` gets the row array on a miss but the whole
      page object on the following hit; with HitBody it gets the same rows both times. */
  lemma HitShape(p: ListParams, rows: seq<Row>, countRows: seq<Row>)
    ensures var miss := PageBody(p, rows, countRows);
      miss.fields["testCases"].Array? &&
      HitBodyAsWritten(miss).fields["testCases"].Object? &&
      HitBodyAsWritten(miss).fields["testCases"] != miss.fields["testCases"] &&
      HitBody(miss).fields["testCases"] == miss.fields["testCases"] &&
      HitBody(miss).fields["pagination"] == miss.fields["pagination"]
  {
  }

  // ---------------------------------------------------------------------------
  // The cache key

  /** Line 29 as written: the seven values joined by `:`, a missing one printed as "null". */
  function Show(v: Option<string>): string
  {
    if v.Some? then v.value else "null"
  }

  function CacheKeyAsWritten(p: ListParams): string
  {
    TestCasesFamily + Join([Show(p.projectId), Show(p.priority), Show(p.kind), Show(p.search),
      Show(p.assignedTo), IntToString(Page(p)), IntToString(Limit(p))], ':')
  }

  /** As written, a request without a project and one for project "null" share a key,
      although they run different queries. */
  lemma CacheKeyAsWrittenCollides()
    ensures var a := ListParams(None, None, None, None, None, None, None);
      var b := ListParams(Some("null"), None, None, None, None, None, None);
      CacheKeyAsWritten(a) == CacheKeyAsWritten(b) && ListQuery(a) != ListQuery(b)
  {
    var b := ListParams(Some("null"), None, None, None, None, None, None);
    assert |ListQuery(b).params| == 3;
  }

  /** A parameter as it enters the key: "-" when it turns no filter on, otherwise its
      length, "=" and the text itself, so that no value can run into the next one. */
  function KeyPart(v: Option<string>): (s: string)
    ensures |s| > 0
  {
    if GivenText(v) then NatToString(|v.value|) + "=" + v.value else "-"
  }

  function KeyParts(vs: seq<Option<string>>): string
  {
    if vs == [] then "" else KeyPart(vs[0]) + KeyParts(vs[1..])
  }

  /** What a parameter contributes to the request's meaning: nothing unless it is a
      non-empty string. */
  function Effective(v: Option<string>): Option<string>
  {
    if GivenText(v) then v else None
  }

  function KeyValues(p: ListParams): seq<Option<string>>
  {
    [p.projectId, p.priority, p.kind, p.search, p.assignedTo, Some(IntToString(Page(p))), Some(IntToString(Limit(p)))]
  }

  /** The key of a listing request, built so that equal keys mean equal requests. */
  function CacheKey(p: ListParams): (key: string)
    ensures TestCasesFamily <= key
  {
    TestCasesFamily + KeyParts(KeyValues(p))
  }

  /** A part starts with "-" exactly when its parameter turns nothing on. */
  lemma KeyPartHead(v: Option<string>)
    ensures KeyPart(v)[0] == '-' <==> !GivenText(v)
  {
    if GivenText(v) {
      assert KeyPart(v)[0] == NatToString(|v.value|)[0];
    }
  }

  /** The first part of a key determines what it encodes and where the rest begins. */
  lemma KeyPartSplit(a: Option<string>, b: Option<string>, r1: string, r2: string)
    requires KeyPart(a) + r1 == KeyPart(b) + r2
    ensures Effective(a) == Effective(b) && r1 == r2
  {
    var x := KeyPart(a) + r1;
    KeyPartHead(a);
    KeyPartHead(b);
    assert x[0] == KeyPart(a)[0] == KeyPart(b)[0];
    if GivenText(a) {
      LengthPrefixedSplit(a.value, b.value, r1, r2);
    } else {
      assert r1 == x[1..] == r2;
    }
  }

  lemma {:induction false} KeyPartsInjective(vs: seq<Option<string>>, ws: seq<Option<string>>)
    requires |vs| == |ws| && KeyParts(vs) == KeyParts(ws)
    ensures forall i :: 0 <= i < |vs| ==> Effective(vs[i]) == Effective(ws[i])
  {
    if vs != [] {
      KeyPartSplit(vs[0], ws[0], KeyParts(vs[1..]), KeyParts(ws[1..]));
      KeyPartsInjective(vs[1..], ws[1..]);
      forall i | 0 < i < |vs|
        ensures Effective(vs[i]) == Effective(ws[i])
      {
        assert vs[i] == vs[1..][i - 1] && ws[i] == ws[1..][i - 1];
      }
    }
  }

  /** Two requests with the same key run the same queries and report the same page and
      limit, so a cached answer is always the answer to the request that reads it. */
  lemma CacheKeySound(p: ListParams, p': ListParams)
    requires CacheKey(p) == CacheKey(p')
    ensures ListQuery(p) == ListQuery(p') && CountQuery(p) == CountQuery(p')
    ensures Page(p) == Page(p') && Limit(p) == Limit(p')
  {
    var vs, ws := KeyValues(p), KeyValues(p');
    SameLengthSplit(TestCasesFamily, KeyParts(vs), TestCasesFamily, KeyParts(ws));
    KeyPartsInjective(vs, ws);
    assert Effective(vs[5]) == Effective(ws[5]) && Effective(vs[6]) == Effective(ws[6]);
    IntToStringInjective(Page(p), Page(p'));
    IntToStringInjective(Limit(p), Limit(p'));
    FiltersOfEffective(p, p');
  }

  /** The filters of a request depend only on what its parameters turn on. */
  lemma FiltersOfEffective(p: ListParams, p': ListParams)
    requires forall i :: 0 <= i < 5 ==> Effective(KeyValues(p)[i]) == Effective(KeyValues(p')[i])
    ensures Filters(p) == Filters(p')
  {
    assert Effective(KeyValues(p)[0]) == Effective(KeyValues(p')[0]);
    assert Effective(KeyValues(p)[1]) == Effective(KeyValues(p')[1]);
    assert Effective(KeyValues(p)[2]) == Effective(KeyValues(p')[2]);
    assert Effective(KeyValues(p)[3]) == Effective(KeyValues(p')[3]);
    assert Effective(KeyValues(p)[4]) == Effective(KeyValues(p')[4]);
  }

  // ---------------------------------------------------------------------------
  // GET

  /** The rate-limit identifier of a reader. */
  function ReadIdentifier(u: User): string
  {
    "testcases:get:" + NatToString(u.id)
  }

  /** Whether the limiter admits the call: always when one of its store commands throws. */
  ghost predicate Admitted(limiter: map<string, RateLimit.Counter>, now: int, answered: nat, u: User)
  {
    Admits(limiter, now, answered, ReadIdentifier(u), RateLimit.TestCaseConfig)
  }

  /** The page a cache miss computes: the body, or a failure when either query throws. */
  function PageResult(p: ListParams, engine: Query -> Option<seq<Row>>, up: bool): (r: Option<JsValue>)
    ensures r.Some? <==> up && engine(ListQuery(p)).Some? && engine(CountQuery(p)).Some?
    ensures r.Some? ==> r.value == PageBody(p, engine(ListQuery(p)).value, engine(CountQuery(p)).value)
  {
    if !up || engine(ListQuery(p)).None? || engine(CountQuery(p)).None? then None
    else Some(PageBody(p, engine(ListQuery(p)).value, engine(CountQuery(p)).value))
  }

  /** The queries a cache miss puts to the database: the count query only once the page
      query has succeeded. */
  function QueriesRun(p: ListParams, engine: Query -> Option<seq<Row>>, up: bool): (qs: seq<Query>)
    ensures 1 <= |qs| <= 2 && qs[0] == ListQuery(p)
    ensures PageResult(p, engine, up).Some? ==> qs == [ListQuery(p), CountQuery(p)]
  {
    if !up || engine(ListQuery(p)).None? then [ListQuery(p)] else [ListQuery(p), CountQuery(p)]
  }

  /** Lines 35-137: a cache miss runs both queries, stores the page under the key for ten
      minutes and returns it; a failing query gives 500 and stores nothing. */
  method LoadPage(p: ListParams, cacheKey: string, cache: RedisCache, db: Database) returns (r: Response)
    modifies cache, db
    ensures cache.now == old(cache.now) && cache.available == old(cache.available)
    ensures db.up == old(db.up) && db.now == old(db.now)
    ensures db.log == old(db.log) + QueriesRun(p, db.engine, db.up)
    ensures PageResult(p, db.engine, db.up).None? ==> r == InternalError && cache.entries == old(cache.entries)
    ensures PageResult(p, db.engine, db.up).Some? ==>
      var body := PageResult(p, db.engine, db.up).value;
      r == Response(200, body) &&
      cache.entries == if cache.available then Stored(old(cache.entries), cache.now, cacheKey, body, TestCasesTtl) else old(cache.entries)
  {
    var query := BuildListQuery(p);
    var testCases := db.Select(query);
    if testCases.None? {
      return InternalError;
    }
    var countQuery := BuildCountQuery(p);
    var countResult := db.Select(countQuery);
    if countResult.None? {
      return InternalError;
    }
    var result := PageBody(p, testCases.value, countResult.value);
    cache.Set(cacheKey, result, TestCasesTtl);
    r := Response(200, result);
  }

  /** `GET /api/test-cases`. */
  method ListTestCases(caller: Option<User>, p: ListParams, limiter: RateLimit.RateLimiter, answered: nat, cache: RedisCache, db: Database)
    returns (r: Response)
    requires limiter.Valid()
    modifies limiter, cache, db
    ensures limiter.Valid() && limiter.now == old(limiter.now)
    ensures caller.Some? ==>
      limiter.counters == RateLimit.Call(old(limiter.counters), old(limiter.now), RateLimit.Key(ReadIdentifier(caller.value)), RateLimit.TestCaseConfig, answered).counters
    ensures cache.now == old(cache.now) && cache.available == old(cache.available)
    ensures db.up == old(db.up) && db.now == old(db.now)
    ensures caller.None? ==> r == Unauthorized && unchanged(limiter, cache, db)
    ensures caller.Some? && !Admitted(old(limiter.counters), old(limiter.now), answered, caller.value) ==>
      r == TooManyRequests && unchanged(cache, db)
    ensures caller.Some? && Admitted(old(limiter.counters), old(limiter.now), answered, caller.value) && old(Cached(cache, CacheKey(p))).Some? ==>
      r == Response(200, HitBody(old(Cached(cache, CacheKey(p))).value)) && unchanged(cache, db)
    ensures caller.Some? && Admitted(old(limiter.counters), old(limiter.now), answered, caller.value) && old(Cached(cache, CacheKey(p))).None? ==>
      db.log == old(db.log) + QueriesRun(p, db.engine, db.up) &&
      (PageResult(p, db.engine, db.up).None? ==> r == InternalError && cache.entries == old(cache.entries)) &&
      (PageResult(p, db.engine, db.up).Some? ==>
        r == Response(200, PageResult(p, db.engine, db.up).value) &&
        cache.entries == if cache.available then Stored(old(cache.entries), cache.now, CacheKey(p), PageResult(p, db.engine, db.up).value, TestCasesTtl) else old(cache.entries))
  {
    if caller.None? {
      return Unauthorized;
    }
    var user := caller.value;
    var outcome := limiter.RateLimit(ReadIdentifier(user), RateLimit.TestCaseConfig, answered);
    if !outcome.success {
      return TooManyRequests;
    }
    var cacheKey := CacheKey(p);
    var cached := cache.Get(cacheKey);
    if cached.Some? && Truthy(cached.value) {
      return Response(200, HitBody(cached.value));
    }
    r := LoadPage(p, cacheKey, cache, db);
  }

  // ---------------------------------------------------------------------------
  // POST

  datatype StepInput = StepInput(description: Option<JsValue>, expectedResult: Option<JsValue>)

  /** The request body; a field the client left out is None. */
  datatype NewTestCase = NewTestCase(
    projectId: Option<JsValue>, title: Option<string>, description: Option<string>,
    priority: Option<JsValue>, kind: Option<JsValue>,
    preConditions: Option<JsValue>, postConditions: Option<JsValue>,
    tags: Option<JsValue>, assignedTo: Option<JsValue>, steps: Option<seq<StepInput>>)

  /** Lines 149-169: validation, defaults and sanitisation of the row to insert. */
  function CheckNewTestCase(u: User, body: NewTestCase, now: int): (d: Decision<TestCaseFields>)
    ensures d.Refuse? <==> !Given(body.projectId) || !GivenText(body.title)
    ensures d.Refuse? ==> d.response == ErrorResponse(400, "Project ID and title are required")
    ensures d.Accept? ==> NoAngles(d.value.title) && NoAnglesOptional(d.value.description)
    ensures d.Accept? ==> d.value.title == SanitizeText(body.title.value) && d.value.createdBy == u.id
    ensures d.Accept? && body.priority.None? ==> d.value.priority == Str("Medium")
    ensures d.Accept? && body.kind.None? ==> d.value.kind == Str("Functional")
    ensures d.Accept? && body.tags.None? ==> d.value.tags == Array([])
  {
    if !Given(body.projectId) || !GivenText(body.title) then
      Refuse(ErrorResponse(400, "Project ID and title are required"))
    else
      SanitisedHasNoAngles(body.title.value, body.description);
      Accept(TestCaseFields(
        body.projectId.value, SanitizeText(body.title.value), SanitizeOptional(body.description),
        Default(body.priority, Str("Medium")), Default(body.kind, Str("Functional")),
        OrNull(body.preConditions), OrNull(body.postConditions), Default(body.tags, Array([])),
        u.id, OrNull(body.assignedTo), None, now))
  }

  /** The step rows of a new test case: numbered 1..n in the order given. */
  function StepRows(testCaseId: nat, steps: seq<StepInput>): (rows: seq<StepFields>)
    ensures |rows| == |steps|
    ensures forall i :: 0 <= i < |steps| ==> rows[i].testCaseId == testCaseId && rows[i].stepNumber == i + 1
  {
    seq(|steps|, i requires 0 <= i < |steps| =>
      StepFields(testCaseId, i + 1, OrNull(steps[i].description), OrNull(steps[i].expectedResult)))
  }

  /** Records with consecutive ids from start. */
  function Numbered<R>(start: nat, fields: seq<R>): (rs: seq<Record<R>>)
    ensures |rs| == |fields|
    ensures forall i :: 0 <= i < |fields| ==> rs[i] == Record(start + i, fields[i])
  {
    seq(|fields|, i requires 0 <= i < |fields| => Record(start + i, fields[i]))
  }

  function TestCaseJson(rec: Record<TestCaseFields>): JsValue
  {
    var f := rec.fields;
    Object(map[
      "id" := Num(rec.id), "project_id" := f.projectId, "title" := Str(f.title),
      "description" := TextOrNull(f.description), "priority" := f.priority, "type" := f.kind,
      "pre_conditions" := f.preConditions, "post_conditions" := f.postConditions, "tags" := f.tags,
      "created_by" := Num(f.createdBy), "assigned_to" := f.assignedTo])
  }

  /** Lines 187-195: one step row per input step, numbered from 1 in the order given. The
      database runs the first `accepted` inserts and throws on the next; ok says whether
      every step was stored. */
  method InsertSteps(table: Table<StepFields>, testCaseId: nat, steps: seq<StepInput>, accepted: nat) returns (ok: bool)
    requires table.Valid()
    modifies table
    ensures table.Valid()
    ensures ok <==> accepted >= |steps|
    ensures table.nextId == old(table.nextId) + (if ok then |steps| else accepted)
    ensures ok ==> table.rows == old(table.rows) + Numbered(old(table.nextId), StepRows(testCaseId, steps))
    ensures !ok ==> table.rows == old(table.rows) + Numbered(old(table.nextId), StepRows(testCaseId, steps)[..accepted])
  {
    var rows := StepRows(testCaseId, steps);
    ghost var start := table.nextId;
    for i := 0 to |steps|
      invariant table.Valid()
      invariant table.nextId == start + i
      invariant i <= accepted
      invariant table.rows == old(table.rows) + Numbered(start, rows[..i])
    {
      if i == accepted {
        return false;
      }
      var _ := table.Insert(StepFields(testCaseId, i + 1, OrNull(steps[i].description), OrNull(steps[i].expectedResult)));
      assert rows[..i + 1] == rows[..i] + [rows[i]];
    }
    assert rows[..|steps|] == rows;
    ok := true;
  }

  /** Every stored title and description is free of angle brackets. */
  predicate TestCasesClean(rows: seq<Record<TestCaseFields>>)
  {
    forall i :: 0 <= i < |rows| ==> NoAngles(rows[i].fields.title) && NoAnglesOptional(rows[i].fields.description)
  }

  /** `POST /api/test-cases`. The statements run one by one without a transaction: when
      the database throws on a step insert (`stepsAccepted` of them succeed first), the
      test case and the earlier steps stay stored, the cache is not invalidated and the
      answer is 500. */
  method CreateTestCase(caller: Option<User>, body: NewTestCase, stepsAccepted: nat, cache: RedisCache, db: Database)
    returns (r: Response)
    requires db.testCases.Valid() && db.steps.Valid()
    modifies db.testCases, db.steps, cache
    ensures db.testCases.Valid() && db.steps.Valid()
    ensures cache.now == old(cache.now) && cache.available == old(cache.available)
    ensures TestCasesClean(old(db.testCases.rows)) ==> TestCasesClean(db.testCases.rows)
    ensures Authorize(caller, Some(Writers)).Reject? ==>
      r == Authorize(caller, Some(Writers)).response && unchanged(db.testCases, db.steps, cache)
    ensures Authorize(caller, Some(Writers)).Admit? && CheckNewTestCase(caller.value, body, db.now).Refuse? ==>
      r == CheckNewTestCase(caller.value, body, db.now).response && unchanged(db.testCases, db.steps, cache)
    ensures Authorize(caller, Some(Writers)).Admit? && CheckNewTestCase(caller.value, body, db.now).Accept? && !db.up ==>
      r == InternalError && unchanged(db.testCases, db.steps, cache)
    ensures Authorize(caller, Some(Writers)).Admit? && CheckNewTestCase(caller.value, body, db.now).Accept? && db.up ==>
      var id := old(db.testCases.nextId);
      var steps := if body.steps.Some? then body.steps.value else [];
      db.testCases.rows == old(db.testCases.rows) + [Record(id, CheckNewTestCase(caller.value, body, db.now).value)] &&
      db.testCases.nextId == id + 1 &&
      db.steps.nextId == old(db.steps.nextId) + (if stepsAccepted >= |steps| then |steps| else stepsAccepted) &&
      (stepsAccepted >= |steps| ==>
        db.steps.rows == old(db.steps.rows) + Numbered(old(db.steps.nextId), StepRows(id, steps)) &&
        cache.entries == (if cache.available then WithoutPrefix(old(cache.entries), TestCasesFamily) else old(cache.entries)) &&
        r == Response(201, Object(map["testCase" := TestCaseJson(Record(id, CheckNewTestCase(caller.value, body, db.now).value))]))) &&
      (stepsAccepted < |steps| ==>
        db.steps.rows == old(db.steps.rows) + Numbered(old(db.steps.nextId), StepRows(id, steps)[..stepsAccepted]) &&
        cache.entries == old(cache.entries) &&
        r == InternalError)
  {
    var gate := Authorize(caller, Some(Writers));
    if gate.Reject? {
      return gate.response;
    }
    var user := gate.user;
    var checked := CheckNewTestCase(user, body, db.now);
    if checked.Refuse? {
      return checked.response;
    }
    if !db.up {
      return InternalError;
    }
    var fields := checked.value;
    var id := db.testCases.Insert(fields);
    var steps := if body.steps.Some? then body.steps.value else [];
    var stored := InsertSteps(db.steps, id, steps, stepsAccepted);
    if !stored {
      return InternalError;
    }
    cache.DelPattern(TestCasesFamily);
    r := Response(201, Object(map["testCase" := TestCaseJson(Record(id, fields))]));
  }
}
