/** app/api/test-suites/route.ts: a project's suites, read through the cache (GET), and
    the creation of a suite (POST, admins and test leads only). */
module TestSuitesRoute {
  import opened Types
  import opened Text
  import opened Json
  import opened SqlQuery
  import opened Store
  import opened Cache
  import opened Handler
  import opened Middleware

  /** Line 17: one cache entry per project. */
  function SuitesKey(projectId: string): (key: string)
    ensures MatchesPrefixGlob(key, TestSuitesFamily)
  {
    TestSuitesFamily + projectId
  }

  /** Distinct projects never share an entry. */
  lemma SuitesKeyInjective(a: string, b: string)
    requires SuitesKey(a) == SuitesKey(b)
    ensures a == b
  {
    assert a == SuitesKey(a)[|TestSuitesFamily|..];
  }

  const SuitesSelect: string :=
    "SELECT ts.*, u.full_name as created_by_name, " +
    "(SELECT COUNT(*) FROM test_suite_cases WHERE test_suite_id = ts.id) as test_case_count " +
    "FROM test_suites ts LEFT JOIN users u ON ts.created_by = u.id WHERE ts.project_id = "

  const SuitesOrder: string := " ORDER BY ts.created_at DESC"

  /** Lines 23-32: the project's suites, newest first. */
  function SuitesQuery(projectId: string): (q: Query)
    ensures WellNumbered(q) && q.params == [Str(projectId)]
  {
    var q := Query([Sql(SuitesSelect), Param(1), Sql(SuitesOrder)], [Str(projectId)]);
    PlaceholdersSnoc([Sql(SuitesSelect), Param(1)], Sql(SuitesOrder));
    PlaceholdersSnoc([Sql(SuitesSelect)], Param(1));
    PlaceholdersSnoc([], Sql(SuitesSelect));
    assert [Sql(SuitesSelect)][..0] == [];
    assert [Sql(SuitesSelect), Param(1)][..1] == [Sql(SuitesSelect)];
    assert [Sql(SuitesSelect), Param(1), Sql(SuitesOrder)][..2] == [Sql(SuitesSelect), Param(1)];
    q
  }

  /** Line 20: a cached list, marked `fromCache`. */
  function HitResponse(cached: JsValue): (r: Response)
    ensures r.status == 200 && r.body.Object? && r.body.fields.Keys == {"testSuites", "fromCache"}
    ensures r.body.fields["testSuites"] == cached && r.body.fields["fromCache"] == Bool(true)
  {
    Response(200, Object(map["testSuites" := cached, "fromCache" := Bool(true)]))
  }

  /** Once a miss has stored a project's suites, a read within the next half hour is
      served from the cache and answers the same list; after a suite is created it is
      not served from the cache any more. */
  lemma ReadThroughRepeats(entries: Entries, now: int, later: int, projectId: string, rows: seq<Row>)
    requires now <= later < now + TestSuitesTtl
    ensures var stored := Stored(entries, now, SuitesKey(projectId), RowsJson(rows), TestSuitesTtl);
      Served(stored, later, true, SuitesKey(projectId)) == Some(RowsJson(rows)) &&
      HitResponse(RowsJson(rows)).body.fields["testSuites"] == Listing("testSuites", Some(rows)).body.fields["testSuites"]
    ensures Served(WithoutPrefix(entries, TestSuitesFamily), later, true, SuitesKey(projectId)).None?
  {
    ServedAfterStore(entries, now, later, SuitesKey(projectId), RowsJson(rows), TestSuitesTtl, TestSuitesFamily);
  }

  /** `GET /api/test-suites?project_id=...`. */
  method ListSuites(caller: Option<User>, projectId: Option<string>, cache: RedisCache, db: Database) returns (r: Response)
    modifies cache, db
    ensures cache.now == old(cache.now) && cache.available == old(cache.available)
    ensures db.up == old(db.up) && db.now == old(db.now)
    ensures caller.None? ==> r == Unauthorized && unchanged(cache, db)
    ensures caller.Some? && !GivenText(projectId) ==>
      r == ErrorResponse(400, "Project ID is required") && unchanged(cache, db)
    ensures caller.Some? && GivenText(projectId) && old(Cached(cache, SuitesKey(projectId.value))).Some? ==>
      r == HitResponse(old(Cached(cache, SuitesKey(projectId.value))).value) && unchanged(cache, db)
    ensures caller.Some? && GivenText(projectId) && old(Cached(cache, SuitesKey(projectId.value))).None? ==>
      var rows := if db.up then db.engine(SuitesQuery(projectId.value)) else None;
      db.log == old(db.log) + [SuitesQuery(projectId.value)] &&
      r == Listing("testSuites", rows) &&
      cache.entries == if rows.Some? && cache.available
        then Stored(old(cache.entries), cache.now, SuitesKey(projectId.value), RowsJson(rows.value), TestSuitesTtl)
        else old(cache.entries)
  {
    var gate := Authorize(caller, None);
    if gate.Reject? {
      return gate.response;
    }
    if !GivenText(projectId) {
      return ErrorResponse(400, "Project ID is required");
    }
    var cacheKey := SuitesKey(projectId.value);
    var cached := cache.Get(cacheKey);
    if cached.Some? && Truthy(cached.value) {
      return HitResponse(cached.value);
    }
    var testSuites := db.Select(SuitesQuery(projectId.value));
    if testSuites.None? {
      return InternalError;
    }
    cache.Set(cacheKey, RowsJson(testSuites.value), TestSuitesTtl);
    r := Listing("testSuites", testSuites);
  }

  // ---------------------------------------------------------------------------
  // POST

  datatype NewSuite = NewSuite(projectId: Option<JsValue>, name: Option<string>, description: Option<string>)

  /** Lines 51-56: the required fields and the sanitised texts. */
  function CheckNewSuite(u: User, body: NewSuite): (d: Decision<SuiteFields>)
    ensures d.Refuse? <==> !Given(body.projectId) || !GivenText(body.name)
    ensures d.Refuse? ==> d.response == ErrorResponse(400, "Project ID and name are required")
    ensures d.Accept? ==>
      d.value.name == SanitizeText(body.name.value) && NoAngles(d.value.name) &&
      d.value.description == SanitizeOptional(body.description) && NoAnglesOptional(d.value.description)
    ensures d.Accept? ==> d.value.createdBy == u.id && d.value.projectId == body.projectId.value
  {
    if !Given(body.projectId) || !GivenText(body.name) then
      Refuse(ErrorResponse(400, "Project ID and name are required"))
    else
      SanitisedHasNoAngles(body.name.value, body.description);
      Accept(SuiteFields(body.projectId.value, SanitizeText(body.name.value), SanitizeOptional(body.description), u.id))
  }

  function SuiteJson(rec: Record<SuiteFields>): JsValue
  {
    var f := rec.fields;
    Object(map[
      "id" := Num(rec.id), "project_id" := f.projectId, "name" := Str(f.name),
      "description" := TextOrNull(f.description), "created_by" := Num(f.createdBy)])
  }

  /** `POST /api/test-suites`. */
  method CreateSuite(caller: Option<User>, body: NewSuite, cache: RedisCache, db: Database) returns (r: Response)
    requires db.suites.Valid()
    modifies db.suites, cache
    ensures db.suites.Valid()
    ensures cache.now == old(cache.now) && cache.available == old(cache.available)
    ensures Authorize(caller, Some(Writers)).Reject? ==>
      r == Authorize(caller, Some(Writers)).response && unchanged(db.suites, cache)
    ensures Authorize(caller, Some(Writers)).Admit? && CheckNewSuite(caller.value, body).Refuse? ==>
      r == CheckNewSuite(caller.value, body).response && unchanged(db.suites, cache)
    ensures Authorize(caller, Some(Writers)).Admit? && CheckNewSuite(caller.value, body).Accept? && !db.up ==>
      r == InternalError && unchanged(db.suites, cache)
    ensures Authorize(caller, Some(Writers)).Admit? && CheckNewSuite(caller.value, body).Accept? && db.up ==>
      var rec := Record(old(db.suites.nextId), CheckNewSuite(caller.value, body).value);
      db.suites.rows == old(db.suites.rows) + [rec] && db.suites.nextId == rec.id + 1 &&
      cache.entries == (if cache.available then WithoutPrefix(old(cache.entries), TestSuitesFamily) else old(cache.entries)) &&
      r == Response(201, Object(map["testSuite" := SuiteJson(rec)]))
  {
    var gate := Authorize(caller, Some(Writers));
    if gate.Reject? {
      return gate.response;
    }
    var checked := CheckNewSuite(gate.user, body);
    if checked.Refuse? {
      return checked.response;
    }
    if !db.up {
      return InternalError;
    }
    var id := db.suites.Insert(checked.value);
    cache.DelPattern(TestSuitesFamily);
    r := Response(201, Object(map["testSuite" := SuiteJson(Record(id, checked.value))]));
  }
}
