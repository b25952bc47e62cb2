/** app/api/defects/route.ts: the filtered listing of defects (GET) and the filing of a
    defect (POST), both for admins, test leads and testers. */
module DefectsRoute {
  import opened Types
  import opened Text
  import opened Json
  import opened SqlQuery
  import opened Store
  import opened Handler
  import opened Middleware

  datatype ListParams = ListParams(projectId: Option<string>, status: Option<string>)

  /** The filters a request turns on, in the order the handler tests them. */
  function Filters(p: ListParams): (fs: seq<Filter>)
    ensures |fs| <= 2
  {
    EqualsIf("tc.project_id", p.projectId) + EqualsIf("d.status", p.status)
  }

  const ListSelect: string :=
    "SELECT d.*, tc.title as test_case_title, tc.project_id, " +
    "u1.full_name as created_by_name, u2.full_name as assigned_to_name FROM defects d " +
    "LEFT JOIN test_cases tc ON d.test_case_id = tc.id " +
    "LEFT JOIN users u1 ON d.created_by = u1.id " +
    "LEFT JOIN users u2 ON d.assigned_to = u2.id WHERE 1=1"

  const OrderText: string := " ORDER BY d.created_at DESC"

  /** The listing query: the filters' clauses, newest defect first. */
  function ListQuery(p: ListParams): Query
  {
    var q := Filtered(ListSelect, Filters(p));
    Query(q.pieces + [Sql(OrderText)], q.params)
  }

  /** Lines 12-41: the query, built clause by clause. */
  method BuildListQuery(p: ListParams) returns (q: Query)
    ensures q == ListQuery(p)
  {
    var b := new QueryBuilder(ListSelect);
    ghost var base := b.pieces;
    ghost var fs: seq<Filter> := [];
    assert base + Clauses(fs) == base;
    b.AddOptional(EqualsIf("tc.project_id", p.projectId), base, fs);
    fs := fs + EqualsIf("tc.project_id", p.projectId);
    b.AddOptional(EqualsIf("d.status", p.status), base, fs);
    fs := fs + EqualsIf("d.status", p.status);
    assert fs == Filters(p);
    b.Append(OrderText);
    q := b.Build();
  }

  /** The query binds exactly the placeholders it uses, the values of the non-empty
      filters in the order project, status, and ends with the ordering by creation time. */
  lemma ListQueryBinds(p: ListParams)
    ensures WellNumbered(ListQuery(p))
    ensures ListQuery(p).params == Present([p.projectId, p.status])
    ensures ListQuery(p).pieces[|ListQuery(p).pieces| - 1] == Sql(OrderText)
  {
    var q := Filtered(ListSelect, Filters(p));
    FilteredNumbered(ListSelect, Filters(p));
    PlaceholdersSnoc(q.pieces, Sql(OrderText));
    EqualsBindPresent("tc.project_id", p.projectId, "d.status", p.status);
  }

  /** `GET /api/defects`. */
  method ListDefects(caller: Option<User>, p: ListParams, db: Database) returns (r: Response)
    modifies db
    ensures db.up == old(db.up) && db.now == old(db.now)
    ensures Authorize(caller, Some(Executors)).Reject? ==>
      r == Authorize(caller, Some(Executors)).response && unchanged(db)
    ensures Authorize(caller, Some(Executors)).Admit? ==>
      db.log == old(db.log) + [ListQuery(p)] &&
      r == Listing("defects", if db.up then db.engine(ListQuery(p)) else None)
  {
    var gate := Authorize(caller, Some(Executors));
    if gate.Reject? {
      return gate.response;
    }
    var query := BuildListQuery(p);
    var defects := db.Select(query);
    r := Listing("defects", defects);
  }

  // ---------------------------------------------------------------------------
  // POST

  /** The request body; a field the client left out is None. */
  datatype NewDefect = NewDefect(
    testExecutionId: Option<JsValue>, testCaseId: Option<JsValue>, title: Option<string>,
    description: Option<string>, severity: Option<JsValue>, assignedTo: Option<JsValue>)

  /** Lines 57-66: the default severity, the required fields and the sanitised texts. */
  function CheckNewDefect(u: User, body: NewDefect): (d: Decision<DefectFields>)
    ensures d.Refuse? <==> !Given(body.testCaseId) || !GivenText(body.title)
    ensures d.Refuse? ==> d.response == ErrorResponse(400, "Test case ID and title are required")
    ensures d.Accept? ==>
      d.value.title == SanitizeText(body.title.value) && NoAngles(d.value.title) &&
      d.value.description == SanitizeOptional(body.description) && NoAnglesOptional(d.value.description)
    ensures d.Accept? ==> d.value.createdBy == u.id && d.value.testCaseId == body.testCaseId.value
    ensures d.Accept? ==> d.value.severity == if body.severity.None? then Str("Medium") else body.severity.value
  {
    if !Given(body.testCaseId) || !GivenText(body.title) then
      Refuse(ErrorResponse(400, "Test case ID and title are required"))
    else
      SanitisedHasNoAngles(body.title.value, body.description);
      Accept(DefectFields(
        OrNull(body.testExecutionId), body.testCaseId.value, SanitizeText(body.title.value),
        SanitizeOptional(body.description), Default(body.severity, Str("Medium")),
        u.id, OrNull(body.assignedTo)))
  }

  function DefectJson(rec: Record<DefectFields>): JsValue
  {
    var f := rec.fields;
    Object(map[
      "id" := Num(rec.id), "test_execution_id" := f.testExecutionId, "test_case_id" := f.testCaseId,
      "title" := Str(f.title), "description" := TextOrNull(f.description), "severity" := f.severity,
      "created_by" := Num(f.createdBy), "assigned_to" := f.assignedTo])
  }

  /** `POST /api/defects`. */
  method CreateDefect(caller: Option<User>, body: NewDefect, db: Database) returns (r: Response)
    requires db.defects.Valid()
    modifies db.defects
    ensures db.defects.Valid()
    ensures Authorize(caller, Some(Executors)).Reject? ==>
      r == Authorize(caller, Some(Executors)).response && unchanged(db.defects)
    ensures Authorize(caller, Some(Executors)).Admit? && CheckNewDefect(caller.value, body).Refuse? ==>
      r == CheckNewDefect(caller.value, body).response && unchanged(db.defects)
    ensures Authorize(caller, Some(Executors)).Admit? && CheckNewDefect(caller.value, body).Accept? && !db.up ==>
      r == InternalError && unchanged(db.defects)
    ensures Authorize(caller, Some(Executors)).Admit? && CheckNewDefect(caller.value, body).Accept? && db.up ==>
      var rec := Record(old(db.defects.nextId), CheckNewDefect(caller.value, body).value);
      db.defects.rows == old(db.defects.rows) + [rec] && db.defects.nextId == rec.id + 1 &&
      r == Response(201, Object(map["defect" := DefectJson(rec)]))
  {
    var gate := Authorize(caller, Some(Executors));
    if gate.Reject? {
      return gate.response;
    }
    var checked := CheckNewDefect(gate.user, body);
    if checked.Refuse? {
      return checked.response;
    }
    if !db.up {
      return InternalError;
    }
    var id := db.defects.Insert(checked.value);
    r := Response(201, Object(map["defect" := DefectJson(Record(id, checked.value))]));
  }
}
