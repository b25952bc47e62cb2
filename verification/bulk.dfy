/** app/api/test-cases/bulk/route.ts: one operation applied to a list of test cases
    (admins and test leads only). `id = ANY(ids)` matches the ids the list holds as
    numbers. */
module BulkRoute {
  import opened Types
  import opened Json
  import opened Store
  import opened Cache
  import opened Handler
  import opened Middleware

  /** The request body; a field the client left out is None. */
  datatype BulkBody = BulkBody(operation: Option<JsValue>, testCaseIds: Option<JsValue>, data: Option<JsValue>)

  /** What an accepted request does to each listed row. */
  datatype Operation = Delete | SetPriority(priority: JsValue) | SetStatus(status: JsValue) | Assign(assignedTo: JsValue)

  /** An accepted request: the operation's name as sent, the listed ids, the operation. */
  datatype Bulk = Bulk(name: string, ids: set<nat>, op: Operation)

  /** `data?.key`: absent unless data is an object holding key. */
  function Field(data: Option<JsValue>, key: string): (v: Option<JsValue>)
    ensures v.Some? <==> data.Some? && data.value.Object? && key in data.value.fields
    ensures v.Some? ==> v.value == data.value.fields[key]
  {
    if data.Some? && data.value.Object? && key in data.value.fields then Some(data.value.fields[key]) else None
  }

  /** The ids an `ANY(...)` over the list matches. */
  function IdSet(items: seq<JsValue>): (ids: set<nat>)
    ensures forall n: nat :: n in ids <==> Num(n) in items
  {
    set i | 0 <= i < |items| && items[i].Num? && items[i].n >= 0 :: items[i].n as nat
  }

  /** The operation names the switch knows, with the field each requires. */
  predicate Known(name: string)
  {
    name == "delete" || name == "update_priority" || name == "update_status" || name == "assign"
  }

  function RequiredField(name: string): string
  {
    if name == "update_priority" then "priority" else if name == "update_status" then "status" else "assigned_to"
  }

  function MissingMessage(name: string): string
  {
    if name == "update_priority" then "Priority is required"
    else if name == "update_status" then "Status is required"
    else "Assigned user is required"
  }

  /** Whether the body has the shape line 12 demands. */
  predicate WellFormed(body: BulkBody)
  {
    Given(body.operation) && Given(body.testCaseIds) && body.testCaseIds.value.Array?
  }

  /** Lines 12-56 without the statements: the request format, the operation and the
      data each operation requires. */
  function ParseBulk(body: BulkBody): (d: Decision<Bulk>)
    ensures !WellFormed(body) ==> d == Refuse(ErrorResponse(400, "Invalid request format"))
    ensures WellFormed(body) && !(body.operation.value.Str? && Known(body.operation.value.s)) ==>
      d == Refuse(ErrorResponse(400, "Invalid operation"))
    ensures (WellFormed(body) && body.operation.value.Str? && Known(body.operation.value.s) &&
      body.operation.value.s != "delete" && !Given(Field(body.data, RequiredField(body.operation.value.s)))) ==>
      d == Refuse(ErrorResponse(400, MissingMessage(body.operation.value.s)))
    ensures d.Accept? ==>
      WellFormed(body) && body.operation == Some(Str(d.value.name)) && Known(d.value.name) &&
      d.value.ids == IdSet(body.testCaseIds.value.items)
    ensures d.Accept? ==> (d.value.op.Delete? <==> d.value.name == "delete")
    ensures d.Accept? && !d.value.op.Delete? ==>
      Given(Field(body.data, RequiredField(d.value.name))) &&
      Field(body.data, RequiredField(d.value.name)).value == OperandOf(d.value.op) &&
      d.value.op == Named(d.value.name, OperandOf(d.value.op))
  {
    if !WellFormed(body) then Refuse(ErrorResponse(400, "Invalid request format"))
    else
      var ids := IdSet(body.testCaseIds.value.items);
      match body.operation.value
      case Str(name) =>
        if name == "delete" then Accept(Bulk(name, ids, Delete))
        else if !Known(name) then Refuse(ErrorResponse(400, "Invalid operation"))
        else if !Given(Field(body.data, RequiredField(name))) then Refuse(ErrorResponse(400, MissingMessage(name)))
        else Accept(Bulk(name, ids, Named(name, Field(body.data, RequiredField(name)).value)))
      case _ => Refuse(ErrorResponse(400, "Invalid operation"))
  }

  /** The update a known operation name makes with a value. */
  function Named(name: string, v: JsValue): Operation
  {
    if name == "update_priority" then SetPriority(v)
    else if name == "update_status" then SetStatus(v)
    else if name == "assign" then Assign(v)
    else Delete
  }

  function OperandOf(op: Operation): JsValue
  {
    match op
    case Delete => Null
    case SetPriority(v) => v
    case SetStatus(v) => v
    case Assign(v) => v
  }

  /** `SET column = value, updated_at = CURRENT_TIMESTAMP` on one row. */
  function Change(op: Operation, now: int): TestCaseFields -> TestCaseFields
  {
    match op
    case Delete => (f: TestCaseFields) => f
    case SetPriority(v) => (f: TestCaseFields) => f.(priority := v, updatedAt := now)
    case SetStatus(v) => (f: TestCaseFields) => f.(status := Some(v), updatedAt := now)
    case Assign(v) => (f: TestCaseFields) => f.(assignedTo := v, updatedAt := now)
  }

  /** The test_cases table after the statement of an accepted request; what `delete`
      leaves is Store.KeepMembers's business. */
  function Applied(rows: seq<Record<TestCaseFields>>, b: Bulk, now: int): seq<Record<TestCaseFields>>
  {
    if b.op.Delete? then Keep(rows, b.ids) else Apply(rows, b.ids, Change(b.op, now))
  }

  /** An update keeps every row in place; a listed row gets the operation's column and
      the update time and keeps every other column; an unlisted row is untouched. */
  lemma UpdateTouchesOnlyListed(rows: seq<Record<TestCaseFields>>, b: Bulk, now: int, i: nat)
    requires !b.op.Delete? && i < |rows|
    ensures |Applied(rows, b, now)| == |rows| && Applied(rows, b, now)[i].id == rows[i].id
    ensures rows[i].id !in b.ids ==> Applied(rows, b, now)[i] == rows[i]
    ensures var f, g := rows[i].fields, Applied(rows, b, now)[i].fields;
      rows[i].id in b.ids ==>
        g.updatedAt == now &&
        (b.op.SetPriority? ==> g.priority == b.op.priority && g.(priority := f.priority, updatedAt := f.updatedAt) == f) &&
        (b.op.SetStatus? ==> g.status == Some(b.op.status) && g.(status := f.status, updatedAt := f.updatedAt) == f) &&
        (b.op.Assign? ==> g.assignedTo == b.op.assignedTo && g.(assignedTo := f.assignedTo, updatedAt := f.updatedAt) == f)
  {
  }

  /** `POST /api/test-cases/bulk`. */
  method RunBulk(caller: Option<User>, body: BulkBody, cache: RedisCache, db: Database) returns (r: Response)
    requires db.testCases.Valid()
    modifies db.testCases, cache
    ensures db.testCases.Valid()
    ensures cache.now == old(cache.now) && cache.available == old(cache.available)
    ensures Authorize(caller, Some(Writers)).Reject? ==>
      r == Authorize(caller, Some(Writers)).response && unchanged(db.testCases, cache)
    ensures Authorize(caller, Some(Writers)).Admit? && ParseBulk(body).Refuse? ==>
      r == ParseBulk(body).response && unchanged(db.testCases, cache)
    ensures Authorize(caller, Some(Writers)).Admit? && ParseBulk(body).Accept? && !db.up ==>
      r == InternalError && unchanged(db.testCases, cache)
    ensures Authorize(caller, Some(Writers)).Admit? && ParseBulk(body).Accept? && db.up ==>
      db.testCases.rows == Applied(old(db.testCases.rows), ParseBulk(body).value, db.now) &&
      db.testCases.nextId == old(db.testCases.nextId) &&
      cache.entries == (if cache.available then WithoutPrefix(old(cache.entries), TestCasesFamily) else old(cache.entries)) &&
      r == Response(200, Object(map["message" := Str("Bulk " + ParseBulk(body).value.name + " completed successfully")]))
  {
    var gate := Authorize(caller, Some(Writers));
    if gate.Reject? {
      return gate.response;
    }
    var parsed := ParseBulk(body);
    if parsed.Refuse? {
      return parsed.response;
    }
    if !db.up {
      return InternalError;
    }
    var b := parsed.value;
    if b.op.Delete? {
      db.testCases.DeleteWhere(b.ids);
    } else {
      db.testCases.UpdateWhere(b.ids, Change(b.op, db.now));
    }
    cache.DelPattern(TestCasesFamily);
    r := Response(200, Object(map["message" := Str("Bulk " + b.name + " completed successfully")]));
  }
}
