/** The PostgreSQL tables the route handlers write, as in-memory tables of records.
    Each table hands out ids from its own sequence (a SERIAL column). Statements either
    run or fail as a whole; `up` says whether the database answers at all. The listing
    SELECTs with their joins are not interpreted: an uninterpreted `engine` answers them
    and every query put to it is logged. */
module Store {
  import opened Types
  import opened Json
  import opened SqlQuery

  datatype Record<R> = Record(id: nat, fields: R)

  /** The ids of records, in table order. */
  function Ids<R>(rows: seq<Record<R>>): (ids: seq<nat>)
    ensures |ids| == |rows|
    ensures forall i :: 0 <= i < |rows| ==> ids[i] == rows[i].id
  {
    seq(|rows|, i requires 0 <= i < |rows| => rows[i].id)
  }

  /** Ids increase along the table and stay below the next id to hand out. */
  predicate Ascending<R>(rows: seq<Record<R>>, nextId: nat)
  {
    (forall i :: 0 <= i < |rows| ==> rows[i].id < nextId) &&
    (forall i, j :: 0 <= i < j < |rows| ==> rows[i].id < rows[j].id)
  }

  /** `DELETE ... WHERE id = ANY(ids)`: the rows whose id is not listed, in table order. */
  function Keep<R>(rows: seq<Record<R>>, ids: set<nat>): (r: seq<Record<R>>)
    ensures |r| <= |rows|
  {
    if rows == [] then []
    else Keep(rows[..|rows| - 1], ids) + (if rows[|rows| - 1].id in ids then [] else [rows[|rows| - 1]])
  }

  /** A row survives deletion iff it was there and its id is not listed. */
  lemma {:induction false} KeepMembers<R>(rows: seq<Record<R>>, ids: set<nat>)
    ensures forall r :: r in Keep(rows, ids) <==> r in rows && r.id !in ids
  {
    if rows != [] {
      var init := rows[..|rows| - 1];
      KeepMembers(init, ids);
      assert rows == init + [rows[|rows| - 1]];
    }
  }

  /** Deleting never introduces an id: a bound on the ids survives it. */
  lemma {:induction false} KeepBelow<R>(rows: seq<Record<R>>, ids: set<nat>, bound: nat)
    requires forall i :: 0 <= i < |rows| ==> rows[i].id < bound
    ensures forall i :: 0 <= i < |Keep(rows, ids)| ==> Keep(rows, ids)[i].id < bound
  {
    if rows != [] {
      KeepBelow(rows[..|rows| - 1], ids, bound);
    }
  }

  /** Deleting keeps the ids ascending. */
  lemma {:induction false} KeepAscending<R>(rows: seq<Record<R>>, ids: set<nat>, nextId: nat)
    requires Ascending(rows, nextId)
    ensures Ascending(Keep(rows, ids), nextId)
  {
    if rows != [] {
      var init := rows[..|rows| - 1];
      assert Ascending(init, nextId);
      KeepAscending(init, ids, nextId);
      KeepBelow(init, ids, rows[|rows| - 1].id);
      KeepBelow(rows, ids, nextId);
    }
  }

  /** `UPDATE ... SET ... WHERE id = ANY(ids)`: listed rows are rewritten by change,
      every other row is left as it was. */
  function Apply<R>(rows: seq<Record<R>>, ids: set<nat>, change: R -> R): (r: seq<Record<R>>)
    ensures |r| == |rows|
    ensures forall i :: 0 <= i < |rows| ==> r[i].id == rows[i].id
    ensures forall i :: 0 <= i < |rows| ==>
      r[i].fields == if rows[i].id in ids then change(rows[i].fields) else rows[i].fields
  {
    seq(|rows|, i requires 0 <= i < |rows| =>
      if rows[i].id in ids then Record(rows[i].id, change(rows[i].fields)) else rows[i])
  }

  /** One table. */
  class Table<R> {
    var rows: seq<Record<R>>
    var nextId: nat

    predicate Valid()
      reads this
    {
      Ascending(rows, nextId)
    }

    constructor()
      ensures rows == [] && nextId == 1 && Valid()
    {
      rows := [];
      nextId := 1;
    }

    /** `INSERT ... RETURNING *`: the row gets the next id. */
    method Insert(fields: R) returns (id: nat)
      requires Valid()
      modifies this
      ensures Valid()
      ensures id == old(nextId) && nextId == id + 1
      ensures rows == old(rows) + [Record(id, fields)]
      ensures forall i :: 0 <= i < |old(rows)| ==> old(rows)[i].id < id
    {
      id := nextId;
      rows := rows + [Record(id, fields)];
      nextId := nextId + 1;
    }

    /** `DELETE FROM ... WHERE id = ANY(ids)`. */
    method DeleteWhere(ids: set<nat>)
      requires Valid()
      modifies this
      ensures Valid()
      ensures rows == Keep(old(rows), ids) && nextId == old(nextId)
    {
      KeepAscending(rows, ids, nextId);
      rows := Keep(rows, ids);
    }

    /** `UPDATE ... WHERE id = ANY(ids)`. */
    method UpdateWhere(ids: set<nat>, change: R -> R)
      requires Valid()
      modifies this
      ensures Valid()
      ensures rows == Apply(old(rows), ids, change) && nextId == old(nextId)
    {
      rows := Apply(rows, ids, change);
    }

    /** The first record satisfying p, as `rows[0]` of a `WHERE` lookup. */
    function First(p: R -> bool): (r: Option<Record<R>>)
      reads this
      ensures r.Some? ==> r.value in rows && p(r.value.fields)
      ensures r.None? <==> forall i :: 0 <= i < |rows| ==> !p(rows[i].fields)
    {
      FirstOf(rows, p)
    }
  }

  function FirstOf<R>(rows: seq<Record<R>>, p: R -> bool): (r: Option<Record<R>>)
    ensures r.Some? ==> r.value in rows && p(r.value.fields)
    ensures r.None? <==> forall i :: 0 <= i < |rows| ==> !p(rows[i].fields)
  {
    if rows == [] then None
    else if p(rows[0].fields) then Some(rows[0])
    else FirstOf(rows[1..], p)
  }

  /** The columns the handlers write, per table. Columns the handlers pass through from the
      request body unchanged are JSON values (the driver binds `undefined` as NULL). */
  datatype UserFields = UserFields(email: string, passwordHash: string, fullName: string, role: Role)

  datatype ProjectFields = ProjectFields(
    name: string, description: Option<string>, version: Option<string>,
    status: JsValue, createdBy: nat, createdAt: int)

  datatype MemberFields = MemberFields(projectId: nat, userId: nat)

  /** `status` is None until a bulk update sets it (the column default is not modelled). */
  datatype TestCaseFields = TestCaseFields(
    projectId: JsValue, title: string, description: Option<string>,
    priority: JsValue, kind: JsValue, preConditions: JsValue, postConditions: JsValue,
    tags: JsValue, createdBy: nat, assignedTo: JsValue, status: Option<JsValue>, updatedAt: int)

  datatype StepFields = StepFields(testCaseId: nat, stepNumber: nat, description: JsValue, expectedResult: JsValue)

  datatype SuiteFields = SuiteFields(projectId: JsValue, name: string, description: Option<string>, createdBy: nat)

  datatype ExecutionFields = ExecutionFields(
    testCaseId: JsValue, testSuiteId: JsValue, executedBy: nat, status: ExecutionStatus,
    comments: Option<string>, executionTime: JsValue)

  datatype DefectFields = DefectFields(
    testExecutionId: JsValue, testCaseId: JsValue, title: string, description: Option<string>,
    severity: JsValue, createdBy: nat, assignedTo: JsValue)

  /** The database the handlers talk to. */
  class Database {
    /** Whether statements run; when false every statement throws `failure`. */
    var up: bool
    const failure: string
    /** `CURRENT_TIMESTAMP`, in seconds. */
    var now: int
    const users: Table<UserFields>
    const projects: Table<ProjectFields>
    const members: Table<MemberFields>
    const testCases: Table<TestCaseFields>
    const steps: Table<StepFields>
    const suites: Table<SuiteFields>
    const executions: Table<ExecutionFields>
    const defects: Table<DefectFields>
    /** The answers to the listing SELECTs; None when a query throws. */
    const engine: Query -> Option<seq<Row>>
    /** Every listing query put to the engine, in order. */
    var log: seq<Query>

    predicate Valid()
      reads this, users, projects, members, testCases, steps, suites, executions, defects
    {
      users.Valid() && projects.Valid() && members.Valid() && testCases.Valid() &&
      steps.Valid() && suites.Valid() && executions.Valid() && defects.Valid()
    }

    constructor(engine: Query -> Option<seq<Row>>, failure: string, start: int)
      ensures up && now == start && log == [] && this.engine == engine && this.failure == failure
      ensures fresh(users) && fresh(projects) && fresh(members) && fresh(testCases)
      ensures fresh(steps) && fresh(suites) && fresh(executions) && fresh(defects)
      ensures users.rows == [] && projects.rows == [] && members.rows == [] && testCases.rows == []
      ensures steps.rows == [] && suites.rows == [] && executions.rows == [] && defects.rows == []
      ensures Valid()
    {
      up := true;
      this.failure := failure;
      now := start;
      users := new Table();
      projects := new Table();
      members := new Table();
      testCases := new Table();
      steps := new Table();
      suites := new Table();
      executions := new Table();
      defects := new Table();
      this.engine := engine;
      log := [];
    }

    /** `await sql(query, params)` for a listing query. */
    method Select(q: Query) returns (rows: Option<seq<Row>>)
      modifies this
      ensures log == old(log) + [q]
      ensures up == old(up) && now == old(now)
      ensures rows == if up then engine(q) else None
    {
      log := log + [q];
      if up {
        rows := engine(q);
      } else {
        rows := None;
      }
    }
  }
}
