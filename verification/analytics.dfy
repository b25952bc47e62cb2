/** app/api/analytics/route.ts: the project dashboard figures. The aggregate queries
    themselves are not modelled: their result rows are the input of the calculation. */
module Analytics {
  import opened Types
  import opened Text
  import opened Json
  import opened Middleware

  /** `Math.round((part / whole) * 100)` with a zero-denominator guard, computed exactly:
      the nearest integer to 100 * part / whole, halves rounded up. */
  function Percent(part: int, whole: nat): (r: int)
    ensures whole == 0 ==> r == 0
    ensures whole > 0 ==> 2 * whole * r <= 200 * part + whole < 2 * whole * (r + 1)
  {
    if whole > 0 then (200 * part + whole) / (2 * whole) else 0
  }

  /** A share of a whole is a percentage between 0 and 100. */
  lemma PercentBounds(part: int, whole: nat)
    requires 0 <= part <= whole
    ensures 0 <= Percent(part, whole) <= 100
    ensures part == whole && whole > 0 ==> Percent(part, whole) == 100
  {
    if whole > 0 {
      var r, c := Percent(part, whole), 2 * whole;
      assert c * r < c * 101;
      CancelLess(r, 101, c);
      assert c * -1 < c * (r + 1);
      CancelLess(-1, r + 1, c);
      if part == whole {
        assert c * 99 < c * (r + 1);
        CancelLess(99, r + 1, c);
      }
    }
  }

  lemma CancelLess(a: int, b: int, c: int)
    requires c > 0 && c * a < c * b
    ensures a < b
  {
    assert c * (b - a) == c * b - c * a;
  }

  datatype TestCaseFigures = TestCaseFigures(
    total: nat,
    critical: nat, high: nat, medium: nat, low: nat,
    functional: nat, integration: nat, regression: nat, smoke: nat, ui: nat, api: nat)

  datatype ExecutionFigures = ExecutionFigures(
    total: nat, passed: nat, failed: nat, blocked: nat, skipped: nat, pending: nat, passRate: int)

  datatype DefectFigures = DefectFigures(
    total: nat, open: nat, inProgress: nat, resolved: nat, closed: nat,
    critical: nat, high: nat, medium: nat, low: nat)

  /** The `analytics` object. */
  datatype Figures = Figures(
    testCases: TestCaseFigures,
    executions: ExecutionFigures,
    coverage: int,
    trends: seq<Row>,
    defects: DefectFigures,
    executionByTester: seq<Row>)

  /** The rows of the six queries; the trend and per-tester results may be missing. */
  datatype QueryResults = QueryResults(
    testCaseStats: seq<Row>,
    executionStats: seq<Row>,
    pendingTests: seq<Row>,
    executionTrends: Option<seq<Row>>,
    defectStats: seq<Row>,
    executionByTester: Option<seq<Row>>)

  /** Lines 111-165: the figures computed from the query rows. */
  function Compute(q: QueryResults): (f: Figures)
    ensures f.executions.total == Count(q.executionStats, "total")
    ensures f.executions.passed == Count(q.executionStats, "passed")
    ensures f.executions.pending == Count(q.pendingTests, "pending")
    ensures f.testCases.total == Count(q.testCaseStats, "total")
    ensures f.executions.passRate == Percent(f.executions.passed, f.executions.total)
    ensures f.coverage == Percent(f.testCases.total - f.executions.pending, f.testCases.total)
    ensures f.trends == if q.executionTrends.Some? then q.executionTrends.value else []
    ensures f.executionByTester == if q.executionByTester.Some? then q.executionByTester.value else []
  {
    var tc := q.testCaseStats;
    var ex := q.executionStats;
    var df := q.defectStats;
    var totalExecutions := Count(ex, "total");
    var passedExecutions := Count(ex, "passed");
    var passRate := if totalExecutions > 0 then Percent(passedExecutions, totalExecutions) else 0;
    var totalTests := Count(tc, "total");
    var pendingCount := Count(q.pendingTests, "pending");
    var executedTests := totalTests - pendingCount;
    var coverage := if totalTests > 0 then Percent(executedTests, totalTests) else 0;
    Figures(
      TestCaseFigures(
        totalTests,
        Count(tc, "critical"), Count(tc, "high"), Count(tc, "medium"), Count(tc, "low"),
        Count(tc, "functional"), Count(tc, "integration"), Count(tc, "regression"),
        Count(tc, "smoke"), Count(tc, "ui"), Count(tc, "api")),
      ExecutionFigures(
        totalExecutions, passedExecutions, Count(ex, "failed"), Count(ex, "blocked"), Count(ex, "skipped"),
        pendingCount, passRate),
      coverage,
      if q.executionTrends.Some? then q.executionTrends.value else [],
      DefectFigures(
        Count(df, "total"), Count(df, "open"), Count(df, "in_progress"), Count(df, "resolved"), Count(df, "closed"),
        Count(df, "critical"), Count(df, "high"), Count(df, "medium"), Count(df, "low")),
      if q.executionByTester.Some? then q.executionByTester.value else [])
  }

  /** Pass rate and coverage stay within 0..100 whenever the counts are consistent
      (no more passes than executions, no more pending than test cases). */
  lemma RatesAreBounded(q: QueryResults)
    requires Count(q.executionStats, "passed") <= Count(q.executionStats, "total")
    requires Count(q.pendingTests, "pending") <= Count(q.testCaseStats, "total")
    ensures 0 <= Compute(q).executions.passRate <= 100
    ensures 0 <= Compute(q).coverage <= 100
  {
    var f := Compute(q);
    PercentBounds(f.executions.passed, f.executions.total);
    PercentBounds(f.testCases.total - f.executions.pending, f.testCases.total);
  }

  /** Queries that return no rows at all give all-zero figures and empty lists. */
  lemma EmptyResultsReadAsZero()
    ensures var f := Compute(QueryResults([], [], [], None, [], None));
      f.testCases == TestCaseFigures(0, 0, 0, 0, 0, 0, 0, 0, 0, 0, 0) &&
      f.executions == ExecutionFigures(0, 0, 0, 0, 0, 0, 0) &&
      f.coverage == 0 && f.trends == [] &&
      f.defects == DefectFigures(0, 0, 0, 0, 0, 0, 0, 0, 0) &&
      f.executionByTester == []
  {
  }

  /** 10 test cases of which 4 are pending, 6 executions of which 4 passed: coverage 60, pass rate 67. */
  lemma ExampleFigures()
    ensures var q := QueryResults(
        [map["total" := Str("10")]], [map["total" := Str("6"), "passed" := Str("4")]],
        [map["pending" := Str("4")]], Some([]), [], Some([]));
      Compute(q).coverage == 60 && Compute(q).executions.passRate == 67
  {
    assert Count([map["total" := Str("10")]], "total") == 10 by {
      assert ParseNat("10") == 10 by { assert "10"[..1] == "1"; }
    }
    assert Count([map["total" := Str("6"), "passed" := Str("4")]], "total") == 6 by {
      assert ParseNat("6") == 6;
    }
    assert Count([map["total" := Str("6"), "passed" := Str("4")]], "passed") == 4 by {
      assert ParseNat("4") == 4;
    }
    assert Count([map["pending" := Str("4")]], "pending") == 4 by {
      assert ParseNat("4") == 4;
    }
    assert Percent(10 - 4, 10) == 60 && Percent(4, 6) == 67;
  }

  /** The response body's `analytics` object. */
  function FiguresJson(f: Figures): JsValue
  {
    var t, e, d := f.testCases, f.executions, f.defects;
    Object(map[
      "testCases" := Object(map[
        "total" := Num(t.total),
        "byPriority" := Object(map["critical" := Num(t.critical), "high" := Num(t.high), "medium" := Num(t.medium), "low" := Num(t.low)]),
        "byType" := Object(map["functional" := Num(t.functional), "integration" := Num(t.integration),
          "regression" := Num(t.regression), "smoke" := Num(t.smoke), "ui" := Num(t.ui), "api" := Num(t.api)])]),
      "executions" := Object(map[
        "total" := Num(e.total), "passed" := Num(e.passed), "failed" := Num(e.failed), "blocked" := Num(e.blocked),
        "skipped" := Num(e.skipped), "pending" := Num(e.pending), "passRate" := Num(e.passRate)]),
      "coverage" := Num(f.coverage),
      "trends" := RowsJson(f.trends),
      "defects" := Object(map[
        "total" := Num(d.total), "open" := Num(d.open), "inProgress" := Num(d.inProgress),
        "resolved" := Num(d.resolved), "closed" := Num(d.closed),
        "bySeverity" := Object(map["critical" := Num(d.critical), "high" := Num(d.high), "medium" := Num(d.medium), "low" := Num(d.low)])]),
      "executionByTester" := RowsJson(f.executionByTester)])
  }

  /** `GET /api/analytics?project_id=...`; fetch runs the six queries for a project id
      and fails with the database error's message. */
  function AnalyticsGet(caller: Option<User>, projectId: Option<string>, fetch: string -> Result<QueryResults>): (r: Response)
    ensures caller.None? ==> r == Unauthorized
    ensures caller.Some? && !GivenText(projectId) ==> r == ErrorResponse(400, "Project ID is required")
    ensures caller.Some? && GivenText(projectId) && fetch(projectId.value).Fail? ==>
      r == ErrorResponse(500, "Failed to fetch analytics: " + fetch(projectId.value).message)
    ensures caller.Some? && GivenText(projectId) && fetch(projectId.value).Ok? ==>
      r == Response(200, Object(map["analytics" := FiguresJson(Compute(fetch(projectId.value).value))]))
  {
    match Authorize(caller, None)
    case Reject(response) => response
    case Admit(_) =>
      if !GivenText(projectId) then ErrorResponse(400, "Project ID is required")
      else
        match fetch(projectId.value)
        case Fail(message) => ErrorResponse(500, "Failed to fetch analytics: " + message)
        case Ok(q) => Response(200, Object(map["analytics" := FiguresJson(Compute(q))]))
  }

  /** Without a project id the answer is 400 whatever the database would have said:
      no aggregate is consulted. */
  lemma MissingProjectIgnoresStore(u: User, projectId: Option<string>, fetch1: string -> Result<QueryResults>, fetch2: string -> Result<QueryResults>)
    requires !GivenText(projectId)
    ensures AnalyticsGet(Some(u), projectId, fetch1) == AnalyticsGet(Some(u), projectId, fetch2)
    ensures AnalyticsGet(Some(u), projectId, fetch1).status == 400
  {
  }
}
