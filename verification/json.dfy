/** JSON values as the route handlers read and write them, and the
    `NextResponse.json(body, { status })` responses they return. */
module Json {
  import opened Types
  import opened Text

  /** A JSON value; numbers are integers (NaN and Infinity serialise as null). */
  datatype JsValue =
    | Null
    | Bool(b: bool)
    | Num(n: int)
    | Str(s: string)
    | Array(items: seq<JsValue>)
    | Object(fields: map<string, JsValue>)

  /** JavaScript truthiness of a JSON value: `null`, `false`, `0` and `""` are falsy. */
  predicate Truthy(v: JsValue)
  {
    match v
    case Null => false
    case Bool(b) => b
    case Num(n) => n != 0
    case Str(s) => s != ""
    case _ => true
  }

  /** Truthiness of a body field that may be absent (`undefined` is falsy). */
  predicate Given(v: Option<JsValue>)
  {
    v.Some? && Truthy(v.value)
  }

  /** A string field that is present and non-empty (`if (title)`). */
  predicate GivenText(v: Option<string>)
  {
    v.Some? && v.value != ""
  }

  /** What the SQL driver binds for a body field: `undefined` becomes NULL. */
  function OrNull(v: Option<JsValue>): (r: JsValue)
    ensures v.None? ==> r == Null
    ensures v.Some? ==> r == v.value
  {
    if v.Some? then v.value else Null
  }

  function TextOrNull(v: Option<string>): (r: JsValue)
    ensures v.None? ==> r == Null
    ensures v.Some? ==> r == Str(v.value)
  {
    if v.Some? then Str(v.value) else Null
  }

  /** A destructuring default: it applies only when the field is missing. */
  function Default(v: Option<JsValue>, fallback: JsValue): (r: JsValue)
    ensures v.None? ==> r == fallback
    ensures v.Some? ==> r == v.value
  {
    if v.Some? then v.value else fallback
  }

  /** An HTTP response with a JSON body. */
  datatype Response = Response(status: int, body: JsValue)

  /** `NextResponse.json({ error: message }, { status })`. */
  function ErrorResponse(status: int, message: string): (r: Response)
    ensures r.status == status
    ensures r.body.Object? && r.body.fields.Keys == {"error"} && r.body.fields["error"] == Str(message)
  {
    Response(status, Object(map["error" := Str(message)]))
  }

  const InternalError: Response := ErrorResponse(500, "Internal server error")

  /** A result row: column name to value, as the SQL driver hands it over. */
  type Row = map<string, JsValue>

  /** `parseInt(v?.toString() || "0")` for the values a COUNT column can hold:
      null or a missing column reads as 0. */
  function ReadCount(v: Option<JsValue>): (n: nat)
    ensures v.None? || v == Some(Null) || v == Some(Str("")) ==> n == 0
    ensures v.Some? && v.value.Num? && v.value.n >= 0 ==> n == v.value.n
    ensures v.Some? && v.value.Str? && v.value.s != "" && AllDigits(v.value.s) ==> n == ParseNat(v.value.s)
  {
    match v
    case None => 0
    case Some(Num(k)) => if k >= 0 then k else 0
    case Some(Str(s)) => if s != "" && AllDigits(s) then ParseNat(s) else 0
    case Some(_) => 0
  }

  /** `rows[0]?.column`: the first row's column, if there is a first row and it has one. */
  function Cell(rows: seq<Row>, column: string): (v: Option<JsValue>)
    ensures |rows| == 0 ==> v.None?
    ensures |rows| > 0 && column in rows[0] ==> v == Some(rows[0][column])
    ensures |rows| > 0 && column !in rows[0] ==> v.None?
  {
    if |rows| > 0 && column in rows[0] then Some(rows[0][column]) else None
  }

  function Count(rows: seq<Row>, column: string): nat
  {
    ReadCount(Cell(rows, column))
  }

  /** A JSON array of result rows. */
  function RowsJson(rows: seq<Row>): (v: JsValue)
    ensures v.Array? && |v.items| == |rows|
    ensures forall i :: 0 <= i < |rows| ==> v.items[i] == Object(rows[i])
  {
    Array(seq(|rows|, i requires 0 <= i < |rows| => Object(rows[i])))
  }
}
