/** The `$n` query builders of the listing routes (app/api/test-cases/route.ts,
    app/api/executions/route.ts, app/api/defects/route.ts). A query is kept as a sequence
    of text pieces and numbered placeholders, next to the values bound to them; the
    driver substitutes value k for every `$k`. */
module SqlQuery {
  import opened Types
  import opened Text
  import opened Json

  datatype Piece = Sql(text: string) | Param(index: nat)

  datatype Query = Query(pieces: seq<Piece>, params: seq<JsValue>)

  /** The query text the driver receives: each placeholder is written `$k`. */
  function Render(pieces: seq<Piece>): string
  {
    if pieces == [] then ""
    else
      Render(pieces[..|pieces| - 1]) +
      match pieces[|pieces| - 1]
      case Sql(text) => text
      case Param(k) => "$" + NatToString(k)
  }

  /** The placeholder numbers in the order they occur in the text. */
  function Placeholders(pieces: seq<Piece>): seq<nat>
  {
    if pieces == [] then [] else Placeholders(pieces[..|pieces| - 1]) + Mark(pieces[|pieces| - 1])
  }

  function Mark(p: Piece): seq<nat>
  {
    match p
    case Sql(_) => []
    case Param(k) => [k]
  }

  lemma PlaceholdersSnoc(ps: seq<Piece>, p: Piece)
    ensures Placeholders(ps + [p]) == Placeholders(ps) + Mark(p)
  {
    assert (ps + [p])[..|ps|] == ps;
  }

  /** The placeholders of the text one `$k` clause appends. */
  lemma PlaceholdersOfBind(text: string, k: nat)
    ensures Placeholders([Sql(text), Param(k)]) == [k]
  {
    PlaceholdersSnoc([], Sql(text));
    PlaceholdersSnoc([Sql(text)], Param(k));
  }

  /** The placeholders of the search clause: the same number twice. */
  lemma PlaceholdersOfSearch(k: nat)
    ensures Placeholders([Sql(" AND (tc.title ILIKE "), Param(k), Sql(" OR tc.description ILIKE "), Param(k), Sql(")")]) == [k, k]
  {
    var c := [Sql(" AND (tc.title ILIKE "), Param(k), Sql(" OR tc.description ILIKE "), Param(k), Sql(")")];
    PlaceholdersOfBind(" AND (tc.title ILIKE ", k);
    assert c[..2] == [Sql(" AND (tc.title ILIKE "), Param(k)];
    PlaceholdersSnoc(c[..2], c[2]);
    assert c[..3] == c[..2] + [c[2]];
    PlaceholdersSnoc(c[..3], c[3]);
    assert c[..4] == c[..3] + [c[3]];
    PlaceholdersSnoc(c[..4], c[4]);
    assert c == c[..4] + [c[4]];
  }

  lemma {:induction false} PlaceholdersConcat(a: seq<Piece>, b: seq<Piece>)
    ensures Placeholders(a + b) == Placeholders(a) + Placeholders(b)
    decreases |b|
  {
    if b == [] {
      assert a + b == a;
    } else {
      var init := b[..|b| - 1];
      assert (a + b)[..|a + b| - 1] == a + init;
      PlaceholdersConcat(a, init);
    }
  }

  /** The numbers climb from 1 to n in steps of 0 or 1 (a number may be used twice in a
      row, as the search clause does). */
  predicate Numbered(xs: seq<nat>, n: nat)
  {
    (xs == [] <==> n == 0) &&
    (xs != [] ==> xs[0] == 1 && xs[|xs| - 1] == n) &&
    (forall i :: 0 <= i < |xs| ==> xs[i] >= 1) &&
    forall i, j :: 0 <= i < |xs| && 0 <= j < |xs| && j == i + 1 ==> xs[j] == xs[i] || xs[j] == xs[i] + 1
  }

  /** Appending the next number, once or twice, keeps a text numbered. */
  lemma NumberedAppend(xs: seq<nat>, n: nat, ys: seq<nat>)
    requires Numbered(xs, n)
    requires ys == [n + 1] || ys == [n + 1, n + 1]
    ensures Numbered(xs + ys, n + 1)
  {
    var zs := xs + ys;
    forall i, j | 0 <= i < |zs| && 0 <= j < |zs| && j == i + 1
      ensures zs[j] == zs[i] || zs[j] == zs[i] + 1
    {
      if j < |xs| {
        assert zs[j] == xs[j] && zs[i] == xs[i];
      } else if j == |xs| {
        assert zs[i] == xs[|xs| - 1] == n;
      }
    }
  }

  /** The placeholders of a numbered text are exactly $1 .. $n: each occurs, no other does. */
  lemma {:induction false} NumberedRange(xs: seq<nat>, n: nat)
    requires Numbered(xs, n)
    ensures forall i :: 0 <= i < |xs| ==> 1 <= xs[i] <= n
    ensures forall k :: 1 <= k <= n ==> k in xs
  {
    if |xs| > 1 {
      var init := xs[..|xs| - 1];
      var m := xs[|xs| - 2];
      assert Numbered(init, m);
      NumberedRange(init, m);
      assert n == m || n == m + 1;
      forall k | 1 <= k <= n
        ensures k in xs
      {
        if k <= m {
          assert k in init;
        } else {
          assert xs[|xs| - 1] == k;
        }
      }
    } else if |xs| == 1 {
      assert xs[0] == 1 == n;
    }
  }

  /** Every placeholder is bound: the text uses exactly $1 .. $|params|. */
  predicate WellNumbered(q: Query)
  {
    Numbered(Placeholders(q.pieces), |q.params|)
  }

  lemma WellNumberedBinds(q: Query)
    requires WellNumbered(q)
    ensures forall k :: k in Placeholders(q.pieces) <==> 1 <= k <= |q.params|
  {
    NumberedRange(Placeholders(q.pieces), |q.params|);
  }

  /** One optional filter of a listing: `column = $k`, or the search clause that matches
      one `$k` against both the title and the description. */
  datatype Filter = Equals(column: string, value: string) | Search(term: string)

  /** The text a filter appends when its placeholder is number k. */
  function Clause(f: Filter, k: nat): seq<Piece>
  {
    match f
    case Equals(column, _) => [Sql(" AND " + column + " = "), Param(k)]
    case Search(_) => [Sql(" AND (tc.title ILIKE "), Param(k), Sql(" OR tc.description ILIKE "), Param(k), Sql(")")]
  }

  /** The value a filter binds; a search term becomes `%term%`. */
  function Bound(f: Filter): JsValue
  {
    match f
    case Equals(_, value) => Str(value)
    case Search(term) => Str("%" + term + "%")
  }

  /** The clauses of a list of filters numbered from $1. */
  function Clauses(fs: seq<Filter>): seq<Piece>
  {
    if fs == [] then [] else Clauses(fs[..|fs| - 1]) + Clause(fs[|fs| - 1], |fs|)
  }

  function BoundValues(fs: seq<Filter>): (vs: seq<JsValue>)
    ensures |vs| == |fs|
    ensures forall i :: 0 <= i < |fs| ==> vs[i] == Bound(fs[i])
  {
    seq(|fs|, i requires 0 <= i < |fs| => Bound(fs[i]))
  }

  /** One more filter appends its clause, numbered next, and its value. */
  lemma ClausesSnoc(fs: seq<Filter>, f: Filter)
    ensures Clauses(fs + [f]) == Clauses(fs) + Clause(f, |fs| + 1)
  {
    var g := fs + [f];
    assert g[..|fs|] == fs;
  }

  lemma BoundSnoc(fs: seq<Filter>, f: Filter)
    ensures BoundValues(fs + [f]) == BoundValues(fs) + [Bound(f)]
  {
  }

  /** Text holding base and the clauses of fs, followed by the next filter's clause. */
  lemma ExtendClauses(base: seq<Piece>, fs: seq<Filter>, f: Filter, pieces: seq<Piece>)
    requires pieces == base + Clauses(fs)
    ensures pieces + Clause(f, |fs| + 1) == base + Clauses(fs + [f])
  {
    ClausesSnoc(fs, f);
    Associate(base, Clauses(fs), Clause(f, |fs| + 1));
  }

  lemma Associate<T>(a: seq<T>, b: seq<T>, c: seq<T>)
    ensures (a + b) + c == a + (b + c)
  {
  }

  /** The filters' clauses use $1 .. $|fs|, one number per filter, in filter order. */
  lemma {:induction false} ClausesNumbered(fs: seq<Filter>)
    ensures Numbered(Placeholders(Clauses(fs)), |fs|)
  {
    if fs != [] {
      var init := fs[..|fs| - 1];
      var f := fs[|fs| - 1];
      ClausesNumbered(init);
      PlaceholdersConcat(Clauses(init), Clause(f, |fs|));
      if f.Equals? {
        PlaceholdersOfBind(" AND " + f.column + " = ", |fs|);
        NumberedAppend(Placeholders(Clauses(init)), |init|, [|fs|]);
      } else {
        PlaceholdersOfSearch(|fs|);
        NumberedAppend(Placeholders(Clauses(init)), |init|, [|fs|, |fs|]);
      }
    }
  }

  /** A SELECT followed by the clauses of a list of filters, numbered from $1. */
  function Filtered(select: string, fs: seq<Filter>): (q: Query)
    ensures |q.params| == |fs|
  {
    Query([Sql(select)] + Clauses(fs), BoundValues(fs))
  }

  /** One more clause `text $k` binding value to the next placeholder k. */
  function Then(q: Query, text: string, value: JsValue): Query
  {
    Query(q.pieces + [Sql(text), Param(|q.params| + 1)], q.params + [value])
  }

  lemma FilteredNumbered(select: string, fs: seq<Filter>)
    ensures WellNumbered(Filtered(select, fs))
    ensures Placeholders(Filtered(select, fs).pieces) == Placeholders(Clauses(fs))
  {
    ClausesNumbered(fs);
    PlaceholdersConcat([Sql(select)], Clauses(fs));
    PlaceholdersSnoc([], Sql(select));
    assert [] + [Sql(select)] == [Sql(select)];
  }

  /** A clause bound to the next placeholder keeps a query well numbered. */
  lemma ThenNumbered(q: Query, text: string, value: JsValue)
    requires WellNumbered(q)
    ensures WellNumbered(Then(q, text, value))
    ensures Placeholders(Then(q, text, value).pieces) == Placeholders(q.pieces) + [|q.params| + 1]
  {
    var k := |q.params| + 1;
    PlaceholdersConcat(q.pieces, [Sql(text), Param(k)]);
    PlaceholdersOfBind(text, k);
    NumberedAppend(Placeholders(q.pieces), |q.params|, [k]);
  }

  /** `if (value) { query += " AND column = $k"; ... }`: the filter a query-string value
      turns on, if any. */
  function EqualsIf(column: string, v: Option<string>): (fs: seq<Filter>)
    ensures |fs| <= 1
  {
    if GivenText(v) then [Equals(column, v.value)] else []
  }

  /** The values of the non-empty query-string parameters, in order. */
  function Present(vs: seq<Option<string>>): (r: seq<JsValue>)
    ensures |r| <= |vs|
  {
    if vs == [] then [] else (if GivenText(vs[0]) then [Str(vs[0].value)] else []) + Present(vs[1..])
  }

  lemma BoundConcat(a: seq<Filter>, b: seq<Filter>)
    ensures BoundValues(a + b) == BoundValues(a) + BoundValues(b)
  {
  }

  /** Equality filters bind the parameters that turn them on, in the order tested. */
  lemma EqualsBindPresent(c1: string, v1: Option<string>, c2: string, v2: Option<string>)
    ensures BoundValues(EqualsIf(c1, v1) + EqualsIf(c2, v2)) == Present([v1, v2])
  {
    BoundConcat(EqualsIf(c1, v1), EqualsIf(c2, v2));
    assert [v1, v2][1..] == [v2];
    assert [v2][1..] == [];
  }

  /** `query`, `params` and `paramIndex` of a handler while it assembles its SQL. */
  class QueryBuilder {
    var pieces: seq<Piece>
    var params: seq<JsValue>
    var paramIndex: nat

    /** The next placeholder is always one past the values bound so far, and the text
        uses exactly the placeholders $1 .. $|params|. */
    predicate Valid()
      reads this
    {
      paramIndex == |params| + 1 && Numbered(Placeholders(pieces), |params|)
    }

    constructor(base: string)
      ensures pieces == [Sql(base)] && params == [] && paramIndex == 1
      ensures Valid()
    {
      pieces := [Sql(base)];
      params := [];
      paramIndex := 1;
      assert Placeholders([Sql(base)]) == [] by { assert [Sql(base)][..0] == []; }
    }

    /** `query += text`. */
    method Append(text: string)
      requires Valid()
      modifies this
      ensures Valid()
      ensures pieces == old(pieces) + [Sql(text)]
      ensures params == old(params) && paramIndex == old(paramIndex)
    {
      PlaceholdersConcat(pieces, [Sql(text)]);
      assert Placeholders([Sql(text)]) == [] by { assert [Sql(text)][..0] == []; }
      pieces := pieces + [Sql(text)];
    }

    /** `query += text + "$" + paramIndex; params.push(value); paramIndex++`. */
    method Bind(text: string, value: JsValue)
      requires Valid()
      modifies this
      ensures Valid()
      ensures pieces == old(pieces) + [Sql(text), Param(old(paramIndex))]
      ensures params == old(params) + [value]
      ensures Query(pieces, params) == Then(old(Query(pieces, params)), text, value)
    {
      ThenNumbered(Query(pieces, params), text, value);
      pieces := pieces + [Sql(text), Param(paramIndex)];
      params := params + [value];
      paramIndex := paramIndex + 1;
    }

    /** The search clause: one placeholder, written twice, one value. */
    method BindSearch(value: JsValue)
      requires Valid()
      modifies this
      ensures Valid()
      ensures pieces == old(pieces) + [Sql(" AND (tc.title ILIKE "), Param(old(paramIndex)), Sql(" OR tc.description ILIKE "), Param(old(paramIndex)), Sql(")")]
      ensures params == old(params) + [value]
    {
      var k := paramIndex;
      var added := [Sql(" AND (tc.title ILIKE "), Param(k), Sql(" OR tc.description ILIKE "), Param(k), Sql(")")];
      PlaceholdersConcat(pieces, added);
      PlaceholdersOfSearch(k);
      NumberedAppend(Placeholders(pieces), |params|, [k, k]);
      pieces := pieces + added;
      params := params + [value];
      paramIndex := k + 1;
    }

    /** The filter's clause with the next placeholder, and its value. */
    method AddFilter(f: Filter)
      requires Valid()
      modifies this
      ensures Valid()
      ensures pieces == old(pieces) + Clause(f, old(paramIndex))
      ensures params == old(params) + [Bound(f)]
    {
      match f {
        case Equals(column, value) =>
          Bind(" AND " + column + " = ", Str(value));
        case Search(term) =>
          BindSearch(Str("%" + term + "%"));
      }
    }

    /** `if (value) { query += clause; params.push(value); paramIndex++ }`: on holds the
        filter when the request turns it on and is empty otherwise. */
    method AddOptional(on: seq<Filter>, ghost base: seq<Piece>, ghost fs: seq<Filter>)
      requires |on| <= 1
      requires Valid() && pieces == base + Clauses(fs) && params == BoundValues(fs)
      modifies this
      ensures Valid()
      ensures pieces == base + Clauses(fs + on) && params == BoundValues(fs + on)
    {
      if on != [] {
        var f := on[0];
        assert on == [f];
        ExtendClauses(base, fs, f, pieces);
        BoundSnoc(fs, f);
        AddFilter(f);
      } else {
        assert fs + on == fs;
      }
    }

    function Build(): (q: Query)
      reads this
      requires Valid()
      ensures q == Query(pieces, params) && WellNumbered(q)
    {
      Query(pieces, params)
    }
  }
}
