/**
 * The public catalogue endpoint `GET /api/products` (app/api/products/route.ts): it
 * reads the query-string parameters, builds one filtered, name-ordered and ranged
 * query, and answers with the page of rows and its counts. The database's reply is a
 * parameter, and so is `Number` for texts other than plain integers.
 */
module ProductsRoute {
  import opened Text
  import Pagination

  /** The query string as decoded key/value pairs, in order. */
  type Params = seq<(string, string)>

  /** `searchParams.get(key)`: the first value under that key, or null. */
  function Get(params: Params, key: string): (r: Option<string>)
    ensures r.Some? ==> (key, r.value) in params
    ensures r.None? ==> forall i :: 0 <= i < |params| ==> params[i].0 != key
  {
    if params == [] then None
    else if params[0].0 == key then Some(params[0].1)
    else Get(params[1..], key)
  }

  /** `Get` finds a value exactly when some pair has the key, and then it is the value of the first such pair. */
  lemma {:induction false} GetIsFirstMatch(params: Params, key: string)
    ensures Get(params, key).None? <==> forall i :: 0 <= i < |params| ==> params[i].0 != key
    ensures Get(params, key).Some? ==> exists i :: 0 <= i < |params| && params[i] == (key, Get(params, key).value)
                                         && forall j :: 0 <= j < i ==> params[j].0 != key
  {
    if params != [] && params[0].0 != key {
      GetIsFirstMatch(params[1..], key);
      assert forall i :: 1 <= i < |params| ==> params[i] == params[1..][i - 1];
      if Get(params, key).Some? {
        var k :| 0 <= k < |params[1..]| && params[1..][k] == (key, Get(params, key).value)
                 && forall j :: 0 <= j < k ==> params[1..][j].0 != key;
        assert params[k + 1] == (key, Get(params, key).value);
        assert forall j :: 0 <= j < k + 1 ==> params[j].0 != key by {
          forall j | 0 <= j < k + 1 ensures params[j].0 != key {
            if j > 0 {
              assert params[j] == params[1..][j - 1];
            }
          }
        }
      }
    } else if params != [] {
      assert params[0] == (key, Get(params, key).value);
    }
  }

  /** A key found in the first part of the query string hides any later value under it. */
  lemma {:induction false} GetAppend(a: Params, b: Params, key: string)
    ensures Get(a + b, key) == if Get(a, key).Some? then Get(a, key) else Get(b, key)
  {
    if a == [] {
      assert a + b == b;
    } else {
      GetAppend(a[1..], b, key);
      assert (a + b)[1..] == a[1..] + b;
      assert (a + b)[0] == a[0];
    }
  }

  /**
   * The query the handler builds. Filters that were not asked for are absent; the
   * rows are always ordered by name, ascending.
   */
  datatype Query = Query(
    nameLike: Option<string>,
    categoryIn: Option<seq<string>>,
    priceAtLeast: Option<Num>,
    priceAtMost: Option<Num>,
    inStockOnly: bool,
    onSaleOnly: bool,
    from: Num,
    to: Num)

  /** `(page - 1) * limit`, NaN when either side is. */
  function From(page: Num, limit: Num): (r: Num)
    ensures page.Fin? && limit.Fin? <==> r.Fin?
    ensures r.Fin? ==> r.v == (page.v - 1.0) * limit.v
  {
    if page.Fin? && limit.Fin? then Fin((page.v - 1.0) * limit.v) else NaN
  }

  /** `from + limit - 1`. */
  function To(from: Num, limit: Num): (r: Num)
    ensures from.Fin? && limit.Fin? <==> r.Fin?
    ensures r.Fin? ==> r.v == from.v + limit.v - 1.0
  {
    if from.Fin? && limit.Fin? then Fin(from.v + limit.v - 1.0) else NaN
  }

  /** `Number(searchParams.get("page") ?? "1")`. */
  function PageParam(params: Params, other: string -> Num): (r: Num)
    ensures Get(params, "page").None? ==> r == Fin(1.0)
  {
    ToNumberOfOneAndTwelve(other);
    ToNumber(OrElse(Get(params, "page"), "1"), other)
  }

  /** `Number(searchParams.get("limit") ?? "12")`. */
  function LimitParam(params: Params, other: string -> Num): (r: Num)
    ensures Get(params, "limit").None? ==> r == Fin(12.0)
  {
    ToNumberOfOneAndTwelve(other);
    ToNumber(OrElse(Get(params, "limit"), "12"), other)
  }

  /** `(searchParams.get("categories") ?? "").split(",").map(s => s.trim()).filter(Boolean)`. */
  function CategoriesParam(params: Params): (r: seq<string>)
    ensures forall k :: 0 <= k < |r| ==> r[k] != [] && IsTrimmed(r[k]) && ',' !in r[k]
  {
    SplitTrimmedFreeOfSeparator(OrElse(Get(params, "categories"), ""), ',');
    SplitTrimmed(OrElse(Get(params, "categories"), ""), ',')
  }

  /** The parsing and filter-building half of `GET`. */
  function BuildQuery(params: Params, other: string -> Num): (q: Query)
    ensures var search := Trim(OrElse(Get(params, "search"), ""));
            q.nameLike == (if search == [] then None else Some(search))
    ensures var cats := CategoriesParam(params);
            q.categoryIn == (if cats == [] then None else Some(cats))
    ensures q.priceAtLeast.Some? <==> Filled(Get(params, "minPrice"))
    ensures q.priceAtMost.Some? <==> Filled(Get(params, "maxPrice"))
    ensures q.priceAtLeast.Some? ==> q.priceAtLeast.value == ToNumber(Get(params, "minPrice").value, other)
    ensures q.priceAtMost.Some? ==> q.priceAtMost.value == ToNumber(Get(params, "maxPrice").value, other)
    ensures q.inStockOnly <==> Get(params, "inStock") == Some("true")
    ensures q.onSaleOnly <==> Get(params, "onSale") == Some("true")
    ensures q.from == From(PageParam(params, other), LimitParam(params, other))
    ensures q.to == To(q.from, LimitParam(params, other))
  {
    var page := PageParam(params, other);
    var limit := LimitParam(params, other);
    var search := Trim(OrElse(Get(params, "search"), ""));
    var cats := CategoriesParam(params);
    var minPrice := Get(params, "minPrice");
    var maxPrice := Get(params, "maxPrice");
    var from := From(page, limit);
    Query(
      if search == [] then None else Some(search),
      if cats == [] then None else Some(cats),
      if Filled(minPrice) then Some(ToNumber(minPrice.value, other)) else None,
      if Filled(maxPrice) then Some(ToNumber(maxPrice.value, other)) else None,
      Get(params, "inStock") == Some("true"),
      Get(params, "onSale") == Some("true"),
      from,
      To(from, limit))
  }

  /** Without `page` and `limit` the handler reads page 1 and a limit of twelve. */
  lemma DefaultPageAndLimit(params: Params, other: string -> Num)
    requires Get(params, "page").None? && Get(params, "limit").None?
    ensures PageParam(params, other) == Fin(1.0) && LimitParam(params, other) == Fin(12.0)
  {
    ToNumberOfOneAndTwelve(other);
  }

  /** With a numeric page and limit the range spans exactly `limit` rows and ends at row `page * limit - 1`. */
  lemma RangeIsThePage(page: Num, limit: Num)
    requires page.Fin? && limit.Fin?
    ensures var from := From(page, limit);
            var to := To(from, limit);
            from.Fin? && to.Fin? && to.v - from.v + 1.0 == limit.v && to.v == page.v * limit.v - 1.0
  {
    assert (page.v - 1.0) * limit.v + limit.v == page.v * limit.v;
  }

  /** Without `page` and `limit` the handler asks for rows 0 to 11. */
  lemma DefaultsAreFirstTwelve(params: Params, other: string -> Num)
    requires Get(params, "page").None? && Get(params, "limit").None?
    ensures BuildQuery(params, other).from == Fin(0.0) && BuildQuery(params, other).to == Fin(11.0)
  {
    DefaultPageAndLimit(params, other);
  }

  /** `Math.ceil(x)`. */
  function Ceil(x: real): (r: int)
    ensures r as real - 1.0 < x <= r as real
  {
    -((-x).Floor)
  }

  /** For a positive whole divisor `Math.ceil(n / d)` is the page count of the pagination helper. */
  lemma CeilIsCeilDiv(n: nat, d: int)
    requires d > 0
    ensures Ceil(n as real / d as real) == Pagination.CeilDiv(n, d)
  {
    var q := Pagination.CeilDiv(n, d);
    Pagination.CeilDivIsCeiling(n, d);
    CeilOfQuotient(n, d, q);
  }

  /** If `q` is the least whole number with `q * d >= n`, it is the ceiling of `n / d`. */
  lemma CeilOfQuotient(n: nat, d: int, q: int)
    requires d > 0
    requires q * d >= n && (n > 0 ==> (q - 1) * d < n) && (n == 0 ==> q == 0)
    ensures Ceil(n as real / d as real) == q
  {
    var x := n as real / d as real;
    if n > 0 {
      assert (q - 1) as real < x by {
        Quotient(n as real, d as real, x);
        CastProduct(q - 1, d);
        BelowQuotient(n as real, d as real, x, (q - 1) as real);
      }
      assert x <= q as real by {
        Quotient(n as real, d as real, x);
        CastProduct(q, d);
        AtMostQuotient(n as real, d as real, x, q as real);
      }
      CeilUnique(x, q);
    } else {
      CeilOfZero(d);
    }
  }

  lemma CeilOfZero(d: int)
    requires d > 0
    ensures Ceil(0 as real / d as real) == 0
  {
    var x := 0 as real / d as real;
    assert x == 0.0;
    CeilUnique(x, 0);
  }

  lemma CastProduct(a: int, b: int)
    ensures (a * b) as real == a as real * b as real
  {
  }

  /** A whole number with `q - 1 < x <= q` is the ceiling of `x`. */
  lemma CeilUnique(x: real, q: int)
    requires (q - 1) as real < x <= q as real
    ensures Ceil(x) == q
  {
    var c := Ceil(x);
    assert c as real - 1.0 < x <= c as real;
  }

  lemma Quotient(n: real, d: real, x: real)
    requires d > 0.0 && x == n / d
    ensures x * d == n
  {
  }

  lemma BelowQuotient(n: real, d: real, x: real, a: real)
    requires d > 0.0 && x * d == n && a * d < n
    ensures a < x
  {
  }

  lemma AtMostQuotient(n: real, d: real, x: real, b: real)
    requires d > 0.0 && x * d == n && b * d >= n
    ensures x <= b
  {
  }

  /** `Math.ceil((count ?? 0) / limit)` as written to JSON: null unless the limit is a non-zero number. */
  function TotalPages(total: nat, limit: Num): (r: Option<int>)
    ensures r.Some? <==> limit.Fin? && limit.v != 0.0
  {
    if limit.Fin? && limit.v != 0.0 then Some(Ceil(total as real / limit.v)) else None
  }

  /**
   * A row as `select("*")` returns it and the handler forwards it untouched; only the
   * columns the products page reads are kept.
   */
  datatype Row = Row(
    id: string,
    slug: string,
    name: string,
    brand: Option<string>,
    description: Option<string>,
    price: real,
    compareAtPrice: Option<real>,
    image: Option<string>,
    category: Option<string>,
    tags: Option<seq<string>>,
    rating: Option<real>,
    reviewsCount: Option<int>,
    stock: Option<int>)

  /** What awaiting the query gives. */
  datatype Reply = Rows(data: Option<seq<Row>>, count: Option<nat>) | QueryError(message: string) | Threw

  /** The response: the listing with `Cache-Control: no-store`, or a 500 with an error text. */
  datatype Response =
    | Listing(products: seq<Row>, total: nat, page: Option<real>, limit: Option<real>, totalPages: Option<int>)
    | ServerError(error: string)

  function Status(r: Response): int {
    if r.Listing? then 200 else 500
  }

  /** `GET(req)` given the parsed parameters and the database's reply. */
  function Handle(params: Params, other: string -> Num, reply: Reply): (r: Response)
    ensures reply.QueryError? ==> r == ServerError(reply.message)
    ensures reply.Threw? ==> r == ServerError("Internal error")
    ensures Status(r) == 200 <==> reply.Rows?
    ensures reply.Rows? ==> r.products == (if reply.data.Some? then reply.data.value else [])
    ensures reply.Rows? ==> r.total == (if reply.count.Some? then reply.count.value else 0)
    ensures reply.Rows? ==> r.page == Json(PageParam(params, other)) && r.limit == Json(LimitParam(params, other))
    ensures reply.Rows? ==> r.totalPages == TotalPages(r.total, LimitParam(params, other))
  {
    match reply
    case QueryError(m) => ServerError(m)
    case Threw => ServerError("Internal error")
    case Rows(data, count) =>
      var total := if count.Some? then count.value else 0;
      var limit := LimitParam(params, other);
      Listing(if data.Some? then data.value else [], total,
              Json(PageParam(params, other)), Json(limit), TotalPages(total, limit))
  }

  /** With the default limit of twelve, the page count is the pagination helper's and a missing count gives 0 pages. */
  lemma DefaultLimitPageCount(params: Params, other: string -> Num, data: Option<seq<Row>>, count: Option<nat>)
    requires Get(params, "limit").None?
    ensures var r := Handle(params, other, Rows(data, count));
            r.totalPages == Some(Pagination.CeilDiv(r.total, 12))
            && (count.None? ==> r.total == 0 && r.totalPages == Some(0))
  {
    ToNumberOfOneAndTwelve(other);
    var total := if count.Some? then count.value else 0;
    CeilIsCeilDiv(total, 12);
  }

  /** A `limit` of 0 gives a JSON `null` page count, whatever the total. */
  lemma ZeroLimitHasNoPageCount(params: Params, other: string -> Num, data: Option<seq<Row>>, count: Option<nat>)
    requires Get(params, "limit") == Some("0")
    ensures Handle(params, other, Rows(data, count)).totalPages.None?
  {
    ToNumberOfIntToString(0, other);
    assert IntToString(0) == "0";
  }

  /** The flags are on only for the exact text "true": "TRUE", "1" or " true" leave them off. */
  lemma FlagsNeedExactTrue(params: Params, other: string -> Num)
    requires Get(params, "inStock") in {Some("TRUE"), Some("1"), Some(" true")}
    ensures !BuildQuery(params, other).inStockOnly
  {
  }
}
