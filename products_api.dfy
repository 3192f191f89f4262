/**
 * The catalogue reads of src/lib/api/products.ts. `listProducts` shapes a filtered,
 * sorted and paged query and turns the reply into a page of products;
 * `getAvailableFilters` derives the filter options from every product. The database
 * is a parameter: the reply to the query and the separate row count are inputs.
 */
module ProductsApi {
  import opened Text
  import opened Catalog
  import Pagination
  import opened Lists

  /** `ProductFilters` as `listProducts` reads it, including the `search` key it consults. */
  datatype Filters = Filters(
    search: Option<string>,
    categories: Option<seq<string>>,
    brands: Option<seq<string>>,
    priceRange: Option<(real, real)>,
    sortBy: Option<string>)

  /** One `.order(column, { ascending, nullsFirst })` call. */
  datatype Order = Order(column: string, ascending: bool, nullsFirst: Option<bool>)

  /** The query as the chain of builder calls leaves it. */
  datatype Query = Query(
    search: Option<string>,
    overlapsCategories: Option<seq<string>>,
    brandIn: Option<seq<string>>,
    priceAtLeast: Option<real>,
    priceAtMost: Option<real>,
    order: Order,
    from: int,
    to: int)

  /** A row of the `products` table, with its nullable columns. */
  datatype ProductRow = ProductRow(
    id: string,
    slug: string,
    name: string,
    brand: Option<string>,
    description: Option<string>,
    price: real,
    compareAtPrice: Option<real>,
    tags: Option<seq<string>>,
    categories: Option<seq<string>>,
    flavors: Option<seq<string>>,
    rating: Option<real>,
    reviewsCount: Option<int>,
    images: Option<seq<string>>,
    stock: Option<int>,
    inStock: Option<bool>)

  /** What awaiting the query gives: rows (possibly `null`), an error, or a throw anywhere in the `try`. */
  datatype Reply = Rows(rows: Option<seq<ProductRow>>) | QueryError | Threw

  datatype PaginatedProducts = PaginatedProducts(
    products: seq<Product>,
    total: nat,
    page: int,
    pageSize: int,
    totalPages: nat)

  /** The `switch (filters.sortBy)`: an absent, empty or unknown key orders by newest first. */
  function OrderFor(sortBy: Option<string>): (o: Order)
    ensures sortBy == Some("price-asc") ==> o == Order("price", true, None)
    ensures sortBy == Some("price-desc") ==> o == Order("price", false, None)
    ensures sortBy == Some("rating") ==> o == Order("rating", false, Some(false))
    ensures sortBy == Some("popularity") ==> o == Order("reviews_count", false, None)
    ensures sortBy !in {Some("price-asc"), Some("price-desc"), Some("rating"), Some("popularity")} ==>
              o == Order("created_at", false, None)
  {
    if !Filled(sortBy) then Order("created_at", false, None)
    else match sortBy.value
      case "price-asc" => Order("price", true, None)
      case "price-desc" => Order("price", false, None)
      case "rating" => Order("rating", false, Some(false))
      case "popularity" => Order("reviews_count", false, None)
      case _ => Order("created_at", false, None)
  }

  /**
   * The builder chain of `listProducts`: each filter is applied only when present and
   * non-empty, the search text is lower-cased, and the range is the page's rows.
   */
  function BuildQuery(page: int, pageSize: int, filters: Filters): (q: Query)
    ensures q.search.Some? <==> Filled(filters.search)
    ensures q.search.Some? ==> q.search.value == Lower(filters.search.value)
    ensures q.overlapsCategories.Some? <==> filters.categories.Some? && filters.categories.value != []
    ensures q.overlapsCategories.Some? ==> q.overlapsCategories == filters.categories
    ensures q.brandIn.Some? <==> filters.brands.Some? && filters.brands.value != []
    ensures q.brandIn.Some? ==> q.brandIn == filters.brands
    ensures q.priceAtLeast.Some? <==> filters.priceRange.Some?
    ensures q.priceAtMost.Some? <==> filters.priceRange.Some?
    ensures filters.priceRange.Some? ==>
              q.priceAtLeast.value == filters.priceRange.value.0 && q.priceAtMost.value == filters.priceRange.value.1
    ensures q.order == OrderFor(filters.sortBy)
    ensures q.from == (page - 1) * pageSize && q.to == page * pageSize - 1
    ensures q.to - q.from + 1 == pageSize
  {
    var from := (page - 1) * pageSize;
    Query(
      if Filled(filters.search) then Some(Lower(filters.search.value)) else None,
      if filters.categories.Some? && filters.categories.value != [] then filters.categories else None,
      if filters.brands.Some? && filters.brands.value != [] then filters.brands else None,
      if filters.priceRange.Some? then Some(filters.priceRange.value.0) else None,
      if filters.priceRange.Some? then Some(filters.priceRange.value.1) else None,
      OrderFor(filters.sortBy),
      from,
      from + pageSize - 1)
  }

  /** A page with no products that keeps the requested page and size: the answer to every failure. */
  function EmptyPage(page: int, pageSize: int): PaginatedProducts {
    PaginatedProducts([], 0, page, pageSize, 0)
  }

  /** `x || undefined` on a number column: `null` and 0 are both falsy. */
  function NonZero(x: Option<real>): (r: Option<real>)
    ensures r.Some? <==> x.Some? && x.value != 0.0
    ensures r.Some? ==> r == x
  {
    if x.Some? && x.value != 0.0 then x else None
  }

  /** `x ?? d` (and `x || d` on a column whose present values are all truthy). */
  function Default<T>(x: Option<T>, d: T): (r: T)
    ensures x.Some? ==> r == x.value
    ensures x.None? ==> r == d
  {
    if x.Some? then x.value else d
  }

  /** The database row as a `Product`: falsy optional columns become their defaults. */
  function ToProduct(p: ProductRow): (r: Product)
    ensures r.id == p.id && r.slug == p.slug && r.name == p.name && r.brand == p.brand
    ensures r.description == p.description && r.price == p.price
    ensures r.compareAtPrice.Some? <==> p.compareAtPrice.Some? && p.compareAtPrice.value != 0.0
    ensures r.compareAtPrice.Some? ==> r.compareAtPrice == p.compareAtPrice
    ensures r.tags.Some? && r.categories.Some? && r.reviewsCount.Some? && r.inStock.Some?
    ensures p.tags.Some? ==> r.tags == p.tags
    ensures p.tags.None? ==> r.tags == Some([])
    ensures p.categories.Some? ==> r.categories == p.categories
    ensures p.categories.None? ==> r.categories == Some([])
    ensures r.flavors == p.flavors
    ensures r.rating.Some? <==> p.rating.Some? && p.rating.value != 0.0
    ensures r.images == (if p.images.Some? then p.images.value else [])
    ensures r.stock == (if p.stock.Some? then p.stock.value else 0)
    ensures r.inStock == Some(p.inStock == Some(true)) && r.discount.None?
  {
    Product(
      p.id, p.slug, p.name, p.brand, p.description, p.price,
      NonZero(p.compareAtPrice),
      Some(Default(p.tags, [])),
      Some(Default(p.categories, [])),
      p.flavors,
      NonZero(p.rating),
      Some(Default(p.reviewsCount, 0)),
      Default(p.images, []),
      Default(p.stock, 0),
      Some(p.inStock == Some(true)),
      None)
  }

  function ToProducts(rows: seq<ProductRow>): (r: seq<Product>)
    ensures |r| == |rows|
    ensures forall i :: 0 <= i < |rows| ==> r[i] == ToProduct(rows[i])
  {
    if rows == [] then [] else [ToProduct(rows[0])] + ToProducts(rows[1..])
  }

  /**
   * `listProducts(page, pageSize, filters)` once the query has been sent: `count` is the
   * reply to the separate, unfiltered count query. An error or a throw gives an empty
   * page; otherwise the rows are transformed in order, and the total and the number of
   * pages come from the unfiltered count.
   */
  function ListProducts(page: int, pageSize: int, reply: Reply, count: Option<nat>): (r: PaginatedProducts)
    requires pageSize >= 1
    ensures r.page == page && r.pageSize == pageSize
    ensures !reply.Rows? ==> r == EmptyPage(page, pageSize)
    ensures reply.Rows? ==> r.total == (if count.Some? then count.value else 0)
    ensures reply.Rows? ==> r.totalPages == Pagination.CeilDiv(r.total, pageSize)
    ensures reply.Rows? && reply.rows.Some? ==>
              |r.products| == |reply.rows.value| && forall i :: 0 <= i < |r.products| ==> r.products[i] == ToProduct(reply.rows.value[i])
    ensures reply.Rows? && reply.rows.None? ==> r.products == []
  {
    if !reply.Rows? then EmptyPage(page, pageSize)
    else
      var total := if count.Some? then count.value else 0;
      PaginatedProducts(
        ToProducts(if reply.rows.Some? then reply.rows.value else []),
        total, page, pageSize, Pagination.CeilDiv(total, pageSize))
  }

  // ---------------------------------------------------------------------------
  // The database side of listProducts
  // ---------------------------------------------------------------------------

  /** `column ilike '%s%'`: a case-insensitive substring test; a `null` column never matches. */
  predicate ILike(column: Option<string>, s: string) {
    column.Some? && Contains(Lower(column.value), Lower(s))
  }

  /**
   * The row passes every filter of the query: the `or(...)` of the search over name,
   * description, brand and an exact tag, `overlaps` on the categories, `in` on the brand,
   * and both price bounds.
   */
  predicate RowMatches(row: ProductRow, q: Query) {
    (q.search.None? || ILike(Some(row.name), q.search.value) || ILike(row.description, q.search.value)
       || ILike(row.brand, q.search.value) || (row.tags.Some? && q.search.value in row.tags.value))
    && (q.overlapsCategories.None? ||
        (row.categories.Some? && exists c :: c in row.categories.value && c in q.overlapsCategories.value))
    && (q.brandIn.None? || (row.brand.Some? && row.brand.value in q.brandIn.value))
    && (q.priceAtLeast.None? || row.price >= q.priceAtLeast.value)
    && (q.priceAtMost.None? || row.price <= q.priceAtMost.value)
  }

  /** The rows of the table that pass the query's filters, in the table's order. */
  function Matching(table: seq<ProductRow>, q: Query): (r: seq<ProductRow>)
    ensures forall row :: row in r <==> row in table && RowMatches(row, q)
    ensures |r| <= |table|
  {
    KeepMembers(table, (row: ProductRow) => RowMatches(row, q));
    Keep(table, (row: ProductRow) => RowMatches(row, q))
  }

  /**
   * What a database holding `table` answers to the query: the matching rows from offset
   * `from` to `to`; a negative offset is refused.
   */
  function Answer(table: seq<ProductRow>, q: Query): (r: Reply)
    ensures q.from < 0 <==> r == QueryError
    ensures q.from >= 0 ==> r.Rows? && r.rows.Some?
    ensures q.from >= 0 && q.to + 1 >= q.from ==> |r.rows.value| <= q.to + 1 - q.from
    ensures r.Rows? ==> forall row :: row in r.rows.value ==> row in table && RowMatches(row, q)
  {
    if q.from < 0 then QueryError
    else
      var m := Matching(table, q);
      var page := Pagination.Slice(m, q.from, if q.to + 1 >= q.from then q.to + 1 else q.from);
      assert forall row :: row in page ==> row in m;
      Rows(Some(page))
  }

  /**
   * `listProducts(page, pageSize, filters)` against a database holding `table`: the
   * filtered, ranged query for the products, and the separate count query, which has
   * no filters and so counts every row of the table.
   */
  function ListProductsIn(table: seq<ProductRow>, page: int, pageSize: int, filters: Filters): (r: PaginatedProducts)
    requires pageSize >= 1
    ensures page >= 1 ==> r.total == |table| && r.totalPages == Pagination.CeilDiv(|table|, pageSize)
    ensures page >= 1 ==> |r.products| <= pageSize
    ensures page < 1 ==> r == EmptyPage(page, pageSize)
  {
    var q := BuildQuery(page, pageSize, filters);
    if page >= 1 then
      OffsetOfPage(page, pageSize);
      ListProducts(page, pageSize, Answer(table, q), Some(|table|))
    else
      OffsetBeforeFirstPage(page, pageSize);
      ListProducts(page, pageSize, Answer(table, q), Some(|table|))
  }

  lemma OffsetOfPage(page: int, pageSize: int)
    requires page >= 1 && pageSize >= 1
    ensures (page - 1) * pageSize >= 0
  {
  }

  lemma OffsetBeforeFirstPage(page: int, pageSize: int)
    requires page < 1 && pageSize >= 1
    ensures (page - 1) * pageSize < 0
  {
  }

  /** Every product listed is the transform of a row of the table that passes the filters. */
  lemma ListedProductsMatch(table: seq<ProductRow>, page: int, pageSize: int, filters: Filters, i: int)
    requires pageSize >= 1
    requires 0 <= i < |ListProductsIn(table, page, pageSize, filters).products|
    ensures exists row :: row in table && RowMatches(row, BuildQuery(page, pageSize, filters))
                          && ListProductsIn(table, page, pageSize, filters).products[i] == ToProduct(row)
  {
    var q := BuildQuery(page, pageSize, filters);
    var reply := Answer(table, q);
    var row := reply.rows.value[i];
    assert row in reply.rows.value;
  }

  /**
   * The total and the page count do not depend on the filters: whatever two sets of
   * filters select, both pages report the size of the whole table.
   */
  lemma TotalIgnoresFilters(table: seq<ProductRow>, page: int, pageSize: int, f1: Filters, f2: Filters)
    requires pageSize >= 1 && page >= 1
    ensures ListProductsIn(table, page, pageSize, f1).total == ListProductsIn(table, page, pageSize, f2).total == |table|
    ensures ListProductsIn(table, page, pageSize, f1).totalPages == ListProductsIn(table, page, pageSize, f2).totalPages
  {
  }

  /**
   * Filters that no row passes list no products, yet the page still reports every row
   * of the table in its total, and at least one page when the table is not empty.
   */
  lemma TotalCountsFilteredOutRows(table: seq<ProductRow>, page: int, pageSize: int, filters: Filters)
    requires pageSize >= 1 && page >= 1
    requires forall row :: row in table ==> !RowMatches(row, BuildQuery(page, pageSize, filters))
    ensures var r := ListProductsIn(table, page, pageSize, filters);
            r.products == [] && r.total == |table| && (table != [] ==> r.totalPages >= 1)
  {
    var q := BuildQuery(page, pageSize, filters);
    OffsetOfPage(page, pageSize);
    assert forall i :: 0 <= i < |table| ==> !RowMatches(table[i], q);
    KeepNone(table, (row: ProductRow) => RowMatches(row, q));
    Pagination.CeilDivBounds(|table|, pageSize);
  }

  /** A search for "creatina" passes no row named "Whey" that has no description, brand or tags. */
  lemma SearchMissesOtherNames(page: int, pageSize: int)
    ensures var row := ProductRow("1", "whey", "Whey", None, None, 10.0, None, None, None, None, None, None, None, None, None);
            !RowMatches(row, BuildQuery(page, pageSize, Filters(Some("creatina"), None, None, None, None)))
  {
    assert |Lower("Whey")| == 4 && |Lower(Lower("creatina"))| == 8;
  }

  /** The rows asked for by consecutive pages follow each other without gap or overlap. */
  lemma PagesAdjacent(page: int, pageSize: int, filters: Filters)
    ensures BuildQuery(page + 1, pageSize, filters).from == BuildQuery(page, pageSize, filters).to + 1
  {
  }

  // ---------------------------------------------------------------------------
  // getAvailableFilters
  // ---------------------------------------------------------------------------

  /** The columns `getAvailableFilters` selects. */
  datatype FilterRow = FilterRow(categories: Option<seq<string>>, brand: Option<string>, price: real)

  /** A result of `Math.min` / `Math.max`, which give +Infinity and -Infinity for no arguments. */
  datatype Extreme = Finite(value: real) | PlusInfinity | MinusInfinity

  datatype AvailableFilters = AvailableFilters(categories: seq<string>, brands: seq<string>, min: Extreme, max: Extreme)

  /** The fallback for an error, a missing reply or a throw. */
  const Fallback := AvailableFilters([], [], Finite(0.0), Finite(100.0))

  /** `Math.min(...prices)`. */
  function MinPrice(prices: seq<real>): (r: Extreme)
    ensures prices == [] <==> r == PlusInfinity
    ensures prices != [] ==> r.Finite? && r.value in prices && forall x :: x in prices ==> r.value <= x
  {
    if prices == [] then PlusInfinity
    else
      var rest := MinPrice(prices[1..]);
      assert forall x :: x in prices ==> x == prices[0] || x in prices[1..];
      if rest.Finite? && rest.value < prices[0] then rest else Finite(prices[0])
  }

  /** `Math.max(...prices)`. */
  function MaxPrice(prices: seq<real>): (r: Extreme)
    ensures prices == [] <==> r == MinusInfinity
    ensures prices != [] ==> r.Finite? && r.value in prices && forall x :: x in prices ==> x <= r.value
  {
    if prices == [] then MinusInfinity
    else
      var rest := MaxPrice(prices[1..]);
      assert forall x :: x in prices ==> x == prices[0] || x in prices[1..];
      if rest.Finite? && rest.value > prices[0] then rest else Finite(prices[0])
  }

  /** `products.flatMap(p => p.categories || [])`. */
  function AllCategories(rows: seq<FilterRow>): (r: seq<string>)
    ensures forall c :: c in r <==> exists i :: 0 <= i < |rows| && rows[i].categories.Some? && c in rows[i].categories.value
  {
    if rows == [] then []
    else
      var rest := AllCategories(rows[1..]);
      assert forall i :: 1 <= i < |rows| ==> rows[i] == rows[1..][i - 1];
      (if rows[0].categories.Some? then rows[0].categories.value else []) + rest
  }

  /** `products.map(p => p.brand).filter(Boolean)`. */
  function AllBrands(rows: seq<FilterRow>): (r: seq<string>)
    ensures forall b :: b in r <==> b != [] && exists i :: 0 <= i < |rows| && rows[i].brand == Some(b)
  {
    if rows == [] then []
    else
      var rest := AllBrands(rows[1..]);
      assert forall i :: 1 <= i < |rows| ==> rows[i] == rows[1..][i - 1];
      (if Filled(rows[0].brand) then [rows[0].brand.value] else []) + rest
  }

  function Prices(rows: seq<FilterRow>): (r: seq<real>)
    ensures |r| == |rows| && forall i :: 0 <= i < |rows| ==> r[i] == rows[i].price
  {
    if rows == [] then [] else [rows[0].price] + Prices(rows[1..])
  }

  /**
   * `getAvailableFilters()`: the distinct categories and non-empty brands of every
   * product and the extreme prices; `None` stands for an error, a `null` reply or a throw.
   */
  function GetAvailableFilters(reply: Option<seq<FilterRow>>): (r: AvailableFilters)
    ensures reply.None? ==> r == Fallback
    ensures NoDuplicates(r.categories) && NoDuplicates(r.brands)
    ensures reply.Some? ==> forall c :: c in r.categories <==>
              exists i :: 0 <= i < |reply.value| && reply.value[i].categories.Some? && c in reply.value[i].categories.value
    ensures reply.Some? ==> forall b :: b in r.brands <==>
              b != [] && exists i :: 0 <= i < |reply.value| && reply.value[i].brand == Some(b)
    ensures reply.Some? ==> r.min == MinPrice(Prices(reply.value)) && r.max == MaxPrice(Prices(reply.value))
  {
    if reply.None? then Fallback
    else
      var rows := reply.value;
      AvailableFilters(Dedup(AllCategories(rows)), Dedup(AllBrands(rows)),
                       MinPrice(Prices(rows)), MaxPrice(Prices(rows)))
  }

  /** With at least one product the range is finite, holds every price and both ends are prices of some product. */
  lemma PriceRangeCoversEveryPrice(rows: seq<FilterRow>)
    requires rows != []
    ensures var r := GetAvailableFilters(Some(rows));
            r.min.Finite? && r.max.Finite? && r.min.value <= r.max.value
            && (exists i :: 0 <= i < |rows| && rows[i].price == r.min.value)
            && (exists j :: 0 <= j < |rows| && rows[j].price == r.max.value)
            && forall i :: 0 <= i < |rows| ==> r.min.value <= rows[i].price <= r.max.value
  {
    var ps := Prices(rows);
    assert ps[0] in ps;
    forall i | 0 <= i < |rows|
      ensures ps[i] in ps
    {
    }
  }

  /** With no products at all the range is the empty one, +Infinity to -Infinity, not the {0, 100} fallback. */
  lemma NoProductsGiveInfiniteRange()
    ensures GetAvailableFilters(Some([])) == AvailableFilters([], [], PlusInfinity, MinusInfinity)
  {
  }
}
