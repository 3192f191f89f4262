/**
 * The catalogue page (app/productos/page.tsx). It keeps the search text, the filters
 * the panel last emitted and the page number; on every change it sends them to
 * `GET /api/products` as query-string parameters and turns the answer into the shown
 * products, with their discount percentage and stock flag.
 */
module ProductsPage {
  import opened Text
  import ProductFilters
  import ProductsRoute
  import Pagination
  import Catalog
  import Cart
  import Checkout

  type FilterState = ProductFilters.FilterState
  type Params = ProductsRoute.Params

  /** The page's own starting filters, which differ from the panel's in the price range. */
  const InitialFilters := ProductFilters.FilterState([], 0, 200, false, false, false)

  /**
   * `new URLSearchParams({ page, limit: "12" })` and the appends after it: the search
   * text and the comma-joined categories when non-empty, both price bounds once the
   * price was committed, and each flag only when it is set.
   */
  function BuildParams(page: int, searchQuery: string, f: FilterState): (ps: Params)
    ensures |ps| >= 2 && ps[0] == ("page", IntToString(page)) && ps[1] == ("limit", "12")
  {
    [("page", IntToString(page)), ("limit", "12")]
    + ((if searchQuery != [] then [("search", searchQuery)] else [])
    + ((if f.categories != [] then [("categories", Join(f.categories, ","))] else [])
    + ((if f.hasTouchedPrice then [("minPrice", IntToString(f.low)), ("maxPrice", IntToString(f.high))] else [])
    + ((if f.inStock then [("inStock", "true")] else [])
    + (if f.onSale then [("onSale", "true")] else [])))))
  }

  /** A part of the query string without the key is skipped; one with it decides. */
  lemma GetAcross(a: Params, b: Params, key: string)
    ensures ProductsRoute.Get(a, key).None? ==> ProductsRoute.Get(a + b, key) == ProductsRoute.Get(b, key)
    ensures ProductsRoute.Get(a, key).Some? ==> ProductsRoute.Get(a + b, key) == ProductsRoute.Get(a, key)
  {
    ProductsRoute.GetAppend(a, b, key);
  }

  /** `Get` on a part of at most two pairs, written out. */
  function Small(part: Params, key: string): Option<string> {
    if |part| > 0 && part[0].0 == key then Some(part[0].1)
    else if |part| > 1 && part[1].0 == key then Some(part[1].1)
    else None
  }

  lemma GetSmall(part: Params, key: string)
    requires |part| <= 2
    ensures ProductsRoute.Get(part, key) == Small(part, key)
  {
    if part != [] && part[0].0 != key {
      assert |part[1..]| <= 1;
    }
  }

  /** How one key is read from the assembled query string: the first part that has it decides. */
  lemma ReadKey(page: int, searchQuery: string, f: FilterState, key: string)
    ensures ProductsRoute.Get(BuildParams(page, searchQuery, f), key)
            == Or(Small([("page", IntToString(page)), ("limit", "12")], key),
               Or(Small(if searchQuery != [] then [("search", searchQuery)] else [], key),
               Or(Small(if f.categories != [] then [("categories", Join(f.categories, ","))] else [], key),
               Or(Small(if f.hasTouchedPrice then [("minPrice", IntToString(f.low)), ("maxPrice", IntToString(f.high))] else [], key),
               Or(Small(if f.inStock then [("inStock", "true")] else [], key),
                  Small(if f.onSale then [("onSale", "true")] else [], key))))))
  {
    var base: Params := [("page", IntToString(page)), ("limit", "12")];
    var s1: Params := if searchQuery != [] then [("search", searchQuery)] else [];
    var s2: Params := if f.categories != [] then [("categories", Join(f.categories, ","))] else [];
    var s3: Params := if f.hasTouchedPrice then [("minPrice", IntToString(f.low)), ("maxPrice", IntToString(f.high))] else [];
    var s4: Params := if f.inStock then [("inStock", "true")] else [];
    var s5: Params := if f.onSale then [("onSale", "true")] else [];
    var r4 := s4 + s5;
    var r3 := s3 + r4;
    var r2 := s2 + r3;
    var r1 := s1 + r2;
    assert BuildParams(page, searchQuery, f) == base + r1;
    GetAcross(s4, s5, key);
    GetAcross(s3, r4, key);
    GetAcross(s2, r3, key);
    GetAcross(s1, r2, key);
    GetAcross(base, r1, key);
    GetSmall(base, key);
    GetSmall(s1, key);
    GetSmall(s2, key);
    GetSmall(s3, key);
    GetSmall(s4, key);
    GetSmall(s5, key);
  }

  /** What the endpoint reads back from the parameters: each key is present exactly when the page appended it. */
  lemma ParamsRead(page: int, searchQuery: string, f: FilterState)
    ensures var ps := BuildParams(page, searchQuery, f);
            ProductsRoute.Get(ps, "page") == Some(IntToString(page))
            && ProductsRoute.Get(ps, "limit") == Some("12")
            && ProductsRoute.Get(ps, "search") == (if searchQuery != [] then Some(searchQuery) else None)
            && ProductsRoute.Get(ps, "categories") == (if f.categories != [] then Some(Join(f.categories, ",")) else None)
            && ProductsRoute.Get(ps, "minPrice") == (if f.hasTouchedPrice then Some(IntToString(f.low)) else None)
            && ProductsRoute.Get(ps, "maxPrice") == (if f.hasTouchedPrice then Some(IntToString(f.high)) else None)
            && ProductsRoute.Get(ps, "inStock") == (if f.inStock then Some("true") else None)
            && ProductsRoute.Get(ps, "onSale") == (if f.onSale then Some("true") else None)
  {
    ReadKey(page, searchQuery, f, "page");
    ReadKey(page, searchQuery, f, "limit");
    ReadKey(page, searchQuery, f, "search");
    ReadKey(page, searchQuery, f, "categories");
    ReadKey(page, searchQuery, f, "minPrice");
    ReadKey(page, searchQuery, f, "maxPrice");
    ReadKey(page, searchQuery, f, "inStock");
    ReadKey(page, searchQuery, f, "onSale");
  }

  function Or(x: Option<string>, y: Option<string>): Option<string> {
    if x.Some? then x else y
  }

  /** The route reads back the page number the page sent and its limit of twelve. */
  lemma PageAndLimitRead(page: int, searchQuery: string, f: FilterState, other: string -> Num)
    ensures ProductsRoute.PageParam(BuildParams(page, searchQuery, f), other) == Fin(page as real)
    ensures ProductsRoute.LimitParam(BuildParams(page, searchQuery, f), other) == Fin(12.0)
  {
    ParamsRead(page, searchQuery, f);
    ToNumberOfIntToString(page, other);
    ToNumberOfOneAndTwelve(other);
  }

  /** Categories ticked in the panel reach the route unchanged, in order. */
  lemma CategoriesRead(page: int, searchQuery: string, f: FilterState)
    requires forall c :: c in f.categories ==> c in ProductFilters.Categories
    ensures ProductsRoute.CategoriesParam(BuildParams(page, searchQuery, f)) == f.categories
  {
    ParamsRead(page, searchQuery, f);
    ProductFilters.CategoriesAreClean();
    forall k | 0 <= k < |f.categories|
      ensures f.categories[k] != [] && IsTrimmed(f.categories[k]) && ',' !in f.categories[k]
    {
      assert f.categories[k] in ProductFilters.Categories;
    }
    SplitTrimmedOfJoin(f.categories, ',');
    if f.categories == [] {
      assert Split("", ',') == [""];
    }
  }

  /** The price bounds reach the route exactly when the price was committed. */
  lemma PricesRead(page: int, searchQuery: string, f: FilterState, other: string -> Num)
    ensures var q := ProductsRoute.BuildQuery(BuildParams(page, searchQuery, f), other);
            q.priceAtLeast == (if f.hasTouchedPrice then Some(Fin(f.low as real)) else None)
            && q.priceAtMost == (if f.hasTouchedPrice then Some(Fin(f.high as real)) else None)
  {
    ParamsRead(page, searchQuery, f);
    ToNumberOfIntToString(f.low, other);
    ToNumberOfIntToString(f.high, other);
    IntToStringFilled(f.low);
    IntToStringFilled(f.high);
  }

  /** The route's reading of the page's request: the search trimmed, the panel's categories, the committed price bounds, the two flags and the rows of page `page`. */
  lemma RouteSeesPageFilters(page: int, searchQuery: string, f: FilterState, other: string -> Num)
    requires forall c :: c in f.categories ==> c in ProductFilters.Categories
    ensures var q := ProductsRoute.BuildQuery(BuildParams(page, searchQuery, f), other);
            q == ProductsRoute.Query(
                   if Trim(searchQuery) == [] then None else Some(Trim(searchQuery)),
                   if f.categories == [] then None else Some(f.categories),
                   if f.hasTouchedPrice then Some(Fin(f.low as real)) else None,
                   if f.hasTouchedPrice then Some(Fin(f.high as real)) else None,
                   f.inStock,
                   f.onSale,
                   Fin(((page - 1) * 12) as real),
                   Fin((page * 12 - 1) as real))
  {
    SearchRead(page, searchQuery, f, other);
    FlagsRead(page, searchQuery, f, other);
    RowsRead(page, searchQuery, f, other);
    CategoriesRead(page, searchQuery, f);
    PricesRead(page, searchQuery, f, other);
  }

  /** The search text reaches the route trimmed, and a blank one is no filter. */
  lemma SearchRead(page: int, searchQuery: string, f: FilterState, other: string -> Num)
    ensures ProductsRoute.BuildQuery(BuildParams(page, searchQuery, f), other).nameLike
            == (if Trim(searchQuery) == [] then None else Some(Trim(searchQuery)))
  {
    ParamsRead(page, searchQuery, f);
    if searchQuery == [] {
      assert AllSpace(searchQuery);
    }
  }

  /** The two check boxes reach the route as they are. */
  lemma FlagsRead(page: int, searchQuery: string, f: FilterState, other: string -> Num)
    ensures var q := ProductsRoute.BuildQuery(BuildParams(page, searchQuery, f), other);
            q.inStockOnly == f.inStock && q.onSaleOnly == f.onSale
  {
    ParamsRead(page, searchQuery, f);
  }

  /** Page `page` of twelve asks for rows `(page - 1) * 12` to `page * 12 - 1`. */
  lemma RowsRead(page: int, searchQuery: string, f: FilterState, other: string -> Num)
    ensures var q := ProductsRoute.BuildQuery(BuildParams(page, searchQuery, f), other);
            q.from == Fin(((page - 1) * 12) as real) && q.to == Fin((page * 12 - 1) as real)
  {
    PageAndLimitRead(page, searchQuery, f, other);
    RowRange(page);
  }

  lemma RowRange(page: int)
    ensures var from := ProductsRoute.From(Fin(page as real), Fin(12.0));
            from == Fin(((page - 1) * 12) as real) && ProductsRoute.To(from, Fin(12.0)) == Fin((page * 12 - 1) as real)
  {
  }

  /** A decimal numeral is never blank, so the price bounds the page sends are always applied. */
  lemma IntToStringFilled(n: int)
    ensures Filled(Some(IntToString(n)))
  {
  }

  /** `Math.round`: the nearest whole number, halves rounded up. */
  function Round(x: real): (r: int)
    ensures r as real - 0.5 <= x < r as real + 0.5
  {
    (x + 0.5).Floor
  }

  /** The percentage shown as discount: rounded from the compare-at price when that is a non-zero number, else 0. */
  function Discount(price: real, compareAtPrice: Option<real>): (r: int)
    ensures r != 0 ==> compareAtPrice.Some? && compareAtPrice.value != 0.0 && price != compareAtPrice.value
  {
    if compareAtPrice.Some? && compareAtPrice.value != 0.0 then
      Round((compareAtPrice.value - price) / compareAtPrice.value * 100.0)
    else 0
  }

  /** A price between 0 and a positive compare-at price gives a discount between 0 and 100 percent. */
  lemma DiscountWithinPercent(price: real, compareAt: real)
    requires 0.0 <= price <= compareAt && compareAt > 0.0
    ensures 0 <= Discount(price, Some(compareAt)) <= 100
  {
    var x := (compareAt - price) / compareAt;
    FractionWithinOne(compareAt - price, compareAt, x);
  }

  lemma FractionWithinOne(n: real, d: real, x: real)
    requires 0.0 <= n <= d && d > 0.0 && x == n / d
    ensures 0.0 <= x <= 1.0
  {
  }

  /** A price above the compare-at price shows a discount of zero or less, never a positive one. */
  lemma NoDiscountAbovePrice(price: real, compareAt: real)
    requires price > compareAt > 0.0
    ensures Discount(price, Some(compareAt)) <= 0
  {
    var x := (compareAt - price) / compareAt;
    NegativeFraction(compareAt - price, compareAt, x);
  }

  lemma NegativeFraction(n: real, d: real, x: real)
    requires n < 0.0 && d > 0.0 && x == n / d
    ensures x < 0.0
  {
  }

  /** A product at 30 that used to cost 40 shows 25 percent off. */
  lemma DiscountExample()
    ensures Discount(30.0, Some(40.0)) == 25
  {
    assert (40.0 - 30.0) / 40.0 * 100.0 == 25.0;
  }

  /** A product as the grid receives it. */
  datatype Shown = Shown(
    id: string,
    slug: string,
    name: string,
    brand: Option<string>,
    description: Option<string>,
    price: real,
    compareAtPrice: Option<real>,
    image: Option<string>,
    images: seq<string>,
    category: Option<string>,
    tags: seq<string>,
    rating: Option<real>,
    reviewsCount: int,
    stock: int,
    discount: int,
    inStock: bool)

  /** The `products.map(...)` step: nulls become defaults, the discount and the stock flag are derived. */
  function ShowProduct(row: ProductsRoute.Row): (s: Shown)
    ensures s.inStock <==> s.stock > 0
    ensures s.compareAtPrice.Some? <==> row.compareAtPrice.Some? && row.compareAtPrice.value != 0.0
    ensures s.discount != 0 ==> s.compareAtPrice.Some?
    ensures |s.images| <= 1 && (s.images != [] ==> row.image.Some? && s.images == [row.image.value])
  {
    var stock := if row.stock.Some? then row.stock.value else 0;
    Shown(
      row.id, row.slug, row.name, row.brand, row.description, row.price,
      if row.compareAtPrice.Some? && row.compareAtPrice.value != 0.0 then row.compareAtPrice else None,
      row.image,
      if row.image.Some? && row.image.value != [] then [row.image.value] else [],
      row.category,
      if row.tags.Some? then row.tags.value else [],
      row.rating,
      if row.reviewsCount.Some? then row.reviewsCount.value else 0,
      stock,
      Discount(row.price, row.compareAtPrice),
      stock > 0)
  }

  /**
   * The shown product as the grid's add-to-cart button hands it to the cart: the same
   * object, read through the shared product record. The single `category` has no
   * counterpart there, and `categories` and `flavors` are absent.
   */
  function AsCartProduct(s: Shown): (p: Catalog.Product)
    ensures p.id == s.id && p.name == s.name && p.price == s.price
    ensures p.discount == Some(s.discount) && p.inStock == Some(s.inStock) && p.stock == s.stock
  {
    Catalog.Product(s.id, s.slug, s.name, s.brand, s.description, s.price, s.compareAtPrice,
                    Some(s.tags), None, None, s.rating, Some(s.reviewsCount), s.images, s.stock,
                    Some(s.inStock), Some(s.discount))
  }

  /**
   * A product added from the catalogue grid keeps the percentage the page computed,
   * and the order placed at checkout carries it on that product's line.
   */
  lemma CatalogueDiscountReachesOrder(row: ProductsRoute.Row, items: seq<Cart.CartItem>, quantity: int,
                                      flavor: Option<string>)
    requires !Cart.HasLine(items, row.id, flavor)
    ensures var s := ShowProduct(row);
            var lines := Checkout.OrderLines(Cart.AddLine(items, AsCartProduct(s), quantity, flavor));
            |lines| == |items| + 1
            && lines[|items|].productId == row.id && lines[|items|].quantity == quantity
            && lines[|items|].discount == Discount(row.price, row.compareAtPrice) as real
  {
    var s := ShowProduct(row);
    var added := Cart.AddLine(items, AsCartProduct(s), quantity, flavor);
    assert added == items + [Cart.CartItem(AsCartProduct(s), quantity, flavor)];
    assert added[|items|].product == AsCartProduct(s);
  }

  /** `productsData` once loaded. */
  datatype PageView = PageView(products: seq<Shown>, total: real, page: real, pageSize: real, totalPages: Num)

  /** What the page shows when the request fails for any reason. */
  const Failed := PageView([], 0.0, 1.0, 12.0, Fin(0.0))

  /** What awaiting `fetch` gives: the endpoint's response, or `None` when the request itself failed. */
  function Fetch(ps: Params, other: string -> Num, reply: Option<ProductsRoute.Reply>): Option<ProductsRoute.Response> {
    if reply.Some? then Some(ProductsRoute.Handle(ps, other, reply.value)) else None
  }

  /**
   * The view of a response: a non-2xx status or a failed request gives `Failed`;
   * a listing falls back to 0, 1 and 12 for a null total, page and limit, and, when the
   * page count is null, to the ceiling of total over limit (NaN when that limit is 0).
   */
  function ViewOf(resp: Option<ProductsRoute.Response>): (v: PageView)
    ensures resp.None? || resp.value.ServerError? ==> v == Failed
    ensures resp.Some? && resp.value.Listing? ==>
              |v.products| == |resp.value.products|
              && (forall i :: 0 <= i < |v.products| ==> v.products[i] == ShowProduct(resp.value.products[i]))
  {
    if resp.None? || ProductsRoute.Status(resp.value) != 200 then Failed
    else
      var d := resp.value;
      var limit := if d.limit.Some? then d.limit.value else 12.0;
      PageView(
        seq(|d.products|, i requires 0 <= i < |d.products| => ShowProduct(d.products[i])),
        d.total as real,
        if d.page.Some? then d.page.value else 1.0,
        limit,
        if d.totalPages.Some? then Fin(d.totalPages.value as real)
        else if limit != 0.0 then Fin(ProductsRoute.Ceil(d.total as real / limit) as real)
        else NaN)
  }

  /** The endpoint's answer to the page's own request echoes the page and the limit of twelve and counts the pages as the pagination helper does. */
  lemma ListingResponse(page: int, searchQuery: string, f: FilterState, other: string -> Num,
                        data: Option<seq<ProductsRoute.Row>>, count: Option<nat>)
    ensures var total := if count.Some? then count.value else 0;
            ProductsRoute.Handle(BuildParams(page, searchQuery, f), other, ProductsRoute.Rows(data, count))
            == ProductsRoute.Listing(if data.Some? then data.value else [], total,
                                     Some(page as real), Some(12.0), Some(Pagination.CeilDiv(total, 12)))
  {
    var total := if count.Some? then count.value else 0;
    PageAndLimitRead(page, searchQuery, f, other);
    TwelvePerPage(total);
  }

  lemma TwelvePerPage(total: nat)
    ensures ProductsRoute.TotalPages(total, Fin(12.0)) == Some(Pagination.CeilDiv(total, 12))
  {
    ProductsRoute.CeilIsCeilDiv(total, 12);
  }

  /** A listing for the page's own request shows that page, twelve per page, and the pagination helper's page count. */
  lemma ListingView(page: int, searchQuery: string, f: FilterState, other: string -> Num,
                    data: Option<seq<ProductsRoute.Row>>, count: Option<nat>)
    ensures var total := if count.Some? then count.value else 0;
            var v := ViewOf(Fetch(BuildParams(page, searchQuery, f), other, Some(ProductsRoute.Rows(data, count))));
            v.page == page as real && v.pageSize == 12.0 && v.total == total as real
            && v.totalPages == Fin(Pagination.CeilDiv(total, 12) as real)
            && |v.products| == (if data.Some? then |data.value| else 0)
  {
    ListingResponse(page, searchQuery, f, other, data, count);
  }

  /** The request fails, or the endpoint answers 500: the page shows no products and no pages. */
  lemma FailureView(ps: Params, other: string -> Num, reply: Option<ProductsRoute.Reply>)
    requires reply.None? || !reply.value.Rows?
    ensures ViewOf(Fetch(ps, other, reply)) == Failed && Failed.totalPages == Fin(0.0)
  {
  }

  /**
   * The page component. Its effect runs after every change of `page`, `filters` or
   * `searchQuery`; `Load` is one run of it. Every request made is kept in `requests`.
   */
  class Catalogue {
    var searchQuery: string
    var filters: FilterState
    var page: int
    var view: Option<PageView>
    var isLoading: bool
    var requests: seq<Params>

    /** Nothing ever sets a page other than 1, so every request asks for the first twelve products. */
    predicate Valid()
      reads this
    {
      page == 1
      && forall k :: 0 <= k < |requests| ==>
           ProductsRoute.Get(requests[k], "page") == Some("1") && ProductsRoute.Get(requests[k], "limit") == Some("12")
    }

    /** Mounting: the search starts from the `search` parameter of the address, or empty. */
    constructor(initialSearch: Option<string>)
      ensures Valid()
      ensures searchQuery == OrElse(initialSearch, "") && filters == InitialFilters
      ensures view.None? && isLoading && requests == []
    {
      searchQuery := OrElse(initialSearch, "");
      filters := InitialFilters;
      page := 1;
      view := None;
      isLoading := true;
      requests := [];
    }

    /** `handleFilterChange`: takes the panel's filters and goes back to page 1. */
    method HandleFilterChange(newFilters: FilterState)
      requires Valid()
      modifies this
      ensures Valid()
      ensures filters == newFilters && page == 1
      ensures searchQuery == old(searchQuery) && view == old(view) && isLoading == old(isLoading) && requests == old(requests)
    {
      filters := newFilters;
      page := 1;
    }

    /** `handleSearch`: takes the typed text and goes back to page 1. */
    method HandleSearch(value: string)
      requires Valid()
      modifies this
      ensures Valid()
      ensures searchQuery == value && page == 1
      ensures filters == old(filters) && view == old(view) && isLoading == old(isLoading) && requests == old(requests)
    {
      searchQuery := value;
      page := 1;
    }

    /** One run of the effect: builds the request, shows what comes back, and stops loading. */
    method Load(other: string -> Num, reply: Option<ProductsRoute.Reply>) returns (sent: Params)
      requires Valid()
      modifies this
      ensures Valid()
      ensures sent == BuildParams(1, searchQuery, filters)
      ensures requests == old(requests) + [sent]
      ensures view == Some(ViewOf(Fetch(sent, other, reply))) && !isLoading
      ensures searchQuery == old(searchQuery) && filters == old(filters) && page == old(page)
    {
      isLoading := true;
      sent := BuildParams(page, searchQuery, filters);
      ParamsRead(page, searchQuery, filters);
      assert IntToString(1) == "1";
      requests := requests + [sent];
      view := Some(ViewOf(Fetch(sent, other, reply)));
      isLoading := false;
    }
  }
}
