/**
 * The header search box (components/search-dropdown.tsx): a debounced product query
 * for two or more characters, keyboard selection over the results, and navigation.
 */
module SearchDropdown {
  import opened Text
  import opened Catalog
  import ProductsRoute

  // ---------------------------------------------------------------------------
  // encodeURIComponent
  // ---------------------------------------------------------------------------

  /** The characters `encodeURIComponent` leaves as they are. */
  predicate Unreserved(c: char) {
    'A' <= c <= 'Z' || 'a' <= c <= 'z' || '0' <= c <= '9'
    || c == '-' || c == '_' || c == '.' || c == '!' || c == '~' || c == '*' || c == '\'' || c == '(' || c == ')'
  }

  predicate UpperHex(c: char) {
    '0' <= c <= '9' || 'A' <= c <= 'F'
  }

  function HexDigit(d: nat): (c: char)
    requires d < 16
    ensures UpperHex(c)
  {
    if d < 10 then ('0' as int + d) as char else ('A' as int + d - 10) as char
  }

  /** The UTF-8 encoding of one character. */
  function Utf8(c: char): (bs: seq<nat>)
    ensures 1 <= |bs| <= 4 && forall i :: 0 <= i < |bs| ==> bs[i] < 256
    ensures c as int < 0x80 <==> |bs| == 1
  {
    var n := c as int;
    if n < 0x80 then [n]
    else if n < 0x800 then [0xC0 + n / 64, 0x80 + n % 64]
    else if n < 0x10000 then [0xE0 + n / 4096, 0x80 + (n / 64) % 64, 0x80 + n % 64]
    else [0xF0 + n / 262144, 0x80 + (n / 4096) % 64, 0x80 + (n / 64) % 64, 0x80 + n % 64]
  }

  function Percent(bs: seq<nat>): (r: string)
    requires forall i :: 0 <= i < |bs| ==> bs[i] < 256
    ensures |r| == 3 * |bs|
    ensures forall i :: 0 <= i < |r| ==> r[i] == '%' || UpperHex(r[i])
  {
    if bs == [] then [] else ['%', HexDigit(bs[0] / 16), HexDigit(bs[0] % 16)] + Percent(bs[1..])
  }

  /** `encodeURIComponent`: unreserved characters as they are, every other one as its percent-encoded UTF-8 bytes. */
  function EncodeURIComponent(s: string): (r: string)
    ensures forall i :: 0 <= i < |r| ==> Unreserved(r[i]) || r[i] == '%'
    ensures |r| >= |s|
  {
    if s == [] then []
    else (if Unreserved(s[0]) then [s[0]] else Percent(Utf8(s[0]))) + EncodeURIComponent(s[1..])
  }

  /** The encoded query cannot end the parameter or start another: no "&", "=", "#", "+" or space survives. */
  lemma EncodedStaysOneParameter(s: string)
    ensures var r := EncodeURIComponent(s);
            '&' !in r && '=' !in r && '#' !in r && '+' !in r && ' ' !in r && '/' !in r && '?' !in r
  {
  }

  lemma {:induction false} EncodeUnreserved(s: string)
    requires forall i :: 0 <= i < |s| ==> Unreserved(s[i])
    ensures EncodeURIComponent(s) == s
  {
    if s != [] {
      EncodeUnreserved(s[1..]);
    }
  }

  /** A space is "%20" and an ampersand "%26". */
  lemma EncodeAsciiExamples()
    ensures EncodeURIComponent("a b") == "a%20b"
    ensures EncodeURIComponent("&") == "%26"
  {
    assert Utf8(' ') == [32];
    assert Utf8('&') == [38];
  }

  /** A non-ASCII letter is its UTF-8 bytes: "ñ" is "%C3%B1". */
  lemma EncodeLatinExample()
    ensures EncodeURIComponent("ñ") == "%C3%B1"
  {
    var bs := Utf8('ñ');
    assert bs == [0xC3, 0xB1];
    assert HexDigit(12) == 'C' && HexDigit(3) == '3' && HexDigit(11) == 'B' && HexDigit(1) == '1';
    assert Percent(bs[1..]) == ['%', 'B', '1'] + Percent([]);
    assert Percent(bs) == ['%', 'C', '3'] + Percent(bs[1..]);
    assert EncodeURIComponent("ñ") == Percent(bs) + EncodeURIComponent("");
  }

  // ---------------------------------------------------------------------------
  // The dropdown
  // ---------------------------------------------------------------------------

  datatype Key = ArrowDown | ArrowUp | Enter | Escape | OtherKey

  /** The product fetch: the `products` of the answer (`None` when missing), or a failed request. */
  datatype Fetch = Answered(products: Option<seq<Product>>) | FetchFailed

  /** The query is long enough to search: at least 2 UTF-16 units once trimmed. */
  predicate Searchable(query: string)
    ensures Searchable(query) ==> |Trim(query)| >= 1
    ensures |Trim(query)| >= 2 ==> Searchable(query)
  {
    Utf16Length(Trim(query)) >= 2
  }

  class Dropdown {
    var isOpen: bool
    var query: string
    var results: seq<Product>
    var selectedIndex: int

    /** The selection is -1 or, while there are results, a position among them. */
    predicate Valid()
      reads this
    {
      -1 <= selectedIndex && (results != [] ==> selectedIndex < |results|)
    }

    constructor()
      ensures Valid() && !isOpen && query == "" && results == [] && selectedIndex == -1
    {
      isOpen, query, results, selectedIndex := false, "", [], -1;
    }

    /** `handleInputChange`. */
    method InputChange(value: string)
      modifies this
      requires Valid()
      ensures Valid()
      ensures query == value && isOpen && results == old(results) && selectedIndex == old(selectedIndex)
    {
      query := value;
      isOpen := true;
    }

    /**
     * The debounced search. A short query clears the results and sends no request;
     * otherwise it asks `/api/products` for page 1 of 5 products matching the query
     * (the request's parameters are returned), and new results reset the selection.
     * A failed fetch clears the results.
     */
    method Search(fetch: Fetch) returns (request: Option<ProductsRoute.Params>)
      modifies this
      requires Valid()
      ensures Valid()
      ensures request.Some? <==> Searchable(query)
      ensures request.Some? ==> request.value == [("page", "1"), ("limit", "5"), ("search", query)]
      ensures query == old(query) && isOpen == old(isOpen)
      ensures request.None? ==> results == [] && selectedIndex == old(selectedIndex)
      ensures request.Some? && fetch.Answered? ==>
                results == (if fetch.products.Some? then fetch.products.value else []) && selectedIndex == -1
      ensures request.Some? && fetch.FetchFailed? ==> results == [] && selectedIndex == old(selectedIndex)
    {
      if !Searchable(query) {
        results := [];
        return None;
      }
      request := Some([("page", "1"), ("limit", "5"), ("search", query)]);
      match fetch {
        case Answered(products) =>
          results := if products.Some? then products.value else [];
          selectedIndex := -1;
        case FetchFailed =>
          results := [];
      }
    }

    /** `handleClear`. */
    method Clear()
      modifies this
      ensures Valid()
      ensures query == "" && results == [] && !isOpen && selectedIndex == -1
    {
      query, results, isOpen, selectedIndex := "", [], false, -1;
    }

    /**
     * `handleKeyDown`: the arrows move the selection within -1..|results| - 1; Enter opens
     * the selected product (the first one when nothing is selected), or with no results
     * and a searchable query opens the search page; Escape closes the list.
     */
    method KeyDown(key: Key) returns (target: Option<string>)
      modifies this
      requires Valid()
      ensures Valid()
      ensures key == ArrowDown ==>
                target.None? && results == old(results) && query == old(query) && isOpen == old(isOpen)
                && selectedIndex == (if old(selectedIndex) < |old(results)| - 1 then old(selectedIndex) + 1 else old(selectedIndex))
      ensures key == ArrowUp ==>
                target.None? && results == old(results) && query == old(query) && isOpen == old(isOpen)
                && selectedIndex == (if old(selectedIndex) > 0 then old(selectedIndex) - 1 else -1)
      ensures key == Enter && old(results) != [] ==>
                var i := if 0 <= old(selectedIndex) < |old(results)| then old(selectedIndex) else 0;
                target == Some("/productos/" + old(results)[i].slug)
      ensures key == Enter && old(results) == [] ==>
                (target.Some? <==> Searchable(old(query)))
                && (target.Some? ==> target.value == "/productos?search=" + EncodeURIComponent(old(query)))
      ensures key == Enter && target.Some? ==> query == "" && results == [] && !isOpen && selectedIndex == -1
      ensures key == Enter && target.None? ==>
                query == old(query) && results == old(results) && isOpen == old(isOpen) && selectedIndex == old(selectedIndex)
      ensures key == Escape ==>
                target.None? && !isOpen && query == old(query) && results == old(results) && selectedIndex == old(selectedIndex)
      ensures key == OtherKey ==>
                target.None? && isOpen == old(isOpen) && query == old(query) && results == old(results)
                && selectedIndex == old(selectedIndex)
    {
      target := None;
      match key {
        case ArrowDown =>
          if selectedIndex < |results| - 1 {
            selectedIndex := selectedIndex + 1;
          }
        case ArrowUp =>
          selectedIndex := if selectedIndex > 0 then selectedIndex - 1 else -1;
        case Enter =>
          if |results| > 0 {
            var i := if 0 <= selectedIndex < |results| then selectedIndex else 0;
            target := Some("/productos/" + results[i].slug);
            Clear();
          } else if Searchable(query) {
            target := Some("/productos?search=" + EncodeURIComponent(query));
            Clear();
          }
        case Escape =>
          isOpen := false;
        case OtherKey =>
      }
    }

    /** `handleProductClick`. */
    method ProductClick(slug: string) returns (target: string)
      modifies this
      ensures target == "/productos/" + slug
      ensures Valid() && query == "" && results == [] && !isOpen && selectedIndex == -1
    {
      target := "/productos/" + slug;
      Clear();
    }
  }

  /** `Get` on a query string of three pairs, written out. */
  lemma GetOfThree(a: (string, string), b: (string, string), c: (string, string), key: string)
    ensures ProductsRoute.Get([a, b, c], key)
            == if a.0 == key then Some(a.1) else if b.0 == key then Some(b.1) else if c.0 == key then Some(c.1) else None
  {
    var ps: ProductsRoute.Params := [a, b, c];
    assert ps[1..] == [b, c];
    assert [b, c][1..] == [c];
    assert [c][1..] == [];
    assert ProductsRoute.Get([c], key) == if c.0 == key then Some(c.1) else ProductsRoute.Get([], key);
    assert ProductsRoute.Get([b, c], key) == if b.0 == key then Some(b.1) else ProductsRoute.Get([c], key);
    assert ProductsRoute.Get(ps, key) == if a.0 == key then Some(a.1) else ProductsRoute.Get([b, c], key);
  }

  /** The values the route reads back from the dropdown's request. */
  lemma DropdownParamsRead(query: string)
    ensures var ps: ProductsRoute.Params := [("page", "1"), ("limit", "5"), ("search", query)];
            ProductsRoute.Get(ps, "page") == Some("1") && ProductsRoute.Get(ps, "limit") == Some("5")
            && ProductsRoute.Get(ps, "search") == Some(query) && ProductsRoute.Get(ps, "categories").None?
            && ProductsRoute.Get(ps, "minPrice").None? && ProductsRoute.Get(ps, "maxPrice").None?
            && ProductsRoute.Get(ps, "inStock").None? && ProductsRoute.Get(ps, "onSale").None?
  {
    var a, b, c := ("page", "1"), ("limit", "5"), ("search", query);
    GetOfThree(a, b, c, "page");
    GetOfThree(a, b, c, "limit");
    GetOfThree(a, b, c, "search");
    GetOfThree(a, b, c, "categories");
    GetOfThree(a, b, c, "minPrice");
    GetOfThree(a, b, c, "maxPrice");
    GetOfThree(a, b, c, "inStock");
    GetOfThree(a, b, c, "onSale");
    assert "onSale"[0] != "search"[0];
  }

  /** The search filter is the trimmed query, which is never blank when a request is sent. */
  lemma DropdownSearchRead(query: string, other: string -> Num)
    requires Searchable(query)
    ensures ProductsRoute.BuildQuery([("page", "1"), ("limit", "5"), ("search", query)], other).nameLike == Some(Trim(query))
  {
    DropdownParamsRead(query);
  }

  /** The route reads page 1 and a limit of 5. */
  lemma DropdownPageAndLimitRead(query: string, other: string -> Num)
    ensures var ps: ProductsRoute.Params := [("page", "1"), ("limit", "5"), ("search", query)];
            ProductsRoute.PageParam(ps, other) == Fin(1.0) && ProductsRoute.LimitParam(ps, other) == Fin(5.0)
  {
    DropdownParamsRead(query);
    assert IntToString(5) == "5";
    ToNumberOfIntToString(5, other);
    ToNumberOfOneAndTwelve(other);
  }

  /** Page 1 of 5 is rows 0 to 4. */
  lemma DropdownRowsRead(query: string, other: string -> Num)
    ensures var q := ProductsRoute.BuildQuery([("page", "1"), ("limit", "5"), ("search", query)], other);
            q.from == Fin(0.0) && q.to == Fin(4.0)
  {
    DropdownPageAndLimitRead(query, other);
  }

  /** No category, price or flag filter is asked for. */
  lemma DropdownOtherFiltersRead(query: string, other: string -> Num)
    ensures var q := ProductsRoute.BuildQuery([("page", "1"), ("limit", "5"), ("search", query)], other);
            q.categoryIn.None? && q.priceAtLeast.None? && q.priceAtMost.None? && !q.inStockOnly && !q.onSaleOnly
  {
    DropdownParamsRead(query);
    SplitTrimmedOfPiece("", ',');
  }

  /**
   * The route reads the dropdown's request as a search for the trimmed query, with no
   * other filter, over rows 0 to 4: the first five products by name.
   */
  lemma RouteSeesDropdownSearch(query: string, other: string -> Num)
    requires Searchable(query)
    ensures ProductsRoute.BuildQuery([("page", "1"), ("limit", "5"), ("search", query)], other)
            == ProductsRoute.Query(Some(Trim(query)), None, None, None, false, false, Fin(0.0), Fin(4.0))
  {
    DropdownSearchRead(query, other);
    DropdownRowsRead(query, other);
    DropdownOtherFiltersRead(query, other);
  }
}
