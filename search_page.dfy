/**
 * The search results page (app/buscar/page.tsx): it loads the first hundred products
 * through `listProducts(1, 100)` and, unless the query is blank, keeps those whose name,
 * description, brand or one of whose tags contains the query, ignoring case.
 */
module SearchPage {
  import opened Text
  import opened Catalog
  import opened Lists
  import ProductsApi

  /** Some tag of the product contains the (already lower-cased) needle. */
  predicate SomeTagContains(tags: seq<string>, needle: string) {
    exists i :: 0 <= i < |tags| && Contains(Lower(tags[i]), needle)
  }

  /**
   * The filter predicate as evidently intended: the lower-cased query occurs in the
   * lower-cased name, description or brand, or in some lower-cased tag; a `null`
   * description, brand or tag list never matches. The query is not trimmed here.
   */
  predicate Matches(p: Product, query: string)
    ensures query == [] ==> Matches(p, query)
  {
    var needle := Lower(query);
    Contains(Lower(p.name), needle)
    || (p.description.Some? && Contains(Lower(p.description.value), needle))
    || (p.brand.Some? && Contains(Lower(p.brand.value), needle))
    || (p.tags.Some? && SomeTagContains(p.tags.value, needle))
  }

  /**
   * The test as written throws on a product whose name does not match and whose
   * description is `null`: `product.description.toLowerCase()` is reached and fails.
   */
  predicate Throws(p: Product, query: string) {
    !Contains(Lower(p.name), Lower(query)) && p.description.None?
  }

  /** One product through the test as written: `None` when it throws, else whether it matches. */
  function Test(p: Product, query: string): (r: Option<bool>)
    ensures r.None? <==> Throws(p, query)
    ensures r.Some? ==> r.value == Matches(p, query)
  {
    var needle := Lower(query);
    if Contains(Lower(p.name), needle) then Some(true)
    else if p.description.None? then None
    else Some(Contains(Lower(p.description.value), needle)
              || (p.brand.Some? && Contains(Lower(p.brand.value), needle))
              || (p.tags.Some? && SomeTagContains(p.tags.value, needle)))
  }

  /** `allProducts.filter(product => ...)` with a test that does not throw. */
  function Filter(products: seq<Product>, query: string): (r: seq<Product>)
    ensures forall p :: p in r <==> p in products && Matches(p, query)
    ensures |r| <= |products|
  {
    KeepMembers(products, (p: Product) => Matches(p, query));
    Keep(products, (p: Product) => Matches(p, query))
  }

  /**
   * `allProducts.filter(...)` as written: it throws, `None`, as soon as one product's
   * test throws, and otherwise keeps what the null-safe filter keeps.
   */
  function FilterAsWritten(products: seq<Product>, query: string): (r: Option<seq<Product>>)
    ensures r.None? <==> exists p :: p in products && Throws(p, query)
    ensures r.Some? ==> r.value == Filter(products, query)
  {
    if products == [] then Some([])
    else
      var head := Test(products[0], query);
      var rest := FilterAsWritten(products[1..], query);
      assert forall p :: p in products <==> p == products[0] || p in products[1..];
      if head.None? || rest.None? then None
      else Some((if head.value then [products[0]] else []) + rest.value)
  }

  /**
   * The list shown once `searchProducts()` has run over the fetched products: all of them
   * for a blank query; otherwise the matches, unless the filter throws, in which case the
   * error is caught and the list shown before stays.
   */
  function Results(all: seq<Product>, query: string, previous: seq<Product>): (r: seq<Product>)
    ensures AllSpace(query) ==> r == all
    ensures !AllSpace(query) && (exists p :: p in all && Throws(p, query)) ==> r == previous
    ensures !AllSpace(query) && (forall p :: p in all ==> !Throws(p, query)) ==>
              (forall p :: p in r <==> p in all && Matches(p, query)) && |r| <= |all|
  {
    if Trim(query) == [] then all
    else
      var filtered := FilterAsWritten(all, query);
      if filtered.None? then previous else filtered.value
  }

  /** The shown list as evidently intended: a `null` description counts as not matching. */
  function ResultsNullSafe(all: seq<Product>, query: string): (r: seq<Product>)
    ensures AllSpace(query) ==> r == all
    ensures !AllSpace(query) ==> forall p :: p in r <==> p in all && Matches(p, query)
    ensures |r| <= |all|
  {
    if Trim(query) == [] then all else Filter(all, query)
  }

  /** Where no fetched product throws, the page shows what the null-safe filter would. */
  lemma ResultsWithoutThrow(all: seq<Product>, query: string, previous: seq<Product>)
    requires forall p :: p in all ==> !Throws(p, query)
    ensures Results(all, query, previous) == ResultsNullSafe(all, query)
  {
  }

  /** A product named "Whey" without description, brand or tags. */
  const Whey := Product("1", "whey", "Whey", None, None, 10.0, None, None, None, None, None, None, [], 5, None, None)

  /**
   * One product with a `null` description and another name is enough to freeze the page:
   * a search for "creatina" over that product keeps the previous list, where the
   * null-safe filter shows nothing.
   */
  lemma NullDescriptionKeepsStale(previous: seq<Product>)
    ensures Results([Whey], "creatina", previous) == previous
    ensures ResultsNullSafe([Whey], "creatina") == []
  {
    WheyThrowsOnCreatina();
    assert Whey in [Whey];
    NullSafeFindsNothing();
  }

  lemma NullSafeFindsNothing()
    ensures ResultsNullSafe([Whey], "creatina") == []
  {
    WheyThrowsOnCreatina();
    KeepNone([Whey], (p: Product) => Matches(p, "creatina"));
    assert Filter([Whey], "creatina") == [];
  }

  lemma WheyThrowsOnCreatina()
    ensures Throws(Whey, "creatina") && !Matches(Whey, "creatina") && !AllSpace("creatina")
  {
    assert |Lower("Whey")| < |Lower("creatina")|;
    assert !IsSpace("creatina"[0]);
  }

  /**
   * `searchProducts()`: `listProducts(1, 100)`, then the filter, given the database's
   * replies and the list shown before.
   */
  function Search(query: string, reply: ProductsApi.Reply, count: Option<nat>, previous: seq<Product>): (r: seq<Product>)
    ensures !reply.Rows? ==> r == []
    ensures reply.Rows? && reply.rows.Some? && !AllSpace(query)
            && (forall p :: p in ProductsApi.ListProducts(1, 100, reply, count).products ==> !Throws(p, query)) ==>
              |r| <= |reply.rows.value|
  {
    Results(ProductsApi.ListProducts(1, 100, reply, count).products, query, previous)
  }

  /** Only the first hundred rows are asked for, whatever the query. */
  lemma SearchReadsFirstHundred()
    ensures var q := ProductsApi.BuildQuery(1, 100, ProductsApi.Filters(None, None, None, None, None));
            q.from == 0 && q.to == 99
  {
  }

  /** Filtering respects concatenation, so the kept products stay in their fetched order. */
  lemma FilterAppend(a: seq<Product>, b: seq<Product>, query: string)
    ensures Filter(a + b, query) == Filter(a, query) + Filter(b, query)
  {
    KeepAppend(a, b, (p: Product) => Matches(p, query));
  }

  /** Filtering again with the same query changes nothing. */
  lemma FilterIdempotent(products: seq<Product>, query: string)
    ensures Filter(Filter(products, query), query) == Filter(products, query)
  {
    var r := Filter(products, query);
    assert forall i :: 0 <= i < |r| ==> Matches(r[i], query) by {
      forall i | 0 <= i < |r| ensures Matches(r[i], query) {
        assert r[i] in r;
      }
    }
    KeepAll(r, (p: Product) => Matches(p, query));
  }

  /** Queries that differ only in letter case give the same results, and throw on the same products. */
  lemma SameLowerSameResults(all: seq<Product>, q1: string, q2: string, previous: seq<Product>)
    requires Lower(q1) == Lower(q2)
    ensures Results(all, q1, previous) == Results(all, q2, previous)
  {
    BlankIgnoresCase(q1, q2);
    assert forall p :: Matches(p, q1) == Matches(p, q2);
    assert forall p :: Throws(p, q1) == Throws(p, q2);
    SameFilter(all, q1, q2);
  }

  lemma SameFilter(all: seq<Product>, q1: string, q2: string)
    requires forall p :: Matches(p, q1) == Matches(p, q2)
    ensures Filter(all, q1) == Filter(all, q2)
  {
    KeepSame(all, (p: Product) => Matches(p, q1), (p: Product) => Matches(p, q2));
  }

  /** Upper-casing the query does not change what is found. */
  lemma UpperCaseQuerySameResults(all: seq<Product>, query: string, previous: seq<Product>)
    ensures Results(all, Upper(query), previous) == Results(all, query, previous)
  {
    LowerOfUpper(query);
    SameLowerSameResults(all, Upper(query), query, previous);
  }
}
