# Supplementos-shop storefront: a verified model

This project models the core of a Next.js/Supabase supplement storefront in Dafny and
proves properties of that model. The storefront has a catalogue, a cart, favourites and a
mock account store, a checkout with coupons and a card-payment flow, and a payment
notification webhook. The administrator side has product and coupon dialogs and a
spreadsheet import. One `.dfy` file models one source file, one module each. The shared
pieces are:

- `text.dfy` (module `Text`): `Option`, a `Num` type for JavaScript numbers (NaN or a
  finite real), and the string and array primitives the code relies on. These are
  `trim`, `toLowerCase`/`toUpperCase`, `split`, `join`, `includes`, `parseInt`,
  integer-to-text and de-duplication.
- `lists.dfy` (module `Lists`): `filter` and `find` with an arbitrary test.
- `catalog.dfy`: the product record and the coupon row.

Code that computes a value is modelled as datatypes, functions and lemmas. The React
stores, dialogs and pages that update state step by step are modelled as classes. Their
methods list what they modify and state the new state. The list an event handler
posts, or emits to a callback, is recorded in a `seq` field, so properties about the
sequence of requests can be stated. The database, the payment processor, `fetch`, the
clock, `Number(...)`/`parseFloat` on arbitrary text and UUID generation are parameters:
a function argument, an outcome datatype, or an integer timestamp.

Money is `real`. JavaScript's `Math.ceil`, `Math.round`, `Math.min`/`Math.max` over
lists (±Infinity when empty) and NaN are written out where the code depends on them.

Where parts of the code disagree with each other, each part is modelled as written. For
example:

- The public route filters on a `category` column, while products carry `categories`.
- The catalogue page starts its price filter at [0, 200], while the panel starts at
  [0, 1000].
- The coupon check reads `uses_count`, while checkouts write `times_used` (see Findings).

## Model

| member | source | states |
|---|---|---|
| Currency.CalculateDiscount | src/lib/utils/currency.ts:8-13 | a percentage leaves `price - price * value / 100`; an amount leaves `price - value` when that is not negative and 0 otherwise, so never less than 0 nor, for non-negative inputs, more than the price |
| Currency.PercentEnds | src/lib/utils/currency.ts:9-11 | 0 % keeps the price and 100 % makes it free |
| Currency.PercentMonotone | src/lib/utils/currency.ts:9-11 | on a non-negative price a larger percentage never leaves more to pay |
| Favorites.FavoritesStore.constructor | src/lib/store/favorites.ts:16 | the store starts with no ids, and without duplicates |
| Favorites.FavoritesStore.Toggle | src/lib/store/favorites.ts:18-25 | a present id is removed and an absent one appended; only that id changes membership; no id is ever held twice |
| Favorites.FavoritesStore.Clear | src/lib/store/favorites.ts:31-33 | afterwards no product is a favourite |
| Favorites.ToggleTwiceRestores | src/lib/store/favorites.ts:18-25 | toggling an id that is not a favourite twice gives back the same list, order included |
| Cart.MergeQuantity | src/lib/store/cart.ts:36-40 | same length; exactly the lines with the product id and flavour gain `quantity`, every other line is kept as it was |
| Cart.RemoveProduct | src/lib/store/cart.ts:50-54 | a line survives exactly when it belongs to another product, whatever its flavour; never longer than before |
| Cart.SetQuantity | src/lib/store/cart.ts:62-64 | same length; every line of the product takes the new quantity, the others are kept |
| Cart.TotalNonNegative | src/lib/store/cart.ts:71-73 | `getTotal` of lines with non-negative prices and quantities is never negative |
| Cart.ItemCountAtLeastLines | src/lib/store/cart.ts:75-77 | `getItemCount` is at least the number of lines when every line holds one item or more |
| Cart.TotalsAppend | src/lib/store/cart.ts:71-77 | the total and the item count of two lists joined are the sums of theirs |
| Cart.MergeTotals | src/lib/store/cart.ts:34-42 | merging into a cart with distinct lines adds `quantity` to the item count and the stored line's price times `quantity` to the total |
| Cart.AddLineTotals | src/lib/store/cart.ts:28-48 | adding adds `quantity` to the item count and `quantity` times the stored price (or the given product's for a new line) to the total |
| Cart.AddLineKeepsDistinct | src/lib/store/cart.ts:28-48 | adding never creates a second line with the same product id and flavour |
| Cart.RemoveProductAppend | src/lib/store/cart.ts:52 | removing keeps the relative order: it distributes over concatenation |
| Cart.RemoveAbsentProduct | src/lib/store/cart.ts:52 | removing a product the cart does not hold changes nothing |
| Cart.ClearedTotals | src/lib/store/cart.ts:67-77 | the emptied cart totals 0 and counts 0 items |
| Cart.CartStore.constructor | src/lib/store/cart.ts:26 | the cart starts empty |
| Cart.CartStore.AddItem | src/lib/store/cart.ts:28-48 | the quantity defaults to 1; the lines become the merge into an existing (id, flavour) line or the old lines plus a new one; distinct lines stay distinct |
| Cart.CartStore.RemoveItem | src/lib/store/cart.ts:50-54 | the lines become the old ones without the product; no line of it is left; uniquely keyed lines stay uniquely keyed |
| Cart.RemoveProductKeepsDistinct | src/lib/store/cart.ts:50-54 | dropping a product's lines never makes two lines share a product id and flavour |
| Cart.CartStore.UpdateQuantity | src/lib/store/cart.ts:56-65 | a quantity of 0 or less removes the product, a positive one is set on each of its lines; uniquely keyed lines stay uniquely keyed |
| Cart.SetQuantityKeepsDistinct | src/lib/store/cart.ts:60-64 | setting a quantity leaves every line's product id and flavour, so uniquely keyed lines stay so |
| Cart.CartStore.ClearCart | src/lib/store/cart.ts:67-69 | no lines, total 0, item count 0 |
| UserStore.Merge | src/lib/store/user.ts:86-90 | each field of the merged profile is the update's value where the update has one, and the profile's own otherwise |
| UserStore.MergeLaws | src/lib/store/user.ts:86-90 | the spread `{ ...profile, ...updates }` with no keys changes nothing, and spreading the same update twice is spreading it once |
| UserStore.LaterUpdateWins | src/lib/store/user.ts:86-90 | of two successive updates the later one's keys win; keys neither gives keep the profile's value |
| UserStore.FindDiscount | src/lib/store/user.ts:82 | the result is the first discount whose code upper-cased equals the typed code upper-cased, and none exactly when no code matches |
| UserStore.ApplyDiscount | src/lib/store/user.ts:78-84 | no profile or no discount list gives null; a result is a discount of the profile whose code matches ignoring case |
| UserStore.ApplyDiscountIgnoresCase | src/lib/store/user.ts:82 | typing the code in lower or upper case finds the same discount |
| UserStore.UserStoreState.constructor | src/lib/store/user.ts:42-43 | nobody is signed in at first |
| UserStore.UserStoreState.Login | src/lib/store/user.ts:45-54 | succeeds exactly when e-mail and password are non-empty, and then signs in as the mock user; on failure nothing changes |
| UserStore.UserStoreState.Register | src/lib/store/user.ts:56-72 | succeeds exactly when name, e-mail and password are non-empty, and then signs in a new profile with the clock's digits as id, no favourites and only the welcome discount; on failure nothing changes |
| UserStore.UserStoreState.Logout | src/lib/store/user.ts:74-76 | no profile and not logged in |
| UserStore.UserStoreState.UpdateProfile | src/lib/store/user.ts:86-90 | a signed-in profile gets the update merged in; with nobody signed in the profile stays null; the logged-in flag is untouched |
| Pagination.PageStartIsProduct | lib/utils/pagination.ts:16 | the start offset of page p is `(p - 1) * pageSize` |
| Pagination.PageStartGap | lib/utils/pagination.ts:16-17 | a later page starts at least one page size further on |
| Pagination.CeilDivBounds | lib/utils/pagination.ts:13 | `ceil(n / d)` is 0 only for no items; the last page starts inside the list and the page after it at or past its end |
| Pagination.CeilDivIsCeiling | lib/utils/pagination.ts:13 | `q = ceil(n / d)` is the least q with `q * d >= n` |
| Pagination.Slice | lib/utils/pagination.ts:18 | `slice` clamps both bounds to the length and gives nothing when start passes end |
| Pagination.GetPaginationData | lib/utils/pagination.ts:11-29 | total and page count are right; the page is clamped into `1..totalPages` (1 when there are no items, the asked page when in range); at most `pageSize` items, the slice starting at `(page - 1) * pageSize`; next/previous flags say whether the page is before the last / after the first |
| Pagination.PageStartsInside | lib/utils/pagination.ts:13-18 | every page up to the last starts inside the list |
| Pagination.PageSizes | lib/utils/pagination.ts:16-18 | pages before the last are full and the last is not empty |
| Pagination.PagesFromSuffix | lib/utils/pagination.ts:16-18 | the pages from p on, glued together, are the items from p's start offset on |
| Pagination.PagesPartitionItems | lib/utils/pagination.ts:11-29 | pages 1 to totalPages glued together are exactly the input, in order |
| Pagination.PageItemAt | lib/utils/pagination.ts:16-18 | position j of page q holds item `(q - 1) * pageSize + j`, and exists exactly when that item does |
| Pagination.ItemOnPage | lib/utils/pagination.ts:11-29 | item i is shown on page `i / pageSize + 1` at position `i % pageSize` |
| Pagination.PositionsDistinct | lib/utils/pagination.ts:16-18 | two positions on pages name the same item only if they are the same position |
| Pagination.Range | lib/utils/pagination.ts:33 | `Array.from({ length }, (_, i) => start + i)`: length `len`, entry i is `start + i` |
| Pagination.GetPageNumbers | lib/utils/pagination.ts:31-45 | every page when they fit in `maxVisible`; otherwise exactly `maxVisible` consecutive pages inside `1..totalPages` that include the current page |
| Pagination.PageNumbersExamples | lib/utils/pagination.ts:31-45 | with ten pages and five links: page 1 shows 1-5, page 10 shows 6-10, page 5 shows 3-7 |
| ProductsApi.OrderFor | src/lib/api/products.ts:35-55 | "price-asc" and "price-desc" order by price, "rating" by rating descending with nulls last, "popularity" by review count descending; an absent, empty or unknown key orders by newest first |
| ProductsApi.BuildQuery | src/lib/api/products.ts:8-63 | the search filter is added exactly when the text is non-empty, and lower-cased; categories and brands only when the list is non-empty; both price bounds only with a range; the rows asked for are `(page - 1) * pageSize` through `page * pageSize - 1`, exactly `pageSize` of them |
| ProductsApi.NonZero | src/lib/api/products.ts:86-90 | a column read with `x ? Number(x) : undefined` is kept exactly when present and not 0 |
| ProductsApi.Default | src/lib/api/products.ts:87-93 | a present value is kept, a missing one takes the default |
| ProductsApi.ToProduct | src/lib/api/products.ts:79-96 | the copied columns are kept, a `null` description included; a compare price or rating of `null` or 0 becomes absent; missing tags, categories, images, review count and stock become `[]` / 0; `inStock` is true only for a stored true; the listing adds no `discount` |
| ProductsApi.ToProducts | src/lib/api/products.ts:79 | one product per row, in order |
| ProductsApi.ListProducts | src/lib/api/products.ts:57-116 | the page and size asked for are always echoed; an error or a throw gives the empty page with total 0; otherwise the rows are transformed in order and the total and page count come from the count query, a missing count reading as 0 |
| ProductsApi.Matching | src/lib/api/products.ts:10-33 | the rows a filtered query selects are exactly the rows of the table that pass every filter it carries |
| ProductsApi.Answer | src/lib/api/products.ts:61-63 | the database's answer to a query: an error exactly when the range starts before row 0; otherwise matching rows of the table, no more than the range spans |
| ProductsApi.ListProductsIn | src/lib/api/products.ts:57-116 | listing against a table: from page 1 on, the total is the number of rows in the whole table and the page count its ceiling over the page size, and the page holds at most a page of products; before page 1 the empty page |
| ProductsApi.ListedProductsMatch | src/lib/api/products.ts:10-96 | every listed product is the transform of a table row that passes the query's filters |
| ProductsApi.TotalIgnoresFilters | src/lib/api/products.ts:58-105 | whatever the filters, the total is the number of rows in the whole table and the page count is the same: the count query carries no filters |
| ProductsApi.TotalCountsFilteredOutRows | src/lib/api/products.ts:58-105 | when no row passes the filters the page is empty, yet the total counts every row and a non-empty table reports at least one page |
| ProductsApi.SearchMissesOtherNames | src/lib/api/products.ts:12-16 | a search for "creatina" does not select a product named "Whey" with no description |
| ProductsApi.PagesAdjacent | src/lib/api/products.ts:61-63 | consecutive pages ask for adjacent row ranges, without gap or overlap |
| ProductsApi.MinPrice | src/lib/api/products.ts:212 | `Math.min` of no prices is +Infinity; otherwise one of the prices, and no price is lower |
| ProductsApi.MaxPrice | src/lib/api/products.ts:213 | `Math.max` of no prices is -Infinity; otherwise one of the prices, and no price is higher |
| ProductsApi.AllCategories | src/lib/api/products.ts:204 | a category is listed exactly when some product has it |
| ProductsApi.AllBrands | src/lib/api/products.ts:205 | a brand is listed exactly when it is non-empty and some product has it |
| ProductsApi.Prices | src/lib/api/products.ts:206 | one price per product, in order |
| ProductsApi.GetAvailableFilters | src/lib/api/products.ts:189-224 | a failed read gives the fallback `{[], [], 0, 100}`; otherwise the categories and brands hold no duplicates, exactly the categories of some product and the non-empty brands of some product, and the bounds are the minimum and maximum price |
| ProductsApi.PriceRangeCoversEveryPrice | src/lib/api/products.ts:206-214 | with at least one product both bounds are finite prices of some product and every price lies between them |
| ProductsApi.NoProductsGiveInfiniteRange | src/lib/api/products.ts:204-214 | with no products the range is +Infinity to -Infinity, not the fallback |
| ProductsRoute.Get | app/api/products/route.ts:11-21 | a value found is paired with the key in the query string, and nothing is found only when no pair has the key |
| ProductsRoute.GetIsFirstMatch | app/api/products/route.ts:11-21 | `searchParams.get` finds nothing exactly when no pair has the key, and otherwise the value of the first pair with it |
| ProductsRoute.GetAppend | app/api/products/route.ts:11-21 | a key in the earlier part of the query string hides later values under it |
| ProductsRoute.PageParam | app/api/products/route.ts:11 | a missing `page` reads as the number 1 |
| ProductsRoute.LimitParam | app/api/products/route.ts:12 | a missing `limit` reads as the number 12 |
| ProductsRoute.From | app/api/products/route.ts:23 | `(page - 1) * limit`, NaN exactly when the page or the limit is NaN |
| ProductsRoute.To | app/api/products/route.ts:24 | `from + limit - 1`, NaN exactly when either side is |
| ProductsRoute.CategoriesParam | app/api/products/route.ts:14-17 | every category read is non-empty, trimmed and free of commas |
| ProductsRoute.BuildQuery | app/api/products/route.ts:11-37 | the name filter is the trimmed search text when not blank; the category filter is the split list when not empty; a price bound exactly when its parameter is non-empty, as `Number` of it; the stock and sale flags only for the exact text "true"; the range is `(page - 1) * limit` to `from + limit - 1` |
| ProductsRoute.DefaultPageAndLimit | app/api/products/route.ts:11-12 | without `page` and `limit` the handler reads page 1 and limit 12 |
| ProductsRoute.RangeIsThePage | app/api/products/route.ts:23-24 | with numeric page and limit the range spans exactly `limit` rows and ends at `page * limit - 1` |
| ProductsRoute.DefaultsAreFirstTwelve | app/api/products/route.ts:11-24 | without `page` and `limit` rows 0 to 11 are asked for |
| ProductsRoute.Ceil | app/api/products/route.ts:54 | `Math.ceil(x)` is the whole number c with `c - 1 < x <= c` |
| ProductsRoute.CeilIsCeilDiv | app/api/products/route.ts:54 | for a positive whole limit, `Math.ceil(total / limit)` is the number of limit-sized pages that hold the total |
| ProductsRoute.TotalPages | app/api/products/route.ts:54 | the page count is a number exactly when the limit is a non-zero number (JSON writes NaN and Infinity as null) |
| ProductsRoute.Handle | app/api/products/route.ts:7-62 | a query error answers 500 with its message and a throw 500 "Internal error"; otherwise 200 with the rows (`[]` for null), the count (0 for null), the page and limit read and the page count |
| ProductsRoute.DefaultLimitPageCount | app/api/products/route.ts:12-54 | with the default limit the page count is `ceil(total / 12)`, and a missing count gives total 0 and 0 pages |
| ProductsRoute.ZeroLimitHasNoPageCount | app/api/products/route.ts:12-54 | a limit of "0" gives a null page count, whatever the total |
| ProductsRoute.FlagsNeedExactTrue | app/api/products/route.ts:20 | "TRUE", "1" or " true" leave the stock flag off |
| ProductsPage.BuildParams | app/productos/page.tsx:31-47 | the parameters always start with the page number and a limit of "12" |
| ProductsPage.ReadKey | app/productos/page.tsx:31-47 | reading one key from the assembled parameters takes it from the first appended part that holds it |
| ProductsPage.ParamsRead | app/productos/page.tsx:31-47 | page and limit are always sent; search and comma-joined categories only when non-empty; both price bounds only once the price was committed; each flag only when set, as "true" |
| ProductsPage.PageAndLimitRead | app/productos/page.tsx:32-33 | the route reads back the page number sent and a limit of 12 |
| ProductsPage.CategoriesRead | app/productos/page.tsx:37 | categories ticked in the panel reach the route unchanged, in order |
| ProductsPage.PricesRead | app/productos/page.tsx:40-44 | the price bounds are filters at the route exactly when the price was committed |
| ProductsPage.SearchRead | app/productos/page.tsx:36 | the search text reaches the route trimmed, and a blank one is no filter |
| ProductsPage.FlagsRead | app/productos/page.tsx:46-47 | the two check boxes reach the route as they are |
| ProductsPage.RowsRead | app/productos/page.tsx:31-34 | page p asks for rows `(p - 1) * 12` to `p * 12 - 1` |
| ProductsPage.RouteSeesPageFilters | app/productos/page.tsx:31-49 | the route's query for the page's request is exactly the trimmed search, the ticked categories, the committed price bounds, the two flags and the rows of the page |
| ProductsPage.Round | app/productos/page.tsx:71 | `Math.round` gives the whole number within half of x, halves rounded up |
| ProductsPage.DiscountWithinPercent | app/productos/page.tsx:70-72 | a price between 0 and a positive compare-at price shows a discount between 0 and 100 |
| ProductsPage.NoDiscountAbovePrice | app/productos/page.tsx:70-72 | a price above the compare-at price shows a discount of 0 or less |
| ProductsPage.DiscountExample | app/productos/page.tsx:70-72 | 30 against 40 shows 25 |
| ProductsPage.Discount | app/productos/page.tsx:70-72 | a non-zero discount needs a present, non-zero compare-at price different from the price |
| ProductsPage.ShowProduct | app/productos/page.tsx:55-74 | `inStock` exactly when the stock is positive; the compare price kept only when present and non-zero; no discount without it; at most the one image |
| ProductsPage.AsCartProduct | components/product-grid.tsx:76 | the grid hands the shown object to the cart button as it is: id, name, price and stock carried over, and the computed discount and stock flag present |
| ProductsPage.CatalogueDiscountReachesOrder | components/add-to-cart-button.tsx:33 | a product added from the catalogue grid to a cart without its line becomes the order's last line, with its id, the quantity and the discount the grid computed |
| ProductsPage.ViewOf | app/productos/page.tsx:50-84 | a failed request or a non-2xx answer shows the empty fallback page; a listing shows one transformed product per row, in order |
| ProductsPage.ListingResponse | app/productos/page.tsx:31-34 | the route answers the page's own request by echoing its page and the limit 12, with `ceil(total / 12)` pages |
| ProductsPage.ListingView | app/productos/page.tsx:75-78 | a listing for the page's request shows that page, 12 per page, the total and `ceil(total / 12)` pages |
| ProductsPage.FailureView | app/productos/page.tsx:82-84 | a failure shows no products, page 1, page size 12 and 0 pages |
| ProductsPage.Catalogue.constructor | app/productos/page.tsx:12-25 | the search starts from the address's `search` parameter or empty, the filters at `[0, 200]` untouched, page 1, loading, nothing shown |
| ProductsPage.Catalogue.HandleFilterChange | app/productos/page.tsx:93-96 | takes the panel's filters and resets the page to 1; nothing else changes |
| ProductsPage.Catalogue.HandleSearch | app/productos/page.tsx:98-101 | takes the typed text and resets the page to 1; nothing else changes |
| ProductsPage.Catalogue.Load | app/productos/page.tsx:27-91 | sends the parameters for page 1 with the current search and filters, shows the view of the answer and stops loading; every request ever sent asks for page 1 and 12 items |
| ProductFilters.SliderPair | components/product-filters.tsx:46-51 | `[val[0] ?? 0, val[1] ?? 0]`: a missing slider value reads as 0 |
| ProductFilters.CategoriesAreClean | components/product-filters.tsx:22 | the offered categories are non-empty, trimmed, comma-free and distinct |
| ProductFilters.FilterPanel.constructor | components/product-filters.tsx:25-35 | each missing initial key takes its default (`[]`, `[0, 1000]`, false), and mounting emits the state once |
| ProductFilters.FilterPanel.ToggleCategory | components/product-filters.tsx:32-42 | the category's membership flips and no other category's does; distinct categories stay distinct; the effect emits the new state once |
| ProductFilters.FilterPanel.SetInStock | components/product-filters.tsx:27-35 | the flag takes the value; the effect emits once only if it changed |
| ProductFilters.FilterPanel.SetOnSale | components/product-filters.tsx:28-35 | the flag takes the value; the effect emits once only if it changed |
| ProductFilters.FilterPanel.HandlePriceChange | components/product-filters.tsx:44-47 | only the slider moves: nothing is emitted and the touched flag is left alone |
| ProductFilters.FilterPanel.HandlePriceCommit | components/product-filters.tsx:49-55 | sets the slider and the touched flag and emits the committed range with the current categories and flags |
| ProductFilters.FilterPanel.ClearAll | components/product-filters.tsx:32-70 | resets to no categories, `[0, 1000]` and all flags false, and that cleared state is emitted twice: by the handler and by the effect |
| ProductFilters.ToggleTwiceRestores | components/product-filters.tsx:38-42 | ticking an unticked category and unticking it restores the list, order included, after two emissions |
| ProductFilters.DragThenCommit | components/product-filters.tsx:44-55 | dragging then releasing emits the released values with the touched flag, whatever was dragged through |
| Checkout.Shipping | app/checkout/page.tsx:81 | shipping is free exactly when the subtotal is above 50, and 5 otherwise |
| Checkout.CouponDiscount | app/checkout/page.tsx:83-90 | no coupon gives no discount; a percentage coupon takes that share of the subtotal; any other type takes its value as it stands |
| Checkout.ComputeTotals | app/checkout/page.tsx:80-94 | tax is 16 % of the discounted subtotal, and the total is 1.16 times the discounted subtotal plus shipping |
| Checkout.FixedDiscountOverrunsTotal | app/checkout/page.tsx:83-94 | a fixed coupon of 20 on a cart of 10 gives a total below zero |
| Checkout.CappedCouponDiscount | app/checkout/page.tsx:83-90 | the intended discount lies between 0 and the subtotal, and equals the computed one whenever that already does |
| Checkout.CappedTotals | app/checkout/page.tsx:80-94 | with the capped discount a non-negative subtotal never gives a total below the shipping cost |
| Checkout.SelectActiveByCode | app/checkout/page.tsx:111-116 | a row is selected exactly when it is in the table, its code is the given one and it is active |
| Checkout.Single | app/checkout/page.tsx:116-126 | `.single()` yields a row exactly when one row matched, and then that row |
| Checkout.CheckCoupon | app/checkout/page.tsx:96-175 | the empty-code verdict is given exactly for a code that trims to nothing; a failed lookup is "not found" |
| Checkout.ExpiredAt | app/checkout/page.tsx:129 | a coupon without an expiry date is never expired |
| Checkout.ExhaustedAsWritten | app/checkout/page.tsx:140 | the test as written: a coupon without a use limit, or whose row has no `uses_count`, is never exhausted |
| Checkout.BelowMinimumFor | app/checkout/page.tsx:151 | a coupon without a minimum never refuses, and neither does a negative minimum for a non-negative subtotal |
| Checkout.Found | app/checkout/page.tsx:111-126 | a row is found exactly when the table was read and exactly one active row carries the upper-cased code; the row found is that row of the table |
| Checkout.CheckCouponVerdicts | app/checkout/page.tsx:111-161 | with f the row found: "not found" exactly when the code is non-blank and there is no f; "expired" exactly when f is expired; "exhausted" exactly when f is not expired and exhausted; "below minimum" exactly when f passes both and is below its minimum; accepted exactly when f passes all three, and then the coupon is f |
| Checkout.ZeroOrNullLimitsImposeNothing | app/checkout/page.tsx:140-158 | a use limit or minimum purchase of null or 0 never refuses a coupon |
| Checkout.RecordUse | app/checkout/page.tsx:261-265 | the write sets `times_used` to one more than before (null counting as 0) and leaves `uses_count` and `max_uses` alone |
| Checkout.UsedTimes | app/checkout/page.tsx:261-265 | repeated checkouts change neither the code, the activity, the expiry, the minimum, `uses_count` nor `max_uses` |
| Checkout.UsedTimesCount | app/checkout/page.tsx:261-265 | after k recorded checkouts `times_used` has grown by exactly k |
| Checkout.NeverExhaustedAsWritten | app/checkout/page.tsx:140 | when no row carries `uses_count`, the chain never answers "exhausted" |
| Checkout.AcceptedPastLimit | app/checkout/page.tsx:140 | a coupon limited to one use is still accepted after any number of recorded checkouts |
| Checkout.ExhaustedIntended | app/checkout/page.tsx:140 | the test read against `times_used`: no use limit is never exhausted, and an unused coupon is exhausted only when its limit is 0 or less |
| Checkout.ExhaustedAfterLimit | app/checkout/page.tsx:140 | with the test read against `times_used`, a coupon limited to m uses is refused exactly once it has been used m times |
| Checkout.LineDiscount | app/checkout/page.tsx:235 | the discount-or-zero read of an order line: a present, non-zero discount is sent as it is; an absent or zero one as 0 |
| Checkout.OrderLines | app/checkout/page.tsx:230-236 | one order line per cart line, in order, carrying its product's id, name and price, its quantity and the product's discount or 0 |
| Checkout.BuildOrder | app/checkout/page.tsx:221-245 | the order carries the session's user id, the joined name, the form's e-mail, phone, shipping address, city, state, zip code and payment method each in its own column, the cart's lines and totals, the coupon's discount twice, status "pending", the coupon code only when non-empty and the notes, as typed, only when non-empty |
| Checkout.UsageWrites | app/checkout/page.tsx:260-272 | usage is recorded exactly for an applied coupon with a signed-in user, as the coupon's new `times_used` and the user's coupon marked used |
| Checkout.CheckoutPage.constructor | app/checkout/page.tsx:27-45 | no coupon code, no applied coupon, nothing in progress |
| Checkout.CheckoutPage.ApplyCoupon | app/checkout/page.tsx:96-175 | the verdict is that of the check chain; only an accepted coupon replaces the applied one; the busy flag is cleared after any lookup |
| Checkout.CheckoutPage.RemoveCoupon | app/checkout/page.tsx:177-184 | the applied coupon and the typed code are cleared |
| Checkout.CheckoutPage.Submit | app/checkout/page.tsx:193-290 | missing contact fields, then missing address fields, stop before sending; a failed insert keeps the cart; a placed order records the usage writes, empties the cart and redirects to the confirmation with the order number |
| Checkout.ShowsEmptyCart | app/checkout/page.tsx:294 | the empty-cart card is shown exactly when the cart has no lines, whose total and count are then 0 |
| CartPage.CartView | app/carrito/page.tsx:16-20 | an empty cart shows the empty card; otherwise the summary shows the cart total, shipping free exactly above 50 and 5 otherwise, a total without tax, and a hint with the positive amount missing exactly when the subtotal is under 50 |
| CartPage.FiftyChargedWithoutHint | app/carrito/page.tsx:164-166 | at a subtotal of exactly 50 shipping is charged and no hint is shown |
| CartPage.TypedQuantity | app/carrito/page.tsx:78 | the typed quantity is never 0: unparseable text and 0 become 1, any other number is kept |
| CartPage.TypedNumberKept | app/carrito/page.tsx:78 | a typed non-zero number is taken as it is |
| CartPage.TypedQuantityEffect | app/carrito/page.tsx:78 | a typed negative number removes the product, a positive one sets its quantity |
| CartPage.MinusOnLastUnitRemoves | app/carrito/page.tsx:71 | the minus button on a line of one removes that line |
| CouponsTab.IsExpired | components/admin/coupons-tab.tsx:47 | a coupon without `valid_until` is never expired |
| CouponsTab.IsMaxedOut | components/admin/coupons-tab.tsx:48 | no use limit (null or 0) is never used up; with a limit, used up exactly when `times_used` has reached it, a null `times_used` counting as 0 |
| CouponsTab.IsActive | components/admin/coupons-tab.tsx:49 | an active coupon is switched on and not past `valid_until`; a switched-on coupon without date or use limit is active |
| CouponsTab.StatusBadge | components/admin/coupons-tab.tsx:47-75 | exactly one badge: Activo for an active row neither expired by `valid_until` nor out of uses; Expirado for any expired row; Agotado for an unexpired row out of uses; Inactivo for the rest |
| CouponsTab.DiscountLabel | components/admin/coupons-tab.tsx:56-58 | a percentage is shown with a trailing "%", any other type with a leading "$" |
| CouponsTab.DiscountLabelShowsType | components/admin/coupons-tab.tsx:56-58 | the cell's last character is "%" exactly for a percentage and its first is "$" exactly otherwise |
| CouponsTab.MaxUsesLabel | components/admin/coupons-tab.tsx:62 | a null or 0 limit reads "Ilimitado"; any other limit is written as a number that parses back to it |
| CreateCoupon.BuildCouponData | components/admin/create-coupon-button.tsx:37-45 | an invalid expiry date aborts; otherwise the record keeps the code and type as typed, converts the value, sends blank optional fields as null and the others converted, stores the date under `expires_at`, and is always active |
| CreateCoupon.CreateCouponDialog.constructor | components/admin/create-coupon-button.tsx:25-26 | the dialog starts closed and idle |
| CreateCoupon.CreateCouponDialog.Submit | components/admin/create-coupon-button.tsx:29-60 | a coupon is created exactly when the record builds and the insert succeeds, and only then is the dialog closed and the page refreshed; the busy flag is always cleared |
| CreateCoupon.CreatedCouponExpiryReaders | components/admin/create-coupon-button.tsx:43 | a created coupon is never badged expired in the admin table, while checkout refuses it after its `expires_at` |
| CreateCoupon.LowerCaseCodeNeverFound | components/admin/create-coupon-button.tsx:38 | a coupon stored with a code that is not upper-case is never accepted at checkout, whatever is typed |
| CreatePayment.IdempotencyKey | app/api/mp/create-payment/route.ts:24 | a non-empty `x-idempotency-key` header is the key; otherwise a fresh UUID is |
| CreatePayment.PaymentStatusFor | app/api/mp/create-payment/route.ts:96-98 | the order becomes "paid" exactly for an approved payment, "rejected" exactly for a rejected one, and "pending" for every other status |
| CreatePayment.Installments | app/api/mp/create-payment/route.ts:78 | the instalment count is never zero or NaN: a truthy count is kept and anything else becomes 1 |
| CreatePayment.BuildRequest | app/api/mp/create-payment/route.ts:74-89 | the processor is asked for the order's stored total with the card token and the idempotency key; the order's e-mail wins over the payer's; the description names the order; no order reference goes into the metadata |
| CreatePayment.Post | app/api/mp/create-payment/route.ts:23-131 | missing env answers 500, an invalid body 400, a missing order 404, a falsy total or a missing token 400, all without charging; otherwise exactly one charge is sent for the stored total; a processor exception answers 500 with no order write; success answers 200 with the processor's id, status and detail and writes them with the mapped payment status |
| CreatePayment.NegativeTotalIsCharged | app/api/mp/create-payment/route.ts:63-66 | a negative order total passes the amount check and is charged as it stands |
| CreatePayment.UpdateErrorNotReported | app/api/mp/create-payment/route.ts:110-119 | a failed order write changes neither the status nor the body of the answer |
| CreatePayment.Recorded | app/api/mp/create-payment/route.ts:74-89 | the processor keeps the payment's id and status with the metadata of the request that created it |
| CreatePayment.CreatedPaymentsCarryNoOrder | app/api/mp/create-payment/route.ts:85-86 | every payment this handler creates is recorded without an order reference |
| CreatePayment.RequestWithOrder | app/api/mp/create-payment/route.ts:74-89 | the intended request carries the order id as metadata, with the same amount and key |
| Webhook.Action | app/api/mp/webhook/route.ts:29 | `body?.action`: nothing without a body, and otherwise the body's own `action` |
| Webhook.PaymentId | app/api/mp/webhook/route.ts:30 | `body?.data?.id`: nothing without a body, and otherwise the body's own `data.id` |
| Webhook.EventType | app/api/mp/webhook/route.ts:28 | the body's non-empty `type` wins; otherwise the query's `type` is used |
| Webhook.IsPaymentEvent | app/api/mp/webhook/route.ts:33-37 | a notification counts as a payment event when its type is "payment" or it carries a payment id; one with another type, no action and no payment id does not, nor does a body-less one whose query type is not "payment" |
| Webhook.Prefix | app/api/mp/webhook/route.ts:73 | the note prefix always begins with "[MP webhook payment_id=" |
| Webhook.BuildUpdates | app/api/mp/webhook/route.ts:64-75 | `payment_status` is the raw processor status; `status` is "paid" exactly for an approved payment and "pending" otherwise; the payment id is written exactly when the order has that column, otherwise the notes start with the prefix and are longer than it exactly when the order had notes |
| Webhook.Handle | app/api/mp/webhook/route.ts:16-85 | every path answers 200; an unsigned call, a non-payment event and a missing payment id end before any lookup; the processor is asked exactly for a signed call with a payment id; a failed lookup or a payment without an order id writes nothing; otherwise exactly that order is updated with the built record |
| Webhook.RejectedStaysPending | app/api/mp/webhook/route.ts:65-66 | a rejected payment is written with `status` "pending" and `payment_status` "rejected" |
| Webhook.NotesRedeliveryGrows | app/api/mp/webhook/route.ts:73-74 | on the notes path a redelivered notification prefixes the notes again, making them longer |
| Webhook.PaymentIdRedeliveryRepeats | app/api/mp/webhook/route.ts:70-71 | on the payment-id path a redelivery writes the same record apart from the time stamp |
| Webhook.ApplyCreate | app/api/mp/create-payment/route.ts:100-108 | the payment endpoint's write sets `payment_status` and the payment id and leaves `status` and the notes alone |
| Webhook.ApplyWebhook | app/api/mp/webhook/route.ts:77 | the notification's write sets `payment_status` and `status` and leaves the processor status column alone |
| Webhook.WriteOrderDecidesPaymentStatus | app/api/mp/webhook/route.ts:65 | for one approved payment the order ends "approved" when the notification lands last and "paid" when the payment endpoint writes last |
| Webhook.BuildUpdatesMapped | app/api/mp/webhook/route.ts:64-75 | the intended record maps `payment_status` as the payment endpoint does and keeps the rest |
| Webhook.MappedWritesCommute | app/api/mp/webhook/route.ts:65 | with the mapped record both write orders leave the same `payment_status` |
| Webhook.CreatedPaymentNeverMatched | app/api/mp/webhook/route.ts:49-54 | a notification about a payment the payment endpoint created never updates any order |
| Webhook.PaymentWithOrderIsMatched | app/api/mp/webhook/route.ts:49-77 | with the order id attached, a signed notification updates exactly that order |
| PaymentBrick.KeyName | components/payments/MPPaymentBrick.tsx:26 | the key's storage entry is named "pay_attempt_" followed by the order id, never "order_id" |
| PaymentBrick.KeyNamesDistinct | components/payments/MPPaymentBrick.tsx:26 | different orders use different storage entries |
| PaymentBrick.StoredKey | components/payments/MPPaymentBrick.tsx:27-28 | a key is found exactly when the order's entry holds a non-empty value, and it is that value |
| PaymentBrick.KeyFor | components/payments/MPPaymentBrick.tsx:24-32 | on the server the key is a fresh UUID; in the browser it is the stored key when there is one, and a fresh UUID otherwise |
| PaymentBrick.SessionWithKey | components/payments/MPPaymentBrick.tsx:29-30 | a fresh key is stored under the order's entry; otherwise the session is left unchanged |
| PaymentBrick.Cleanup | components/payments/MPPaymentBrick.tsx:58-64 | in the browser exactly `order_id` and the order's key are removed and every other entry keeps its value; on the server nothing changes |
| PaymentBrick.KeyStableAcrossRemounts | components/payments/MPPaymentBrick.tsx:24-32 | a remount for the same order reuses the first mount's key and stores nothing new |
| PaymentBrick.CleanupForgetsKey | components/payments/MPPaymentBrick.tsx:58-64 | after the cleanup the order's next mount gets a fresh key and `order_id` is gone |
| PaymentBrick.KeysOfOtherOrdersKept | components/payments/MPPaymentBrick.tsx:24-32 | storing one order's key leaves every other order's key as it was |
| PaymentBrick.Brick.constructor | components/payments/MPPaymentBrick.tsx:21-32 | mounting memoises the order's key, records it in the session as needed, and starts with no submit in flight |
| PaymentBrick.Brick.BeginSubmit | components/payments/MPPaymentBrick.tsx:66-110 | a submit while one is in flight is dropped; a form without a token clears the flag and sends nothing; otherwise the post carries the memoised key, the order id, the token, the buyer's e-mail and instalments defaulting to 1, and the flag stays set |
| PaymentBrick.Brick.FinishSubmit | components/payments/MPPaymentBrick.tsx:112-131 | the browser is sent to the confirmation page exactly for an ok answer whose status or payment status is approved, and only then is the session cleaned; the flag is cleared either way |
| PaymentBrick.Brick.OnError | components/payments/MPPaymentBrick.tsx:138-142 | the widget's error clears the flag and leaves the key and the session |
| PaymentBrick.SecondSubmitDropped | components/payments/MPPaymentBrick.tsx:67-68 | two submits in a row before any answer send one request; the second is dropped |
| ProductImport.ToBool | app/api/admin/products/import/route.ts:33-41 | null for a missing cell, a boolean as it is, a number by being non-zero, and a text true or false exactly when its trimmed lower-cased spelling is one of the true or false words |
| ProductImport.ToBoolPaddedAccent | app/api/admin/products/import/route.ts:37-38 | " Sí " reads as true |
| ProductImport.ToBoolUpperCase | app/api/admin/products/import/route.ts:37-39 | "SÍ" reads as true and "No" as false |
| ProductImport.ToBoolOthers | app/api/admin/products/import/route.ts:36-40 | "2" reads as null and a NaN number as true |
| ProductImport.CommaList | app/api/admin/products/import/route.ts:62-66 | every piece of the comma path is non-empty, trimmed and free of commas |
| ProductImport.ToTextArray | app/api/admin/products/import/route.ts:47-67 | null for a missing cell and exactly for blank text; an array element-wise; a bracketed text that parses as an array gives its elements; any other text is split at commas |
| ProductImport.LoneCommaIsEmptyList | app/api/admin/products/import/route.ts:62-66 | a lone comma gives the empty list, not null |
| ProductImport.CommaListInOrder | app/api/admin/products/import/route.ts:62-66 | the pieces keep their input order, and a text without commas gives its trimmed self |
| ProductImport.BuildPayload | app/api/admin/products/import/route.ts:132-159 | the id and slug are kept exactly when their cells are filled; missing price, stock and reviews count become 0; a flag is set exactly when its cell reads as true; list cells go through the list conversion |
| ProductImport.KeyOf | app/api/admin/products/import/route.ts:162-163 | the slug is the key when there is one, otherwise the id, and there is none exactly when both are missing |
| ProductImport.Upserted | app/api/admin/products/import/route.ts:174-176 | after an upsert the key exists and no existing key is lost |
| ProductImport.Step | app/api/admin/products/import/route.ts:126-190 | each row adds exactly one to created, updated or errors; a keyless row adds only its "Fila" error; an upsert is recorded only for a keyed payload |
| ProductImport.Run | app/api/admin/products/import/route.ts:121-191 | after n rows the counts and the errors add up to n |
| ProductImport.ImportRows | app/api/admin/products/import/route.ts:125-191 | the loop computes the tally of all rows, whose counts and errors add up to the number of rows |
| ProductImport.StepKeepsKeyed | app/api/admin/products/import/route.ts:127-130 | a step keeps every recorded upsert keyed |
| ProductImport.UpsertsHaveKeys | app/api/admin/products/import/route.ts:127-130 | every payload the import upserts has a slug or an id |
| ProductImport.KeylessRowOnlyReported | app/api/admin/products/import/route.ts:127-130 | a keyless row adds its error and writes and counts nothing |
| ProductImport.SlugTakesPrecedence | app/api/admin/products/import/route.ts:162-163 | a row with both a slug and an id is looked up and upserted by its slug |
| ProductImport.RepeatedSlugUpdates | app/api/admin/products/import/route.ts:165-183 | the second of two rows with the same slug counts as an update |
| ProductImport.Post | app/api/admin/products/import/route.ts:84-200 | no file answers 400; missing credentials answer 500 before any row; otherwise the loop's counts and errors, which add up to the number of rows |
| ImportTemplate.DoubleQuotes | app/api/admin/products/template/route.ts:35 | doubling the quotes brings in no character the value did not have |
| ImportTemplate.Escape | app/api/admin/products/template/route.ts:34-35 | a value without comma or quote is written as it stands; any other is enclosed in quotes with its quotes doubled |
| ImportTemplate.HalveQuotes | app/api/admin/products/template/route.ts:35 | a CSV reader's halving of doubled quotes never lengthens the text |
| ImportTemplate.Unescape | app/api/admin/products/template/route.ts:35 | a CSV reader's unquoting never lengthens a field and leaves a field that is not wrapped in quotes as it is |
| ImportTemplate.HalveDoubled | app/api/admin/products/template/route.ts:35 | halving the doubled quotes gives the value back |
| ImportTemplate.UnescapeEscape | app/api/admin/products/template/route.ts:34-35 | every escaped value reads back as written |
| ImportTemplate.LineBreakNotQuoted | app/api/admin/products/template/route.ts:35 | a value with a line break but neither comma nor quote is left unquoted |
| ImportTemplate.EscapeAll | app/api/admin/products/template/route.ts:32-35 | every value of a row is escaped, in place |
| ImportTemplate.Line | app/api/admin/products/template/route.ts:32-35 | a row with no comma or quote in any value is written as its values joined by commas |
| ImportTemplate.Csv | app/api/admin/products/template/route.ts:32-36 | the file always starts with the header names joined by commas |
| ImportTemplate.Lines | app/api/admin/products/template/route.ts:32-36 | one line per row, in order |
| ImportTemplate.EscapedFieldBalanced | app/api/admin/products/template/route.ts:34-35 | an escaped value holds no comma outside quotes and ends outside quotes |
| ImportTemplate.LineFieldCount | app/api/admin/products/template/route.ts:32-36 | split at commas outside quotes, a row's line has exactly one field per value |
| ImportTemplate.LineWithoutBreaks | app/api/admin/products/template/route.ts:32-36 | a row whose values have no line break gives a line without one |
| ImportTemplate.CsvRecords | app/api/admin/products/template/route.ts:32-36 | without line breaks in the values the file splits at "\n" into the header line and one line per row |
| ImportTemplate.CsvWithBreak | app/api/admin/products/template/route.ts:32-36 | a value with a line break is written with the break as it stands |
| ImportTemplate.LineBreakSplitsRecord | app/api/admin/products/template/route.ts:32-36 | a value with a line break splits its row into two records |
| ImportTemplate.TemplateRecords | app/api/admin/products/template/route.ts:6-36 | the template is exactly two records: the header line and the sample line |
| ImportTemplate.TemplateFieldCounts | app/api/admin/products/template/route.ts:7-30 | the sample line has as many fields as the header line, 15 |
| Login.IsAdmin | app/auth/login/page.tsx:38-48 | the session counts as admin exactly when the profile row was read and its flag is true; a failed read counts as a customer |
| Login.AcceptedRedirect | app/auth/login/page.tsx:57-58 | the guard accepts exactly a requested path that starts with "/" and whose second character, if any, is not "/" |
| Login.SafeRedirect | app/auth/login/page.tsx:56-62 | the target always starts with "/" and not with "//"; an accepted requested path is used as it is, otherwise the admin or customer home |
| Login.HandleLogin | app/auth/login/page.tsx:23-78 | the page navigates exactly when the sign-in succeeded, to the guarded target; a failed sign-in shows its own message when it has one |
| Login.FailedReadIsCustomer | app/auth/login/page.tsx:46-48 | when the profile read throws, the session goes to the customer dashboard |
| Login.UrlView | app/auth/login/page.tsx:57-58 | the browser's reading of a path is never longer than the path |
| Login.UrlViewStart | app/auth/login/page.tsx:57-58 | two ordinary leading characters are read as they are |
| Login.GuardAdmitsOtherHosts | app/auth/login/page.tsx:57-58 | the guard accepts "/\x" and "/<tab>/x", which a browser reads as the other host x |
| Login.StaysOnSite | app/auth/login/page.tsx:57-58 | a path whose second character is ordinary and not "/" stays on this site |
| Login.SafeRedirectAsRead | app/auth/login/page.tsx:56-62 | the guard applied to the browser's reading never yields a target that leaves the site, and keeps every accepted path |
| Register.CheckPasswords | app/auth/register/page.tsx:38-54 | a mismatch is reported exactly when the two entries differ; "too short" exactly when they agree and the password has fewer than 6 UTF-16 units; otherwise the passwords pass |
| Register.MismatchReportedFirst | app/auth/register/page.tsx:38-54 | a short password typed differently twice is reported as a mismatch |
| Register.LookupCode | app/auth/register/page.tsx:63-67 | a code is looked up exactly when one was typed, upper-cased |
| Register.HandleRegister | app/auth/register/page.tsx:35-110 | a failed password check stops before any call; otherwise sign-up gets the typed e-mail, password and name, a referrer exactly when the code was found, a warning exactly when a typed code was not found, and the account is registered exactly when sign-up succeeds |
| Register.ReferralCodeCaseInsensitive | app/auth/register/page.tsx:67 | typing the referral code in lower case finds the same referrer |
| AdminProfile.Outcome | components/admin/admin-profile-tab.tsx:28-78 | the change is rejected exactly when the sign-up password checks fail, with their verdict, and succeeds exactly when they pass and the update reports no error |
| AdminProfile.ProfileTab.constructor | components/admin/admin-profile-tab.tsx:21-24 | the three password fields start empty and nothing is loading |
| AdminProfile.ProfileTab.HandlePasswordChange | components/admin/admin-profile-tab.tsx:28-78 | the update is called exactly when the checks pass, always with the new password; the fields are cleared only after a successful update and kept otherwise |
| AdminProfile.ClearedFormRejected | components/admin/admin-profile-tab.tsx:66-68 | the cleared form would itself be rejected as too short |
| SearchDropdown.HexDigit | components/search-dropdown.tsx:107 | a digit below 16 is written as an upper-case hexadecimal character |
| SearchDropdown.Utf8 | components/search-dropdown.tsx:107 | a character is one to four bytes, each below 256, and one byte exactly when it is ASCII |
| SearchDropdown.Percent | components/search-dropdown.tsx:107 | each byte becomes three characters, "%" and two upper-case hexadecimal digits |
| SearchDropdown.EncodeURIComponent | components/search-dropdown.tsx:107 | the encoded text holds only unreserved characters and "%", and is never shorter than the input |
| SearchDropdown.EncodedStaysOneParameter | components/search-dropdown.tsx:107 | no "&", "=", "#", "+", space, "/" or "?" survives the encoding |
| SearchDropdown.EncodeUnreserved | components/search-dropdown.tsx:107 | a text of unreserved characters is left as it is |
| SearchDropdown.EncodeAsciiExamples | components/search-dropdown.tsx:107 | a space becomes "%20" and an ampersand "%26" |
| SearchDropdown.EncodeLatinExample | components/search-dropdown.tsx:107 | "ñ" becomes its UTF-8 bytes, "%C3%B1" |
| SearchDropdown.Searchable | components/search-dropdown.tsx:39 | a query searched is non-blank once trimmed, and every query of two or more characters after trimming is searched |
| SearchDropdown.Dropdown.constructor | components/search-dropdown.tsx:18-22 | closed, no query, no results, nothing selected |
| SearchDropdown.Dropdown.InputChange | components/search-dropdown.tsx:72-75 | the query becomes the typed value and the list opens |
| SearchDropdown.Dropdown.Search | components/search-dropdown.tsx:37-70 | a request is sent exactly for a query of at least two characters once trimmed, and its parameters are page "1", limit "5" and the untrimmed query as search; a short query or a failed fetch clears the results; answered results replace them and reset the selection; the selection always stays -1 or within the results |
| SearchDropdown.DropdownParamsRead | components/search-dropdown.tsx:46-50 | the route reads back page "1", limit "5" and the query, and no category, price or flag parameter |
| SearchDropdown.DropdownSearchRead | app/api/products/route.ts:13 | the dropdown's request filters by the trimmed query, never blank for a searchable query |
| SearchDropdown.DropdownPageAndLimitRead | app/api/products/route.ts:11-12 | the dropdown's request is read as page 1 with a limit of 5 |
| SearchDropdown.DropdownRowsRead | app/api/products/route.ts:23-24 | the dropdown's request asks for rows 0 to 4 |
| SearchDropdown.DropdownOtherFiltersRead | app/api/products/route.ts:14-21 | the dropdown's request asks for no category, price, stock or sale filter |
| SearchDropdown.RouteSeesDropdownSearch | components/search-dropdown.tsx:46-51 | a searchable query reaches the route as exactly the name filter on its trimmed text over rows 0 to 4, with no other filter |
| SearchDropdown.Dropdown.Clear | components/search-dropdown.tsx:77-82 | query, results, open flag and selection are all reset |
| SearchDropdown.Dropdown.KeyDown | components/search-dropdown.tsx:84-114 | the arrows move the selection one step within -1 and the last result; Enter opens the selected product, or the first when none is selected, or with no results and a searchable query the search page with the encoded query, then clears; Escape only closes; the selection always stays in range |
| SearchDropdown.Dropdown.ProductClick | components/search-dropdown.tsx:116-120 | a click opens that product's page and clears the dropdown |
| SearchPage.Matches | app/buscar/page.tsx:28-31 | the test as intended: the empty query matches every product; a `null` description, brand or tag list simply does not match |
| SearchPage.Test | app/buscar/page.tsx:28-31 | one product through the test as written: it throws exactly when the name does not contain the query and the description is `null`; otherwise it answers whether the product matches |
| SearchPage.Filter | app/buscar/page.tsx:26-32 | the null-safe filter keeps exactly the fetched products that match, never more than were fetched |
| SearchPage.FilterAsWritten | app/buscar/page.tsx:26-32 | the filter as written throws exactly when some fetched product's test throws, and otherwise keeps what the null-safe filter keeps |
| SearchPage.Results | app/buscar/page.tsx:25-39 | a blank query shows every fetched product; a non-blank one shows the list shown before when the filter throws, and otherwise exactly the matching products, never more than were fetched |
| SearchPage.ResultsNullSafe | app/buscar/page.tsx:25-36 | the intended list: every fetched product for a blank query, exactly the matching ones otherwise |
| SearchPage.NullDescriptionKeepsStale | app/buscar/page.tsx:29 | searching "creatina" over one product named "Whey" with a `null` description keeps whatever list was shown before, where the intended filter shows nothing |
| SearchPage.WheyThrowsOnCreatina | app/buscar/page.tsx:28-29 | that product's test throws on "creatina" and does not match it, and the query is not blank |
| SearchPage.Search | app/buscar/page.tsx:20-42 | a failed listing shows nothing, whatever was shown before; with rows and no throwing product, never more results than rows returned |
| SearchPage.SearchReadsFirstHundred | app/buscar/page.tsx:23 | only rows 0 to 99 are asked for, whatever the query |
| SearchPage.FilterAppend | app/buscar/page.tsx:26-32 | filtering respects concatenation, so the kept products stay in fetched order |
| SearchPage.FilterIdempotent | app/buscar/page.tsx:26-32 | filtering again with the same query changes nothing |
| SearchPage.SameLowerSameResults | app/buscar/page.tsx:28-31 | queries that differ only in letter case give the same shown list, whatever was shown before |
| SearchPage.UpperCaseQuerySameResults | app/buscar/page.tsx:28-31 | upper-casing the query does not change the shown list |
| Blog.PrependNewestFirst | src/lib/api/blog.ts:461 | a post no older than any post of a newest-first list can go in front of it |
| Blog.Insert | src/lib/api/blog.ts:461 | placing a post keeps the list newest first and adds no other post |
| Blog.SortNewestFirst | src/lib/api/blog.ts:461 | the sorted copy is newest first and holds the same posts, as many times each |
| Blog.SortOfNewestFirst | src/lib/api/blog.ts:461 | a list already newest first comes back unchanged |
| Blog.WithDateCons | src/lib/api/blog.ts:461 | the posts of one day in a list are those of its head, then those of its tail |
| Blog.InsertWithDate | src/lib/api/blog.ts:461 | placing a post puts it in front of the other posts of its day |
| Blog.SortIsStable | src/lib/api/blog.ts:461 | posts of the same day keep their relative order |
| Blog.MockPostsKeepOrder | src/lib/api/blog.ts:5-455 | the built-in posts are declared newest first, so sorting keeps their declared order |
| Blog.ListBlogPosts | src/lib/api/blog.ts:457-472 | the total is 6 and the page count its ceiling over the page size; the page is clamped into range, newest first, at most a page long and drawn from the built-in posts; a page in range is the one asked for |
| Blog.ListBlogPostsShowsPage | src/lib/api/blog.ts:461-463 | the posts shown are exactly the built-in posts, in declared order, from the clamped page's start up to a page long |
| Blog.ListPosts | src/lib/api/blog.ts:457-472 | for any posts: the total is their number, there are no pages exactly when there are no posts, the page is clamped into range, and the posts shown are exactly the newest-first sorted posts from that page's start, up to a page long |
| Blog.SortedKeepsPosts | src/lib/api/blog.ts:461 | sorting keeps the number of posts and brings in none |
| Blog.PageSlice | src/lib/api/blog.ts:463 | the page `getPaginationData` cuts is the slice from the clamped page's start, cut at the end of the list |
| Blog.PageOfNewestFirst | src/lib/api/blog.ts:463 | a page cut from a newest-first list is newest first and holds only posts of the list |
| Blog.PagesShowEveryPostOnce | src/lib/api/blog.ts:461-463 | reading pages 1, 2, … in turn shows every built-in post exactly once, in date order |
| Blog.TotalIndependentOfPage | src/lib/api/blog.ts:465-471 | the total and the page count do not depend on the page asked for |
| Blog.FindBySlug | src/lib/api/blog.ts:478 | nothing is found exactly when no post has the slug; a found post is one of the posts with that slug |
| Blog.GetBlogPostBySlug | src/lib/api/blog.ts:474-479 | a found post is a built-in post with that slug, and nothing is found exactly when none has it |
| Blog.EverySlugFound | src/lib/api/blog.ts:474-479 | every built-in slug finds its own post |
| Blog.SlugsDistinct | src/lib/api/blog.ts:5-455 | the built-in posts have distinct slugs |
| CreateProduct.With | components/admin/create-product-dialog.tsx:99 | typing into one input replaces that field and keeps every other |
| CreateProduct.HyphenateShape | components/admin/create-product-dialog.tsx:47 | replacing white space runs by hyphens leaves no white space and never lengthens the text |
| CreateProduct.HyphenateOfNoSpace | components/admin/create-product-dialog.tsx:47 | text without white space is left as it is |
| CreateProduct.HyphenateRun | components/admin/create-product-dialog.tsx:47 | a whole run of white space becomes exactly one hyphen |
| CreateProduct.HyphenateWords | components/admin/create-product-dialog.tsx:47 | words separated by single spaces come out joined by hyphens |
| CreateProduct.SlugFor | components/admin/create-product-dialog.tsx:47 | a typed slug is sent as it is; otherwise the slug comes from the name, has no white space and is no longer than the name |
| CreateProduct.SlugOfSingleWord | components/admin/create-product-dialog.tsx:47 | a one-word name gives its lower-case form as slug |
| CreateProduct.OrNull | components/admin/create-product-dialog.tsx:48-49 | only the empty text becomes null; white space is kept |
| CreateProduct.TrimAll | components/admin/create-product-dialog.tsx:53-56 | every piece is trimmed and none is dropped |
| CreateProduct.ListField | components/admin/create-product-dialog.tsx:53-56 | an empty text gives no entries; any other gives one trimmed, comma-free entry per comma-separated piece |
| CreateProduct.ListFieldKeepsEmptyPieces | components/admin/create-product-dialog.tsx:53-56 | a lone comma gives two empty entries |
| CreateProduct.ListFieldOfJoin | components/admin/create-product-dialog.tsx:53-56 | entries typed with ", " between them come back as typed |
| CreateProduct.StockOrZero | components/admin/create-product-dialog.tsx:52 | the stock is 0 exactly when the text parses to NaN or 0, and otherwise the parsed number |
| CreateProduct.StockOfNumeral | components/admin/create-product-dialog.tsx:52 | a stock typed as a whole number is sent as that number |
| CreateProduct.CreateBody | components/admin/create-product-dialog.tsx:45-57 | the body carries the slug rule, the name, brand and description with empty as null, the parsed price, a null compare-at price when blank, always a stock, and the four lists split at commas |
| CreateProduct.EmptyFormBody | components/admin/create-product-dialog.tsx:23-57 | an untouched form sends empty lists, null brand, description and compare-at price, and a stock of 0 |
| CreateProduct.CreateProductDialog.constructor | components/admin/create-product-dialog.tsx:22-35 | the dialog opens with an empty form and not loading |
| CreateProduct.CreateProductDialog.Type | components/admin/create-product-dialog.tsx:99 | typing replaces one field of the form and nothing else |
| CreateProduct.CreateProductDialog.Submit | components/admin/create-product-dialog.tsx:37-83 | the posted body is computed from the form; the form is reset only after a successful creation; loading is cleared either way |
| CreateProduct.RetryAfterFailure | components/admin/create-product-dialog.tsx:60-82 | a failed creation keeps the form, so submitting again posts the same body |
| EditProduct.JoinList | components/admin/edit-product-dialog.tsx:47-50 | a null or empty list gives an empty input |
| EditProduct.InitForm | components/admin/edit-product-dialog.tsx:39-51 | name and slug are copied, null brand and description become empty, a null compare-at price an empty input, and the stock is written so that it parses back to itself |
| EditProduct.EditBody | components/admin/edit-product-dialog.tsx:61-73 | the body is the new-product body except that the slug is sent as it stands and the stock is parsed with no fallback |
| EditProduct.ListRoundTrip | components/admin/edit-product-dialog.tsx:47-72 | a list of trimmed, non-empty, comma-free entries survives the join into the form and the split back; null comes back as the empty list |
| EditProduct.CommaSplitsEntry | components/admin/edit-product-dialog.tsx:47-72 | an entry holding a comma comes back as two entries |
| EditProduct.NullableRoundTrip | components/admin/edit-product-dialog.tsx:42-65 | a null or non-empty brand or description comes back unchanged |
| EditProduct.EmptyBecomesNull | components/admin/edit-product-dialog.tsx:42-65 | an empty brand or description is saved back as null |
| EditProduct.BlankStockIsNull | components/admin/edit-product-dialog.tsx:68 | a cleared stock input sends null, where the new-product dialog sends 0 |
| EditProduct.SaveUnchanged | components/admin/edit-product-dialog.tsx:39-73 | saving an untouched form writes the product back as it was, given clean lists, no empty texts and a number format that parses back |
| Text.Utf16Length | app/auth/register/page.tsx:47 | `String.prototype.length` counts UTF-16 code units: at least one and at most two per character |
| Text.Trim | app/api/products/route.ts:13 | `trim` leaves a text with no leading or trailing white space, never longer than the input, and empty exactly when the input is all white space |
| Text.Lower | src/lib/api/products.ts:13 | `toLowerCase`, restricted to ASCII and Latin-1: each character is mapped on its own to its lower-case form, so the length is kept |
| Text.Upper | src/lib/store/user.ts:82 | `toUpperCase`, restricted to ASCII and Latin-1: each character is mapped on its own to its upper-case form, so the length is kept |
| Text.UpperOfLower | src/lib/store/user.ts:82 | upper-casing a lower-cased text gives the upper-cased text, so comparisons in upper case ignore earlier lower-casing |
| Text.Contains | app/buscar/page.tsx:28 | `includes`: the empty text occurs in every text, and a text found is no longer than the one searched |
| Text.ContainsIsOccurrence | app/buscar/page.tsx:28 | `includes` holds exactly when the text occurs at some position |
| Text.Split | app/api/products/route.ts:14-15 | `split` always gives at least one piece |
| Text.SplitPiecesFree | app/api/products/route.ts:14-15 | no piece of a split holds the separator |
| Text.Join | app/productos/page.tsx:37 | `join` of no texts is empty, and otherwise starts with the first text |
| Text.SplitJoin | app/productos/page.tsx:37 | splitting a comma-free list joined with "," gives the list back |
| Text.SplitTrimmedOfJoin | app/api/products/route.ts:14-17 | split, trim and drop-empty reads back a joined list whose entries are non-empty, trimmed and separator-free |
| Text.ParseIntOfIntToString | components/admin/edit-product-dialog.tsx:68 | `parseInt` reads back any integer written in decimal |
| Text.ParseIntWithoutDigits | components/admin/create-product-dialog.tsx:52 | `parseInt` of a text without a single decimal digit is NaN |
| Text.ToNumber | app/api/products/route.ts:11-12 | `Number` of a blank text is 0 |
| Text.ToNumberOfIntToString | app/api/products/route.ts:11-12 | `Number` reads back any integer written in decimal, whatever happens to other texts |
| Text.ToggleMember | components/product-filters.tsx:38-42 | the element's membership flips, no other element's does, and a duplicate-free list stays duplicate-free |
| Text.ToggleTwiceAbsent | components/product-filters.tsx:38-42 | adding an absent element and removing it again restores the list, order included |
| Text.Dedup | src/lib/api/products.ts:204 | `Array.from(new Set(xs))` holds no duplicates and exactly the elements of xs |
| Text.DedupOfDistinct | src/lib/api/products.ts:204 | a list without duplicates passes through the set unchanged, order included |
| Lists.Find | src/lib/store/user.ts:82 | `find` gives nothing exactly when no element passes the test, and otherwise the first element that does |


## Left out

- Network, database and SDK calls are not modelled. Supabase queries, `fetch`, the
  payment processor SDK and Supabase Auth are represented by their possible outcomes,
  passed as parameters. Retries, latency and concurrent requests are not modelled.
- Rendering is not modelled: JSX markup, toasts, router transitions, timers and the
  search box's 300 ms debounce. The model starts at the point where a handler or effect
  runs.
- `Number(text)`, `parseFloat`, `Number.prototype.toString` and date parsing are function
  parameters. `parseInt` is modelled concretely (decimal and `0x`), because the cart and
  stock fallbacks depend on it.
- The `URLSearchParams` round-trip between the catalogue page and the products route is
  taken as the identity on the texts the page sends: the form encoding and decoding are
  not modelled there. The search box's `encodeURIComponent` is modelled concretely
  (SearchDropdown.EncodeURIComponent). UTF-16 surrogate pairs and lone surrogates are not
  modelled.
- Text.Lower: `toLowerCase` is modelled for ASCII and Latin-1 only, one character to one
  character. JavaScript maps every script and may change the length; those cases are
  not captured.
- Text.Upper: `toUpperCase` is modelled for ASCII and Latin-1 only, one character to one
  character. JavaScript turns "ß" into "SS", "ÿ" into "Ÿ" and "µ" into "Μ", and maps
  every other script as well; those cases are not captured.
- SearchPage.UpperCaseQuerySameResults holds under that one-to-one mapping only. In
  JavaScript the queries "ß" and "SS" can select different products.
- SearchPage.SameLowerSameResults, Text.UpperOfLower, UserStore.ApplyDiscountIgnoresCase
  and Register.ReferralCodeCaseInsensitive rest on the same one-to-one case mapping. In
  JavaScript, "İ" lower-cased and then upper-cased is "I" followed by a combining dot.
- ProductsApi.Answer: the database's answer ignores `.order(...)` and returns matching rows
  in table order, so sorting is not modelled at that level (ProductsApi.OrderFor records
  the ordering asked for). A range starting before row 0 is an error. The `%` and `_`
  wildcards inside the search text are not interpreted.
- ProductsPage.ViewOf: with a limit of 0 and a positive total, JavaScript's `Math.ceil`
  gives Infinity pages, while the model gives NaN. `Num` has no Infinity, so
  `Number("Infinity")` and `parseFloat("Infinity")` are left to the number parameter as well.
- `getProductBySlug` and `getProductById` are not modelled. They repeat `listProducts`'
  row transform on a single row, and no page in this model calls them.
- `meta` (free-form JSON) carries no behaviour and is left out of the product record.
- Pagination.GetPaginationData: requires `pageSize > 0`. The source divides by the page
  size, and with 0 it would produce Infinity/NaN pages. Every caller passes a positive
  constant.
- Blog.ListPosts: requires `pageSize > 0`, for the same reason. Blog.ListBlogPosts has
  the same requirement. The source's default arguments (page 1, size 9) are explicit
  parameters here.
- ProductsApi.ListProducts: requires `pageSize >= 1`, for the same division. The default
  arguments (1, 12) are explicit parameters.
- ProductsPage.CategoriesRead: requires the categories to be among the panel's check
  boxes. Those are the only categories the panel can emit, and an arbitrary text with a
  comma would not survive the comma-joined parameter.
- ProductsPage.Catalogue.Load: only page 1 is ever requested. The page keeps `page` in
  its state but renders no control that changes it, and this is modelled as written.
- CreateProduct.CreateProductDialog: the body the dialog would post is returned by the
  submit method. No history of posted bodies is kept.
- EditProduct: the edit dialog's loading and typing state is not a class. Its form
  initialisation and the body it sends are modelled as functions.
- Register: prefilling the referral code from the `?ref=` address parameter is not
  modelled. Only the submit handler is.
- AdminProfile: the tab's logout button is not modelled. It only calls `signOut` and
  navigates.
- CouponsTab: the minimum-purchase, date and created-at cells only format values for
  display and are not modelled. The status flags, badge, discount label and use-limit
  label are modelled.
- SearchDropdown.Dropdown: the per-keystroke input state and the 300 ms debounce are not
  modelled. A query result is delivered to the dropdown as one event.
- SearchPage: the page reads the `q` parameter, while the header dropdown links to
  `/productos?search=`. Both are modelled as written.
- ImportTemplate.Escape: quotes a field only for a comma or a double quote, as the source
  does. ImportTemplate.LineBreakSplitsRecord shows that a line break inside a field would
  split the record. The template's fixed header and sample contain no line break, so the
  shipped template is unaffected (ImportTemplate.TemplateRecords).

## Findings

| source | as written | input that shows it | evidently intended | confidence | as-written member | corrected member |
|---|---|---|---|---|---|---|
| app/checkout/page.tsx:140 | the use limit is compared with `uses_count`, a column no code writes; checkouts increment `times_used` (page.tsx:260-272) | a coupon with `max_uses` 1 after any number of checkouts | the limit compared with `times_used` | not executed | Checkout.AcceptedPastLimit | Checkout.ExhaustedAfterLimit |
| app/checkout/page.tsx:83-90 | a fixed coupon subtracts its whole value, however small the subtotal | a fixed coupon of 20 on a subtotal of 10 | the discount capped at the subtotal | not executed | Checkout.FixedDiscountOverrunsTotal | Checkout.CappedTotals |
| app/api/mp/webhook/route.ts:65 | the webhook stores the processor's raw status ("approved"), while the payment endpoint stores the mapped one ("paid") | an approved payment whose notification arrives before the payment endpoint's own write | the same mapping in both writers, so the order of the writes does not matter | not executed | Webhook.WriteOrderDecidesPaymentStatus | Webhook.MappedWritesCommute |
| app/api/mp/create-payment/route.ts:74-89 | the payment is created without `metadata.orderId`, which the webhook needs to find the order | any payment created by the endpoint, then notified | the order id sent as metadata | not executed | Webhook.CreatedPaymentNeverMatched | Webhook.PaymentWithOrderIsMatched |
| app/auth/login/page.tsx:57-58 | the redirect guard only refuses targets that start with "//" | `?redirect=/\x` or `?redirect=/<tab>/x`, which a browser reads as host x | targets that stay on this site as the browser reads them | not executed | Login.GuardAdmitsOtherHosts | Login.SafeRedirectAsRead |
| app/buscar/page.tsx:29 | `product.description.toLowerCase()` is called on a `null` description; the throw is caught and `setProducts` is skipped | a non-blank query such as "creatina" and one fetched product named "Whey" whose description is `null` | a `null` description counts as not matching, and the page shows the matches | not executed | SearchPage.NullDescriptionKeepsStale | SearchPage.ResultsNullSafe |
