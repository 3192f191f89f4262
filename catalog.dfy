/**
 * The product record shared by the store, the catalogue pages and the API
 * (src/types/product.ts, types/product.ts). `meta` carries no behaviour and is left out.
 * `description` is `null` when the column is; `discount` is the percentage the
 * catalogue page adds to each product it shows, absent on products read elsewhere.
 */
module Catalog {
  import opened Text

  datatype Product = Product(
    id: string,
    slug: string,
    name: string,
    brand: Option<string>,
    description: Option<string>,
    price: real,
    compareAtPrice: Option<real>,
    tags: Option<seq<string>>,
    categories: Option<seq<string>>,
    flavors: Option<seq<string>>,
    rating: Option<real>,
    reviewsCount: Option<int>,
    images: seq<string>,
    stock: int,
    inStock: Option<bool>,
    discount: Option<int>)
}

/**
 * A row of the `coupons` table as the pages read it. Dates are timestamps. A `None`
 * nullable column reads as `null`; `usesCount` stands for a `uses_count` key, and
 * `None` there means the key is absent from the row (`undefined`).
 */
module CouponRecords {
  import opened Text

  datatype CouponRow = CouponRow(
    id: string,
    code: string,
    discountType: string,
    discountValue: real,
    minPurchase: Option<real>,
    maxUses: Option<int>,
    timesUsed: Option<int>,
    usesCount: Option<int>,
    expiresAt: Option<int>,
    validUntil: Option<int>,
    isActive: bool)

  /** `row.max_uses` is truthy: present and not zero. */
  predicate HasUseLimit(row: CouponRow)
  {
    row.maxUses.Some? && row.maxUses.value != 0
  }

  /** `row.min_purchase` is truthy: present and not zero. */
  predicate HasMinimum(row: CouponRow)
  {
    row.minPurchase.Some? && row.minPurchase.value != 0.0
  }

  /** `row.times_used` in a numeric comparison: `null` compares as 0. */
  function TimesUsedValue(row: CouponRow): int
  {
    if row.timesUsed.Some? then row.timesUsed.value else 0
  }
}
