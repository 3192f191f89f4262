/**
 * The checkout page (app/checkout/page.tsx): the order totals, the coupon
 * validation chain, and the submit handler that inserts the order, records the
 * coupon use and empties the cart.
 */
module Checkout {
  import opened Text
  import opened Catalog
  import opened CouponRecords
  import opened Cart

  // ---------------------------------------------------------------------------
  // Totals
  // ---------------------------------------------------------------------------

  /** Shipping is free strictly above 50, and 5 otherwise. */
  function Shipping(subtotal: real): (s: real)
    ensures s == 0.0 <==> subtotal > 50.0
    ensures s == 0.0 || s == 5.0
  {
    if subtotal > 50.0 then 0.0 else 5.0
  }

  /** The coupon's discount: a percentage of the subtotal, or the fixed value as it stands. */
  function CouponDiscount(subtotal: real, coupon: Option<CouponRow>): (d: real)
    ensures coupon.None? ==> d == 0.0
    ensures coupon.Some? && coupon.value.discountType == "percentage" ==>
              d == subtotal * coupon.value.discountValue / 100.0
    ensures coupon.Some? && coupon.value.discountType != "percentage" ==> d == coupon.value.discountValue
  {
    if coupon.None? then 0.0
    else if coupon.value.discountType == "percentage" then subtotal * (coupon.value.discountValue / 100.0)
    else coupon.value.discountValue
  }

  datatype Totals = Totals(subtotal: real, shipping: real, discount: real, afterDiscount: real, tax: real, total: real)

  /** The totals block: 16% tax on the discounted subtotal, then shipping on top. */
  function ComputeTotals(subtotal: real, coupon: Option<CouponRow>): (t: Totals)
    ensures t.subtotal == subtotal && t.shipping == Shipping(subtotal)
    ensures t.discount == CouponDiscount(subtotal, coupon)
    ensures t.tax == (subtotal - t.discount) * 16.0 / 100.0
    ensures t.total == subtotal - t.discount + t.shipping + t.tax
    ensures t.total == (subtotal - t.discount) * 116.0 / 100.0 + t.shipping
  {
    var discount := CouponDiscount(subtotal, coupon);
    var after := subtotal - discount;
    var tax := after * 0.16;
    Totals(subtotal, Shipping(subtotal), discount, after, tax, after + Shipping(subtotal) + tax)
  }

  /** As written, a fixed coupon worth more than the cart drives the order total below zero. */
  lemma FixedDiscountOverrunsTotal()
    ensures var c := CouponRow("c1", "FIJO20", "fixed", 20.0, None, None, None, None, None, None, true);
            ComputeTotals(10.0, Some(c)).total < 0.0
  {
  }

  /** The discount as evidently intended: never below zero and never more than the subtotal. */
  function CappedCouponDiscount(subtotal: real, coupon: Option<CouponRow>): (d: real)
    ensures subtotal >= 0.0 ==> 0.0 <= d <= subtotal
    ensures 0.0 <= CouponDiscount(subtotal, coupon) <= subtotal ==> d == CouponDiscount(subtotal, coupon)
  {
    var d := CouponDiscount(subtotal, coupon);
    if d < 0.0 then 0.0 else if d > subtotal then (if subtotal < 0.0 then d else subtotal) else d
  }

  function CappedTotals(subtotal: real, coupon: Option<CouponRow>): (t: Totals)
    ensures t.discount == CappedCouponDiscount(subtotal, coupon)
    ensures subtotal >= 0.0 ==> t.total >= t.shipping >= 0.0
    ensures t.total == (subtotal - t.discount) * 116.0 / 100.0 + t.shipping
  {
    var discount := CappedCouponDiscount(subtotal, coupon);
    var after := subtotal - discount;
    var tax := after * 0.16;
    Totals(subtotal, Shipping(subtotal), discount, after, tax, after + Shipping(subtotal) + tax)
  }

  // ---------------------------------------------------------------------------
  // Coupon validation
  // ---------------------------------------------------------------------------

  datatype CouponCheck = EmptyCode | NotFound | Expired | Exhausted | BelowMinimum | Accepted(coupon: CouponRow)

  /** The rows the lookup selects: `code` equal to the upper-cased input and `is_active` true. */
  function SelectActiveByCode(table: seq<CouponRow>, code: string): (r: seq<CouponRow>)
    ensures forall c :: c in r <==> c in table && c.code == code && c.isActive
  {
    if table == [] then []
    else
      var rest := SelectActiveByCode(table[1..], code);
      assert forall c :: c in table <==> c == table[0] || c in table[1..];
      if table[0].code == code && table[0].isActive then [table[0]] + rest else rest
  }

  /** `.single()`: exactly one row, otherwise an error. */
  function Single(rows: seq<CouponRow>): (r: Option<CouponRow>)
    ensures r.Some? <==> |rows| == 1
    ensures r.Some? ==> r.value == rows[0]
  {
    if |rows| == 1 then Some(rows[0]) else None
  }

  /** `new Date(expires_at) < new Date()`, guarded by `expires_at` being set. */
  predicate ExpiredAt(row: CouponRow, now: int)
    ensures row.expiresAt.None? ==> !ExpiredAt(row, now)
  {
    row.expiresAt.Some? && row.expiresAt.value < now
  }

  /**
   * The exhaustion test as written: it reads `uses_count`, and `undefined >= n` is false,
   * so a row without that key is never exhausted.
   */
  predicate ExhaustedAsWritten(row: CouponRow)
    ensures row.usesCount.None? || !HasUseLimit(row) ==> !ExhaustedAsWritten(row)
  {
    HasUseLimit(row) && row.usesCount.Some? && row.usesCount.value >= row.maxUses.value
  }

  /** `min_purchase` is truthy and the subtotal falls short of it. */
  predicate BelowMinimumFor(row: CouponRow, subtotal: real)
    ensures !HasMinimum(row) ==> !BelowMinimumFor(row, subtotal)
    ensures HasMinimum(row) && row.minPurchase.value < 0.0 && subtotal >= 0.0 ==> !BelowMinimumFor(row, subtotal)
  {
    HasMinimum(row) && subtotal < row.minPurchase.value
  }

  /**
   * The lookup's row: the one active row whose code is the upper-cased input, when the
   * request succeeds and exactly one row answers; `None` otherwise.
   */
  function Found(table: Option<seq<CouponRow>>, code: string): (r: Option<CouponRow>)
    ensures r.Some? <==> table.Some? && |SelectActiveByCode(table.value, Upper(code))| == 1
    ensures r.Some? ==> r.value in table.value && r.value.code == Upper(code) && r.value.isActive
  {
    if table.None? then None
    else
      var rows := SelectActiveByCode(table.value, Upper(code));
      if |rows| == 1 then
        assert rows[0] in rows;
        Some(rows[0])
      else None
  }

  /**
   * `handleApplyCoupon`: the checks in their order (empty code, lookup, expiry, use limit,
   * minimum purchase); the first that fails decides. `table` is the coupons table, or
   * `None` when the lookup request fails.
   */
  function CheckCoupon(code: string, table: Option<seq<CouponRow>>, subtotal: real, now: int): (r: CouponCheck)
    ensures r == EmptyCode <==> Trim(code) == []
    ensures Trim(code) != [] && table.None? ==> r == NotFound
  {
    if Trim(code) == [] then EmptyCode
    else if table.None? then NotFound
    else
      var found := Single(SelectActiveByCode(table.value, Upper(code)));
      if found.None? then NotFound
      else
        var c := found.value;
        if ExpiredAt(c, now) then Expired
        else if ExhaustedAsWritten(c) then Exhausted
        else if BelowMinimumFor(c, subtotal) then BelowMinimum
        else Accepted(c)
  }

  /**
   * What each verdict of the chain means, in both directions: for a non-blank code, the
   * lookup finds no single row, or the found row fails expiry, then the use limit, then the
   * minimum, or passes all three and is the accepted coupon.
   */
  lemma CheckCouponVerdicts(code: string, table: Option<seq<CouponRow>>, subtotal: real, now: int)
    ensures var r := CheckCoupon(code, table, subtotal, now);
            var f := Found(table, code);
            (r == NotFound <==> Trim(code) != [] && f.None?)
            && (r == Expired <==> Trim(code) != [] && f.Some? && ExpiredAt(f.value, now))
            && (r == Exhausted <==> Trim(code) != [] && f.Some? && !ExpiredAt(f.value, now) && ExhaustedAsWritten(f.value))
            && (r == BelowMinimum <==>
                  Trim(code) != [] && f.Some? && !ExpiredAt(f.value, now) && !ExhaustedAsWritten(f.value)
                  && BelowMinimumFor(f.value, subtotal))
            && (r.Accepted? <==>
                  Trim(code) != [] && f.Some? && !ExpiredAt(f.value, now) && !ExhaustedAsWritten(f.value)
                  && !BelowMinimumFor(f.value, subtotal))
            && (r.Accepted? ==> r.coupon == f.value)
  {
    if Trim(code) != [] && table.Some? {
      var found := Single(SelectActiveByCode(table.value, Upper(code)));
      assert found == Found(table, code);
    }
  }

  /** A use limit or minimum of null or 0 imposes nothing. */
  lemma ZeroOrNullLimitsImposeNothing(row: CouponRow, subtotal: real)
    requires row.maxUses.None? || row.maxUses == Some(0)
    requires row.minPurchase.None? || row.minPurchase == Some(0.0)
    ensures !ExhaustedAsWritten(row) && !BelowMinimumFor(row, subtotal)
  {
  }

  /** The coupon write of a successful checkout: `times_used` becomes `(times_used || 0) + 1`. */
  function RecordUse(row: CouponRow): (r: CouponRow)
    ensures r.timesUsed == Some(TimesUsedValue(row) + 1)
    ensures r.usesCount == row.usesCount && r.maxUses == row.maxUses
  {
    row.(timesUsed := Some(TimesUsedValue(row) + 1))
  }

  /** The row after `k` checkouts with it. */
  function UsedTimes(row: CouponRow, k: nat): (r: CouponRow)
    ensures r.usesCount == row.usesCount && r.maxUses == row.maxUses
    ensures r.expiresAt == row.expiresAt && r.minPurchase == row.minPurchase
    ensures r.code == row.code && r.isActive == row.isActive
  {
    if k == 0 then row else RecordUse(UsedTimes(row, k - 1))
  }

  lemma {:induction false} UsedTimesCount(row: CouponRow, k: nat)
    ensures k > 0 ==> TimesUsedValue(UsedTimes(row, k)) == TimesUsedValue(row) + k
  {
    if k > 1 {
      UsedTimesCount(row, k - 1);
    }
  }

  /**
   * As written, a coupon whose row has no `uses_count` passes the use-limit check however
   * often checkouts have recorded it, since they only ever write `times_used`.
   */
  lemma NeverExhaustedAsWritten(table: seq<CouponRow>, code: string, subtotal: real, now: int)
    requires forall c :: c in table ==> c.usesCount.None?
    ensures CheckCoupon(code, Some(table), subtotal, now) != Exhausted
  {
  }

  /** A coupon limited to one use is still accepted after any number `k` of recorded checkouts. */
  lemma AcceptedPastLimit(code: string, k: nat)
    requires Trim(code) != []
    ensures var row := CouponRow("c1", Upper(code), "percentage", 10.0, None, Some(1), None, None, None, None, true);
            var used := UsedTimes(row, k);
            (k > 0 ==> TimesUsedValue(used) == k) && CheckCoupon(code, Some([used]), 100.0, 0) == Accepted(used)
  {
    var row := CouponRow("c1", Upper(code), "percentage", 10.0, None, Some(1), None, None, None, None, true);
    UsedTimesCount(row, k);
    var used := UsedTimes(row, k);
    assert used.code == Upper(code) && used.isActive;
    assert SelectActiveByCode([used], Upper(code)) == [used];
    assert !ExpiredAt(used, 0) && !ExhaustedAsWritten(used) && !BelowMinimumFor(used, 100.0);
  }

  /** The use-limit test as evidently intended: against `times_used`, the column checkouts write. */
  predicate ExhaustedIntended(row: CouponRow)
    ensures !HasUseLimit(row) ==> !ExhaustedIntended(row)
    ensures HasUseLimit(row) && row.timesUsed.None? ==> (ExhaustedIntended(row) <==> row.maxUses.value <= 0)
  {
    HasUseLimit(row) && TimesUsedValue(row) >= row.maxUses.value
  }

  /** With the intended test, a coupon limited to `m` uses is refused once it has been used `m` times, and not before. */
  lemma ExhaustedAfterLimit(row: CouponRow, k: nat)
    requires HasUseLimit(row) && row.maxUses.value > 0 && TimesUsedValue(row) == 0
    ensures ExhaustedIntended(UsedTimes(row, k)) <==> k >= row.maxUses.value
  {
    UsedTimesCount(row, k);
  }

  // ---------------------------------------------------------------------------
  // Order submission
  // ---------------------------------------------------------------------------

  datatype CheckoutForm = CheckoutForm(
    firstName: string, lastName: string, email: string, phone: string,
    address: string, city: string, state: string, zipCode: string,
    paymentMethod: string, notes: string)

  datatype OrderLine = OrderLine(productId: string, name: string, price: real, quantity: int, discount: real)

  datatype OrderData = OrderData(
    userId: Option<string>,
    customerName: string, customerEmail: string, customerPhone: string,
    shippingAddress: string, shippingCity: string, shippingState: string, shippingZip: string,
    items: seq<OrderLine>,
    subtotal: real, discountAmount: real, total: real,
    paymentMethod: string, paymentStatus: string,
    couponCode: Option<string>, couponDiscount: real,
    notes: Option<string>)

  /** The coupon-usage writes: the new `times_used` of the coupon and the user's coupon marked used at `now`. */
  datatype UsageWrite = CouponTimesUsed(couponId: string, timesUsed: int) | UserCouponUsed(userId: string, couponId: string, usedAt: int)

  datatype InsertResult = InsertOk(orderNumber: string) | InsertError

  datatype SubmitOutcome =
    | MissingContact
    | MissingAddress
    | InsertFailed(order: OrderData)
    | Placed(order: OrderData, writes: seq<UsageWrite>, redirect: string)

  predicate ContactComplete(f: CheckoutForm)
  {
    f.firstName != [] && f.lastName != [] && f.email != [] && f.phone != []
  }

  predicate AddressComplete(f: CheckoutForm)
  {
    f.address != [] && f.city != [] && f.state != [] && f.zipCode != []
  }

  /** `item.product.discount || 0`: the product's discount when it is present and not zero, else 0. */
  function LineDiscount(p: Product): (d: real)
    ensures d != 0.0 <==> p.discount.Some? && p.discount.value != 0
    ensures d != 0.0 ==> d == p.discount.value as real
  {
    if p.discount.Some? && p.discount.value != 0 then p.discount.value as real else 0.0
  }

  /** One order line per cart line, carrying the product's id, name, price and discount and the line's quantity. */
  function OrderLines(items: seq<CartItem>): (r: seq<OrderLine>)
    ensures |r| == |items|
    ensures forall i :: 0 <= i < |items| ==>
              r[i] == OrderLine(items[i].product.id, items[i].product.name, items[i].product.price,
                                items[i].quantity, LineDiscount(items[i].product))
  {
    if items == [] then []
    else
      var it := items[0];
      [OrderLine(it.product.id, it.product.name, it.product.price, it.quantity, LineDiscount(it.product))]
      + OrderLines(items[1..])
  }

  /** The `orderData` record: the session's user, the form's contact and shipping fields, the cart's lines and totals, the applied coupon's code, status "pending" whatever the method. */
  function BuildOrder(f: CheckoutForm, userId: Option<string>, items: seq<CartItem>, coupon: Option<CouponRow>): (o: OrderData)
    ensures o.userId == userId && o.customerName == f.firstName + " " + f.lastName
    ensures o.customerEmail == f.email && o.customerPhone == f.phone
    ensures o.shippingAddress == f.address && o.shippingCity == f.city
    ensures o.shippingState == f.state && o.shippingZip == f.zipCode
    ensures o.paymentMethod == f.paymentMethod
    ensures o.items == OrderLines(items) && o.subtotal == Total(items)
    ensures o.discountAmount == o.couponDiscount == CouponDiscount(Total(items), coupon)
    ensures o.total == ComputeTotals(Total(items), coupon).total
    ensures o.paymentStatus == "pending"
    ensures o.couponCode.Some? <==> coupon.Some? && coupon.value.code != []
    ensures o.couponCode.Some? ==> o.couponCode.value == coupon.value.code
    ensures o.notes.Some? <==> f.notes != []
    ensures o.notes.Some? ==> o.notes.value == f.notes
  {
    var t := ComputeTotals(Total(items), coupon);
    OrderData(
      userId,
      f.firstName + " " + f.lastName, f.email, f.phone,
      f.address, f.city, f.state, f.zipCode,
      OrderLines(items),
      t.subtotal, t.discount, t.total,
      f.paymentMethod, if f.paymentMethod == "cash" then "pending" else "pending",
      if coupon.Some? && coupon.value.code != [] then Some(coupon.value.code) else None,
      t.discount,
      if f.notes != [] then Some(f.notes) else None)
  }

  /** The usage writes: only with an applied coupon and a signed-in user. */
  function UsageWrites(coupon: Option<CouponRow>, isAuthenticated: bool, userId: Option<string>, now: int): (w: seq<UsageWrite>)
    ensures w != [] <==> coupon.Some? && isAuthenticated && userId.Some? && userId.value != []
    ensures w != [] ==> w == [CouponTimesUsed(coupon.value.id, RecordUse(coupon.value).timesUsed.value),
                             UserCouponUsed(userId.value, coupon.value.id, now)]
  {
    if coupon.Some? && isAuthenticated && userId.Some? && userId.value != [] then
      [CouponTimesUsed(coupon.value.id, TimesUsedValue(coupon.value) + 1),
       UserCouponUsed(userId.value, coupon.value.id, now)]
    else []
  }

  class CheckoutPage {
    var couponCode: string
    var appliedCoupon: Option<CouponRow>
    var isApplyingCoupon: bool
    var isProcessing: bool
    var isAuthenticated: bool
    var userId: Option<string>
    var form: CheckoutForm

    constructor(isAuthenticated: bool, userId: Option<string>, form: CheckoutForm)
      ensures this.couponCode == [] && this.appliedCoupon.None?
      ensures !this.isApplyingCoupon && !this.isProcessing
      ensures this.isAuthenticated == isAuthenticated && this.userId == userId && this.form == form
    {
      this.couponCode := [];
      this.appliedCoupon := None;
      this.isApplyingCoupon := false;
      this.isProcessing := false;
      this.isAuthenticated := isAuthenticated;
      this.userId := userId;
      this.form := form;
    }

    /** `handleApplyCoupon`: only a coupon that passes every check replaces the applied one; a failed check keeps whatever was applied. */
    method ApplyCoupon(table: Option<seq<CouponRow>>, subtotal: real, now: int) returns (r: CouponCheck)
      modifies this
      ensures r == CheckCoupon(couponCode, table, subtotal, now)
      ensures r.Accepted? ==> appliedCoupon == Some(r.coupon)
      ensures !r.Accepted? ==> appliedCoupon == old(appliedCoupon)
      ensures r == EmptyCode ==> isApplyingCoupon == old(isApplyingCoupon)
      ensures r != EmptyCode ==> !isApplyingCoupon
      ensures couponCode == old(couponCode) && form == old(form)
      ensures isProcessing == old(isProcessing) && userId == old(userId) && isAuthenticated == old(isAuthenticated)
    {
      ghost var expected := CheckCoupon(couponCode, table, subtotal, now);
      if Trim(couponCode) == [] {
        return EmptyCode;
      }
      isApplyingCoupon := true;
      if table.None? {
        isApplyingCoupon := false;
        return NotFound;
      }
      var found := Single(SelectActiveByCode(table.value, Upper(couponCode)));
      if found.None? {
        isApplyingCoupon := false;
        return NotFound;
      }
      var coupon := found.value;
      if ExpiredAt(coupon, now) {
        isApplyingCoupon := false;
        assert expected == Expired;
        return Expired;
      }
      if ExhaustedAsWritten(coupon) {
        isApplyingCoupon := false;
        assert expected == Exhausted;
        return Exhausted;
      }
      if BelowMinimumFor(coupon, subtotal) {
        isApplyingCoupon := false;
        assert expected == BelowMinimum;
        return BelowMinimum;
      }
      assert expected == Accepted(coupon);
      appliedCoupon := Some(coupon);
      isApplyingCoupon := false;
      return Accepted(coupon);
    }

    /** `handleRemoveCoupon`. */
    method RemoveCoupon()
      modifies this
      ensures appliedCoupon.None? && couponCode == []
      ensures form == old(form) && isProcessing == old(isProcessing)
    {
      appliedCoupon := None;
      couponCode := [];
    }

    /**
     * `handleSubmit`: the contact fields, then the address fields, must be filled before
     * anything is sent. The cart is emptied, and the coupon use recorded, only after the
     * order insert succeeds. `insert` is the database's answer to the insert.
     */
    method Submit(cart: CartStore, insert: InsertResult, now: int) returns (r: SubmitOutcome)
      requires cart != this as object
      modifies this, cart
      ensures r.MissingContact? <==> !ContactComplete(form)
      ensures r.MissingAddress? <==> ContactComplete(form) && !AddressComplete(form)
      ensures r.InsertFailed? <==> ContactComplete(form) && AddressComplete(form) && insert.InsertError?
      ensures r.InsertFailed? || r.Placed? ==>
                r.order == BuildOrder(form, userId, old(cart.items), appliedCoupon)
      ensures r.Placed? ==> r.writes == UsageWrites(appliedCoupon, isAuthenticated, userId, now)
                            && r.redirect == "/pedido-confirmado?order=" + insert.orderNumber
                            && cart.items == []
      ensures !r.Placed? ==> cart.items == old(cart.items)
      ensures !isProcessing
      ensures appliedCoupon == old(appliedCoupon) && form == old(form) && couponCode == old(couponCode)
      ensures userId == old(userId) && isAuthenticated == old(isAuthenticated)
    {
      isProcessing := true;
      if !ContactComplete(form) {
        isProcessing := false;
        return MissingContact;
      }
      if !AddressComplete(form) {
        isProcessing := false;
        return MissingAddress;
      }
      var order := BuildOrder(form, userId, cart.items, appliedCoupon);
      if insert.InsertError? {
        isProcessing := false;
        return InsertFailed(order);
      }
      var writes := UsageWrites(appliedCoupon, isAuthenticated, userId, now);
      cart.ClearCart();
      r := Placed(order, writes, "/pedido-confirmado?order=" + insert.orderNumber);
      isProcessing := false;
    }
  }

  /** The page shows the empty-cart card instead of the form when the cart has no lines. */
  function ShowsEmptyCart(items: seq<CartItem>): (b: bool)
    ensures b <==> items == []
    ensures b ==> Total(items) == 0.0 && ItemCount(items) == 0
  {
    |items| == 0
  }
}
