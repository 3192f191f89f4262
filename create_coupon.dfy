/**
 * The "create coupon" dialog (components/admin/create-coupon-button.tsx): the record
 * it inserts, and the dialog's open/busy state around the insert.
 */
module CreateCoupon {
  import opened Text
  import opened CouponRecords
  import CouponsTab
  import Checkout

  /** The form's fields as `FormData.get` returns them; a missing field reads as "". */
  datatype CouponForm = CouponForm(
    code: string, discountType: string, discountValue: string,
    minPurchase: string, maxUses: string, validUntil: string)

  /** The inserted record. Numbers are `Number(..)` of the text, so they may be NaN. */
  datatype CouponData = CouponData(
    code: string, discountType: string, discountValue: Num,
    minPurchase: Option<Num>, maxUses: Option<Num>, expiresAt: Option<int>, isActive: bool)

  datatype Built = Built(data: CouponData) | InvalidDate

  /**
   * `couponData`: the code exactly as typed, blank optional fields as null, the expiry
   * under `expires_at`, and always active. `toNumber` is `Number(..)`; `parseDate` is
   * `new Date(..)`, `None` for an invalid date, on which `toISOString` throws.
   */
  function BuildCouponData(f: CouponForm, toNumber: string -> Num, parseDate: string -> Option<int>): (r: Built)
    ensures r.InvalidDate? <==> f.validUntil != [] && parseDate(f.validUntil).None?
    ensures r.Built? ==> r.data.code == f.code && r.data.discountType == f.discountType && r.data.isActive
    ensures r.Built? ==> r.data.discountValue == toNumber(f.discountValue)
    ensures r.Built? ==> (r.data.minPurchase.None? <==> f.minPurchase == [])
                         && (r.data.maxUses.None? <==> f.maxUses == [])
                         && (r.data.expiresAt.None? <==> f.validUntil == [])
    ensures r.Built? && f.minPurchase != [] ==> r.data.minPurchase == Some(toNumber(f.minPurchase))
    ensures r.Built? && f.maxUses != [] ==> r.data.maxUses == Some(toNumber(f.maxUses))
    ensures r.Built? && f.validUntil != [] ==> r.data.expiresAt == parseDate(f.validUntil)
  {
    if f.validUntil != [] && parseDate(f.validUntil).None? then InvalidDate
    else
      Built(CouponData(
        f.code, f.discountType, toNumber(f.discountValue),
        if f.minPurchase != [] then Some(toNumber(f.minPurchase)) else None,
        if f.maxUses != [] then Some(toNumber(f.maxUses)) else None,
        if f.validUntil != [] then parseDate(f.validUntil) else None,
        true))
  }

  datatype CreateOutcome = Created(data: CouponData) | Failed

  class CreateCouponDialog {
    var open: bool
    var isCreating: bool
    var refreshed: bool

    constructor()
      ensures !open && !isCreating && !refreshed
    {
      open := false;
      isCreating := false;
      refreshed := false;
    }

    /**
     * `handleSubmit`: builds the record, inserts it (`insertOk` is the database's answer),
     * and closes the dialog and refreshes the page only when the insert succeeded.
     */
    method Submit(f: CouponForm, toNumber: string -> Num, parseDate: string -> Option<int>, insertOk: bool)
      returns (r: CreateOutcome)
      modifies this
      ensures var b := BuildCouponData(f, toNumber, parseDate);
              r.Created? <==> b.Built? && insertOk
      ensures r.Created? ==> r.data == BuildCouponData(f, toNumber, parseDate).data && !open && refreshed
      ensures r.Failed? ==> open == old(open) && refreshed == old(refreshed)
      ensures !isCreating
    {
      isCreating := true;
      var built := BuildCouponData(f, toNumber, parseDate);
      if built.InvalidDate? {
        isCreating := false;
        return Failed;
      }
      if !insertOk {
        isCreating := false;
        return Failed;
      }
      open := false;
      refreshed := true;
      isCreating := false;
      return Created(built.data);
    }
  }

  /**
   * A created coupon as stored: the admin table reads its expiry from `valid_until`, which
   * the dialog never writes, so the table never shows it as expired, while checkout does
   * refuse it after `expires_at`.
   */
  lemma CreatedCouponExpiryReaders(data: CouponData, row: CouponRow, now: int)
    requires row.code == data.code && row.isActive == data.isActive
    requires row.expiresAt == data.expiresAt && row.validUntil.None?
    ensures !CouponsTab.IsExpired(row, now)
    ensures CouponsTab.StatusBadge(row, now) != CouponsTab.Expirado
    ensures Checkout.ExpiredAt(row, now) <==> data.expiresAt.Some? && data.expiresAt.value < now
  {
  }

  /**
   * Checkout looks the code up upper-cased, so a coupon created with a code that is not
   * already upper-case is never found, whatever the customer types.
   */
  lemma LowerCaseCodeNeverFound(row: CouponRow, typed: string, subtotal: real, now: int)
    requires Upper(row.code) != row.code
    ensures !Checkout.CheckCoupon(typed, Some([row]), subtotal, now).Accepted?
  {
    Checkout.CheckCouponVerdicts(typed, Some([row]), subtotal, now);
    UpperOfUpper(typed);
  }
}
