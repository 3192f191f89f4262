/**
 * The admin coupons table (components/admin/coupons-tab.tsx): per-row status flags,
 * the status badge, and the discount and use-limit labels.
 */
module CouponsTab {
  import opened Text
  import opened CouponRecords

  /** `valid_until` is set and earlier than now; `expires_at` plays no part. */
  predicate IsExpired(row: CouponRow, now: int)
    ensures row.validUntil.None? ==> !IsExpired(row, now)
  {
    row.validUntil.Some? && row.validUntil.value < now
  }

  /** A non-zero use limit that `times_used` has reached. */
  predicate IsMaxedOut(row: CouponRow)
    ensures !HasUseLimit(row) ==> !IsMaxedOut(row)
    ensures HasUseLimit(row) && row.timesUsed.None? ==> (IsMaxedOut(row) <==> row.maxUses.value <= 0)
    ensures HasUseLimit(row) && row.timesUsed.Some? ==> (IsMaxedOut(row) <==> row.timesUsed.value >= row.maxUses.value)
  {
    HasUseLimit(row) && TimesUsedValue(row) >= row.maxUses.value
  }

  /** Switched on, not past `valid_until` and not out of uses. */
  predicate IsActive(row: CouponRow, now: int)
    ensures IsActive(row, now) ==> row.isActive && (row.validUntil.None? || row.validUntil.value >= now)
    ensures row.isActive && row.validUntil.None? && !HasUseLimit(row) ==> IsActive(row, now)
  {
    row.isActive && !IsExpired(row, now) && !IsMaxedOut(row)
  }

  datatype Badge = Activo | Expirado | Agotado | Inactivo

  /** The status badge: Activo before Expirado before Agotado before Inactivo. */
  function StatusBadge(row: CouponRow, now: int): (b: Badge)
    ensures b == Activo <==> row.isActive && !IsExpired(row, now) && !IsMaxedOut(row)
    ensures b == Expirado <==> IsExpired(row, now)
    ensures b == Agotado <==> !IsExpired(row, now) && IsMaxedOut(row)
    ensures b == Inactivo <==> !row.isActive && !IsExpired(row, now) && !IsMaxedOut(row)
  {
    if IsActive(row, now) then Activo
    else if IsExpired(row, now) then Expirado
    else if IsMaxedOut(row) then Agotado
    else Inactivo
  }

  /** The discount cell: "v%" for a percentage, "$v" for anything else; `show` renders the number. */
  function DiscountLabel(row: CouponRow, show: real -> string): (s: string)
    ensures row.discountType == "percentage" ==> s == show(row.discountValue) + "%"
    ensures row.discountType != "percentage" ==> s == "$" + show(row.discountValue)
  {
    if row.discountType == "percentage" then show(row.discountValue) + "%" else "$" + show(row.discountValue)
  }

  /**
   * When the rendered number never starts with "$" nor ends with "%", the cell tells the two
   * kinds apart: it ends with "%" exactly for a percentage, and starts with "$" exactly otherwise.
   */
  lemma DiscountLabelShowsType(row: CouponRow, show: real -> string)
    requires forall x :: show(x) != [] && show(x)[0] != '$' && show(x)[|show(x)| - 1] != '%'
    ensures var s := DiscountLabel(row, show);
            s != [] && (s[|s| - 1] == '%' <==> row.discountType == "percentage") && (s[0] == '$' <==> row.discountType != "percentage")
  {
    var v := show(row.discountValue);
    assert v != [] && v[0] != '$' && v[|v| - 1] != '%';
  }

  /** The use-limit cell: the limit, or "Ilimitado" when it is null or 0. */
  function MaxUsesLabel(row: CouponRow): (s: string)
    ensures !HasUseLimit(row) ==> s == "Ilimitado"
    ensures HasUseLimit(row) ==> ParseInt(s) == Some(row.maxUses.value)
  {
    if HasUseLimit(row) then
      ParseIntOfIntToString(row.maxUses.value);
      IntToString(row.maxUses.value)
    else "Ilimitado"
  }
}
