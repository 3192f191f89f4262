/**
 * The cart page (app/carrito/page.tsx): the order summary and the quantity
 * controls, which hand their new quantity to the cart store's `updateQuantity`.
 */
module CartPage {
  import opened Text
  import opened Cart
  import Checkout

  /** What the page shows: the empty-cart card, or the lines with a summary. */
  datatype View =
    | EmptyCart
    | Summary(subtotal: real, shipping: real, total: real, freeShippingHint: Option<real>)

  /**
   * The summary: shipping as at checkout, a total with no tax and no discount, and a hint
   * with the amount missing for free shipping when the subtotal is under 50.
   */
  function CartView(items: seq<CartItem>): (v: View)
    ensures v.EmptyCart? <==> items == []
    ensures v.Summary? ==> v.subtotal == Total(items) && v.total == v.subtotal + v.shipping
    ensures v.Summary? ==> (v.shipping == 0.0 <==> v.subtotal > 50.0) && (v.shipping == 0.0 || v.shipping == 5.0)
    ensures v.Summary? ==> (v.freeShippingHint.Some? <==> v.subtotal < 50.0)
    ensures v.Summary? && v.freeShippingHint.Some? ==> v.freeShippingHint.value == 50.0 - v.subtotal > 0.0
  {
    if |items| == 0 then EmptyCart
    else
      var subtotal := Total(items);
      var shipping := Checkout.Shipping(subtotal);
      Summary(subtotal, shipping, subtotal + shipping, if subtotal < 50.0 then Some(50.0 - subtotal) else None)
  }

  /** At a subtotal of exactly 50 shipping is charged, yet no hint says how to avoid it. */
  lemma FiftyChargedWithoutHint(items: seq<CartItem>)
    requires items != [] && Total(items) == 50.0
    ensures var v := CartView(items);
            v.shipping == 5.0 && v.freeShippingHint.None? && v.total == 55.0
  {
  }

  /** The quantity typed into a line's box: `Number.parseInt(text) || 1`, so unparseable text or 0 becomes 1. */
  function TypedQuantity(text: string): (q: int)
    ensures q != 0
    ensures ParseInt(text).None? || ParseInt(text) == Some(0) ==> q == 1
    ensures ParseInt(text).Some? && ParseInt(text).value != 0 ==> q == ParseInt(text).value
  {
    var parsed := ParseInt(text);
    if parsed.None? || parsed.value == 0 then 1 else parsed.value
  }

  /** A typed non-zero number is taken as it is. */
  lemma TypedNumberKept(n: int)
    requires n != 0
    ensures TypedQuantity(IntToString(n)) == n
  {
    ParseIntOfIntToString(n);
  }

  /** Typing a negative number removes the product from the cart; anything else sets a positive quantity. */
  lemma TypedQuantityEffect(items: seq<CartItem>, productId: string, text: string)
    ensures TypedQuantity(text) < 0 ==> UpdateLines(items, productId, TypedQuantity(text)) == RemoveProduct(items, productId)
    ensures TypedQuantity(text) > 0 ==> UpdateLines(items, productId, TypedQuantity(text)) == SetQuantity(items, productId, TypedQuantity(text))
  {
  }

  /** The minus button sends `quantity - 1`, so pressing it on a line of one removes the product. */
  lemma MinusOnLastUnitRemoves(items: seq<CartItem>, i: nat)
    requires i < |items| && items[i].quantity == 1
    ensures UpdateLines(items, items[i].product.id, items[i].quantity - 1) == RemoveProduct(items, items[i].product.id)
    ensures items[i] !in UpdateLines(items, items[i].product.id, items[i].quantity - 1)
  {
  }
}
