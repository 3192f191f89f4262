/**
 * The shopping cart store (src/lib/store/cart.ts): one list of lines, replaced
 * wholesale by each action. A line is keyed by product id and selected flavour.
 */
module Cart {
  import opened Text
  import opened Catalog

  datatype CartItem = CartItem(product: Product, quantity: int, selectedFlavor: Option<string>)

  predicate SameLine(item: CartItem, productId: string, flavor: Option<string>)
  {
    item.product.id == productId && item.selectedFlavor == flavor
  }

  /** Whether some line has this product id and flavour (the `find` of addItem). */
  predicate HasLine(items: seq<CartItem>, productId: string, flavor: Option<string>)
  {
    exists i :: 0 <= i < |items| && SameLine(items[i], productId, flavor)
  }

  /** No two lines share a (product id, flavour) key. */
  predicate LinesDistinct(items: seq<CartItem>)
  {
    forall i, j :: 0 <= i < j < |items| ==>
      !SameLine(items[j], items[i].product.id, items[i].selectedFlavor)
  }

  /** The `map` of addItem's merge branch: matching lines get `quantity` more, the rest are kept. */
  function MergeQuantity(items: seq<CartItem>, productId: string, flavor: Option<string>, quantity: int): (r: seq<CartItem>)
    ensures |r| == |items|
    ensures forall i :: 0 <= i < |items| ==>
              if SameLine(items[i], productId, flavor)
              then r[i] == items[i].(quantity := items[i].quantity + quantity)
              else r[i] == items[i]
  {
    if items == [] then []
    else
      var head := if SameLine(items[0], productId, flavor)
                  then items[0].(quantity := items[0].quantity + quantity) else items[0];
      [head] + MergeQuantity(items[1..], productId, flavor, quantity)
  }

  /** `addItem(product, quantity, flavor)`: merge into an existing line, or append a new one. */
  function AddLine(items: seq<CartItem>, product: Product, quantity: int, flavor: Option<string>): seq<CartItem>
  {
    if HasLine(items, product.id, flavor) then MergeQuantity(items, product.id, flavor, quantity)
    else items + [CartItem(product, quantity, flavor)]
  }

  /** `removeItem(productId)`: every line of that product goes, whatever its flavour; the rest keep their order. */
  function RemoveProduct(items: seq<CartItem>, productId: string): (r: seq<CartItem>)
    ensures |r| <= |items|
    ensures forall it :: it in r <==> it in items && it.product.id != productId
  {
    if items == [] then []
    else if items[0].product.id != productId then [items[0]] + RemoveProduct(items[1..], productId)
    else RemoveProduct(items[1..], productId)
  }

  /** The `map` of updateQuantity for a positive quantity: every line of that product gets it. */
  function SetQuantity(items: seq<CartItem>, productId: string, quantity: int): (r: seq<CartItem>)
    ensures |r| == |items|
    ensures forall i :: 0 <= i < |items| ==>
              if items[i].product.id == productId
              then r[i] == items[i].(quantity := quantity)
              else r[i] == items[i]
  {
    if items == [] then []
    else
      var head := if items[0].product.id == productId then items[0].(quantity := quantity) else items[0];
      [head] + SetQuantity(items[1..], productId, quantity)
  }

  /** `updateQuantity(productId, quantity)`: a quantity of zero or less removes the product. */
  function UpdateLines(items: seq<CartItem>, productId: string, quantity: int): seq<CartItem>
  {
    if quantity <= 0 then RemoveProduct(items, productId) else SetQuantity(items, productId, quantity)
  }

  /** `getTotal`: the sum of price times quantity over the lines. */
  function Total(items: seq<CartItem>): real
  {
    if items == [] then 0.0
    else items[0].product.price * items[0].quantity as real + Total(items[1..])
  }

  /** `getItemCount`: the sum of the quantities. */
  function ItemCount(items: seq<CartItem>): int
  {
    if items == [] then 0 else items[0].quantity + ItemCount(items[1..])
  }

  /** Lines with non-negative prices and quantities total no less than zero. */
  lemma {:induction false} TotalNonNegative(items: seq<CartItem>)
    requires forall i :: 0 <= i < |items| ==> items[i].product.price >= 0.0 && items[i].quantity >= 0
    ensures Total(items) >= 0.0
  {
    if items != [] {
      TotalNonNegative(items[1..]);
      var it := items[0];
      assert it.product.price * it.quantity as real >= 0.0;
    }
  }

  /** Every line holds at least one unit when its quantity is positive, so the count is at least the number of lines. */
  lemma {:induction false} ItemCountAtLeastLines(items: seq<CartItem>)
    requires forall i :: 0 <= i < |items| ==> items[i].quantity >= 1
    ensures ItemCount(items) >= |items|
  {
    if items != [] {
      ItemCountAtLeastLines(items[1..]);
    }
  }

  lemma {:induction false} TotalsAppend(a: seq<CartItem>, b: seq<CartItem>)
    ensures Total(a + b) == Total(a) + Total(b)
    ensures ItemCount(a + b) == ItemCount(a) + ItemCount(b)
  {
    if a != [] {
      assert (a + b)[1..] == a[1..] + b;
      TotalsAppend(a[1..], b);
    } else {
      assert a + b == b;
    }
  }

  /** The product price the stored line for the key carries (the first matching line), or `product`'s own when there is none. */
  function StoredPrice(items: seq<CartItem>, product: Product, flavor: Option<string>): real
  {
    if items == [] then product.price
    else if SameLine(items[0], product.id, flavor) then items[0].product.price
    else StoredPrice(items[1..], product, flavor)
  }

  /**
   * Merging into a cart whose lines are distinct adds `quantity` to the item count and
   * the stored line's price times `quantity` to the total: the merged line keeps the
   * product snapshot taken when it was first added.
   */
  lemma {:induction false} MergeTotals(items: seq<CartItem>, product: Product, quantity: int, flavor: Option<string>)
    requires LinesDistinct(items) && HasLine(items, product.id, flavor)
    ensures var r := MergeQuantity(items, product.id, flavor, quantity);
            ItemCount(r) == ItemCount(items) + quantity
            && Total(r) == Total(items) + StoredPrice(items, product, flavor) * quantity as real
  {
    var r := MergeQuantity(items, product.id, flavor, quantity);
    var rest := items[1..];
    assert r[1..] == MergeQuantity(rest, product.id, flavor, quantity);
    if SameLine(items[0], product.id, flavor) {
      assert !HasLine(rest, product.id, flavor) by {
        forall i | 0 <= i < |rest|
          ensures !SameLine(rest[i], product.id, flavor)
        {
          assert rest[i] == items[i + 1];
        }
      }
      MergeWithoutLine(rest, product.id, flavor, quantity);
    } else {
      assert LinesDistinct(rest) by {
        forall i, j | 0 <= i < j < |rest|
          ensures !SameLine(rest[j], rest[i].product.id, rest[i].selectedFlavor)
        {
          assert rest[i] == items[i + 1] && rest[j] == items[j + 1];
        }
      }
      assert HasLine(rest, product.id, flavor) by {
        var k :| 0 <= k < |items| && SameLine(items[k], product.id, flavor);
        assert rest[k - 1] == items[k];
      }
      MergeTotals(rest, product, quantity, flavor);
    }
  }

  lemma MergeWithoutLine(items: seq<CartItem>, productId: string, flavor: Option<string>, quantity: int)
    requires !HasLine(items, productId, flavor)
    ensures MergeQuantity(items, productId, flavor, quantity) == items
  {
  }

  /** addItem adds `quantity` to the item count, and `quantity` times the stored (or, for a new line, the given) price to the total. */
  lemma AddLineTotals(items: seq<CartItem>, product: Product, quantity: int, flavor: Option<string>)
    requires LinesDistinct(items)
    ensures var r := AddLine(items, product, quantity, flavor);
            ItemCount(r) == ItemCount(items) + quantity
            && Total(r) == Total(items) + StoredPrice(items, product, flavor) * quantity as real
  {
    if HasLine(items, product.id, flavor) {
      MergeTotals(items, product, quantity, flavor);
    } else {
      var line := CartItem(product, quantity, flavor);
      TotalsAppend(items, [line]);
      assert Total([line]) == product.price * quantity as real;
      NoLineStoredPrice(items, product, flavor);
    }
  }

  lemma {:induction false} NoLineStoredPrice(items: seq<CartItem>, product: Product, flavor: Option<string>)
    requires !HasLine(items, product.id, flavor)
    ensures StoredPrice(items, product, flavor) == product.price
  {
    if items != [] {
      assert !HasLine(items[1..], product.id, flavor) by {
        forall i | 0 <= i < |items| - 1
          ensures !SameLine(items[1..][i], product.id, flavor)
        {
          assert items[1..][i] == items[i + 1];
        }
      }
      NoLineStoredPrice(items[1..], product, flavor);
    }
  }

  /** addItem keeps the lines keyed uniquely. */
  lemma AddLineKeepsDistinct(items: seq<CartItem>, product: Product, quantity: int, flavor: Option<string>)
    ensures LinesDistinct(items) ==> LinesDistinct(AddLine(items, product, quantity, flavor))
  {
    var r := AddLine(items, product, quantity, flavor);
    if LinesDistinct(items) && !HasLine(items, product.id, flavor) {
      forall i, j | 0 <= i < j < |r|
        ensures !SameLine(r[j], r[i].product.id, r[i].selectedFlavor)
      {
        if j == |items| {
          assert !SameLine(items[i], product.id, flavor);
        }
      }
    }
  }

  /** The lines after the first of a uniquely keyed list are uniquely keyed, and none shares the first's key. */
  lemma DistinctTail(items: seq<CartItem>)
    requires items != [] && LinesDistinct(items)
    ensures LinesDistinct(items[1..])
    ensures forall it :: it in items[1..] ==> !SameLine(it, items[0].product.id, items[0].selectedFlavor)
  {
    var rest := items[1..];
    forall i, j | 0 <= i < j < |rest|
      ensures !SameLine(rest[j], rest[i].product.id, rest[i].selectedFlavor)
    {
      assert rest[i] == items[i + 1] && rest[j] == items[j + 1];
    }
    forall it | it in rest
      ensures !SameLine(it, items[0].product.id, items[0].selectedFlavor)
    {
      var k :| 0 <= k < |rest| && rest[k] == it;
      assert items[k + 1] == it;
    }
  }

  /** A line in front of uniquely keyed lines that share none of its key keeps them uniquely keyed. */
  lemma DistinctCons(head: CartItem, tail: seq<CartItem>)
    requires LinesDistinct(tail)
    requires forall it :: it in tail ==> !SameLine(it, head.product.id, head.selectedFlavor)
    ensures LinesDistinct([head] + tail)
  {
    var r := [head] + tail;
    forall i, j | 0 <= i < j < |r|
      ensures !SameLine(r[j], r[i].product.id, r[i].selectedFlavor)
    {
      if i == 0 {
        assert r[j] == tail[j - 1] && r[j] in tail;
      } else {
        assert r[i] == tail[i - 1] && r[j] == tail[j - 1];
      }
    }
  }

  /** removeItem keeps the lines keyed uniquely: it only drops lines. */
  lemma {:induction false} RemoveProductKeepsDistinct(items: seq<CartItem>, productId: string)
    requires LinesDistinct(items)
    ensures LinesDistinct(RemoveProduct(items, productId))
  {
    if items != [] {
      DistinctTail(items);
      RemoveProductKeepsDistinct(items[1..], productId);
      if items[0].product.id != productId {
        DistinctCons(items[0], RemoveProduct(items[1..], productId));
      }
    }
  }

  /** updateQuantity with a positive quantity keeps the lines keyed uniquely: keys are untouched. */
  lemma SetQuantityKeepsDistinct(items: seq<CartItem>, productId: string, quantity: int)
    requires LinesDistinct(items)
    ensures LinesDistinct(SetQuantity(items, productId, quantity))
  {
  }

  /** removeItem keeps the relative order: it distributes over concatenation. */
  lemma {:induction false} RemoveProductAppend(a: seq<CartItem>, b: seq<CartItem>, productId: string)
    ensures RemoveProduct(a + b, productId) == RemoveProduct(a, productId) + RemoveProduct(b, productId)
  {
    if a != [] {
      assert (a + b)[1..] == a[1..] + b;
      RemoveProductAppend(a[1..], b, productId);
    } else {
      assert a + b == b;
    }
  }

  /** removeItem of a product the cart does not hold changes nothing. */
  lemma {:induction false} RemoveAbsentProduct(items: seq<CartItem>, productId: string)
    requires forall i :: 0 <= i < |items| ==> items[i].product.id != productId
    ensures RemoveProduct(items, productId) == items
  {
    if items != [] {
      RemoveAbsentProduct(items[1..], productId);
    }
  }

  /** The emptied cart totals zero. */
  lemma ClearedTotals()
    ensures Total([]) == 0.0 && ItemCount([]) == 0
  {
  }

  class CartStore {
    var items: seq<CartItem>

    constructor()
      ensures items == []
    {
      items := [];
    }

    /** `addItem(product, quantity = 1, flavor)`. */
    method AddItem(product: Product, quantity: Option<int>, flavor: Option<string>)
      modifies this
      ensures var q := if quantity.Some? then quantity.value else 1;
              items == AddLine(old(items), product, q, flavor)
      ensures LinesDistinct(old(items)) ==> LinesDistinct(items)
    {
      var q := if quantity.Some? then quantity.value else 1;
      AddLineKeepsDistinct(items, product, q, flavor);
      items := AddLine(items, product, q, flavor);
    }

    method RemoveItem(productId: string)
      modifies this
      ensures items == RemoveProduct(old(items), productId)
      ensures forall it :: it in items ==> it.product.id != productId
      ensures LinesDistinct(old(items)) ==> LinesDistinct(items)
    {
      if LinesDistinct(items) {
        RemoveProductKeepsDistinct(items, productId);
      }
      items := RemoveProduct(items, productId);
    }

    method UpdateQuantity(productId: string, quantity: int)
      modifies this
      ensures items == UpdateLines(old(items), productId, quantity)
      ensures LinesDistinct(old(items)) ==> LinesDistinct(items)
    {
      if quantity <= 0 {
        RemoveItem(productId);
        return;
      }
      items := SetQuantity(items, productId, quantity);
    }

    method ClearCart()
      modifies this
      ensures items == [] && Total(items) == 0.0 && ItemCount(items) == 0
    {
      items := [];
    }

    function GetTotal(): real
      reads this
    {
      Total(items)
    }

    function GetItemCount(): int
      reads this
    {
      ItemCount(items)
    }
  }
}
