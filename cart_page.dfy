/** The cart page: the shipping rule, the displayed total, the
    free-shipping hint, the empty-cart branch and the +/−/remove buttons.
    Amounts are integer cents, so 30 € is 3000 and 4.99 € is 499. */
module CartPage {
  import opened Wrappers
  import opened CartContext

  const FreeShippingAbove := 3000
  const ShippingFee := 499

  /** `totalPrice > 30 ? 0 : 4.99`: free only strictly above 30 €. */
  function Shipping(subtotal: int): (fee: int)
    ensures fee == 0 <==> subtotal > FreeShippingAbove
    ensures fee == 0 || fee == ShippingFee
  {
    if subtotal > FreeShippingAbove then 0 else ShippingFee
  }

  function Total(subtotal: int): int {
    subtotal + Shipping(subtotal)
  }

  /** The "plus que X € pour la livraison gratuite" hint, shown only
      strictly below 30 €. */
  function FreeShippingGap(subtotal: int): (gap: Option<int>)
    ensures gap.Some? <==> subtotal < FreeShippingAbove
    ensures gap.Some? ==> gap.value > 0 && subtotal + gap.value == FreeShippingAbove
  {
    if subtotal < FreeShippingAbove then Some(FreeShippingAbove - subtotal) else None
  }

  /** The order summary card of a non-empty cart. */
  datatype Summary = Summary(lines: nat, subtotal: int, shipping: int, total: int, gap: Option<int>)

  datatype CartView = EmptyCartView | SummaryView(summary: Summary)

  function Render(items: seq<CartItem>): (v: CartView)
    ensures v.EmptyCartView? <==> items == []
    ensures v.SummaryView? ==>
      && v.summary.lines == |items|
      && v.summary.subtotal == TotalPrice(items)
      && v.summary.total == v.summary.subtotal + v.summary.shipping
      && v.summary.shipping == Shipping(v.summary.subtotal)
      && v.summary.gap == FreeShippingGap(v.summary.subtotal)
  {
    if |items| == 0 then EmptyCartView
    else
      var subtotal := TotalPrice(items);
      SummaryView(Summary(|items|, subtotal, Shipping(subtotal), Total(subtotal), FreeShippingGap(subtotal)))
  }

  /** Below 30 € the hint shows; strictly above, shipping is free; at
      exactly 30 € neither happens. */
  lemma {:induction false} ThresholdBehaviour(subtotal: int)
    ensures subtotal < FreeShippingAbove ==> FreeShippingGap(subtotal).Some? && Shipping(subtotal) == ShippingFee
    ensures subtotal > FreeShippingAbove ==> FreeShippingGap(subtotal).None? && Shipping(subtotal) == 0
    ensures subtotal == FreeShippingAbove ==> FreeShippingGap(subtotal).None? && Shipping(subtotal) == ShippingFee
    ensures Total(subtotal) >= subtotal
  {
  }

  /** The minus button: `updateQuantity(id, quantity - 1, variant)`. */
  function MinusClick(items: seq<CartItem>, item: CartItem): seq<CartItem> {
    UpdateItems(items, item.id, item.quantity - 1, item.variant)
  }

  /** The plus button: `updateQuantity(id, quantity + 1, variant)`. */
  function PlusClick(items: seq<CartItem>, item: CartItem): seq<CartItem> {
    UpdateItems(items, item.id, item.quantity + 1, item.variant)
  }

  /** The bin button: `removeFromCart(id, variant)`. */
  function TrashClick(items: seq<CartItem>, item: CartItem): seq<CartItem> {
    RemoveItems(items, item.id, item.variant)
  }

  /** Minus on a line at quantity 1 removes the line; above 1 it lowers
      the quantity by one and touches nothing else. */
  lemma {:induction false} MinusButton(items: seq<CartItem>, k: nat)
    requires UniqueKeys(items) && k < |items|
    ensures items[k].quantity <= 1 ==> MinusClick(items, items[k]) == items[..k] + items[k + 1..]
    ensures items[k].quantity > 1 ==>
      MinusClick(items, items[k]) == items[k := items[k].(quantity := items[k].quantity - 1)]
    ensures TotalItems(MinusClick(items, items[k])) ==
      if items[k].quantity <= 1 then TotalItems(items) - items[k].quantity else TotalItems(items) - 1
  {
    if items[k].quantity <= 1 {
      RemoveAt(items, k);
      RemoveTotals(items, k);
    } else {
      UpdatePositive(items, k, items[k].quantity - 1);
      TotalsUpdateAt(items, k, items[k].quantity - 1);
    }
  }

  /** Plus on a line of positive quantity raises only that line by one. */
  lemma {:induction false} PlusButton(items: seq<CartItem>, k: nat)
    requires UniqueKeys(items) && k < |items| && items[k].quantity >= 0
    ensures PlusClick(items, items[k]) == items[k := items[k].(quantity := items[k].quantity + 1)]
    ensures TotalItems(PlusClick(items, items[k])) == TotalItems(items) + 1
    ensures TotalPrice(PlusClick(items, items[k])) == TotalPrice(items) + items[k].price
  {
    UpdatePositive(items, k, items[k].quantity + 1);
    TotalsUpdateAt(items, k, items[k].quantity + 1);
  }

  /** The bin button drops exactly the line it belongs to. */
  lemma {:induction false} TrashButton(items: seq<CartItem>, k: nat)
    requires UniqueKeys(items) && k < |items|
    ensures TrashClick(items, items[k]) == items[..k] + items[k + 1..]
    ensures |TrashClick(items, items[k])| == |items| - 1
  {
    RemoveAt(items, k);
  }
}
