/** The cart context: an ordered list of cart lines keyed by the pair
    (product id, variant), with add, remove, update and clear, and the two
    derived totals. Prices are integer cents. */
module CartContext {
  import opened Wrappers

  /** One cart line. `variant` is None when the caller passed no variant. */
  datatype CartItem = CartItem(
    id: string, name: string, price: int, quantity: int,
    image: string, dose: string, variant: Option<string>)

  /** The argument of `addToCart`: a cart line whose quantity may be absent. */
  datatype AddRequest = AddRequest(
    id: string, name: string, price: int, image: string,
    dose: string, variant: Option<string>, quantity: Option<int>)

  predicate SameKey(item: CartItem, id: string, variant: Option<string>) {
    item.id == id && item.variant == variant
  }

  predicate HasKey(items: seq<CartItem>, id: string, variant: Option<string>) {
    exists i :: 0 <= i < |items| && SameKey(items[i], id, variant)
  }

  /** The pair a cart line is keyed by. */
  function Key(item: CartItem): (string, Option<string>) {
    (item.id, item.variant)
  }

  /** No two lines share an (id, variant) pair. */
  predicate UniqueKeys(items: seq<CartItem>) {
    forall i, j :: 0 <= i < j < |items| ==> Key(items[i]) != Key(items[j])
  }

  predicate PositiveQuantities(items: seq<CartItem>) {
    forall i :: 0 <= i < |items| ==> items[i].quantity >= 1
  }

  /** `item.quantity || 1`: an absent or zero quantity counts as one. */
  function EffectiveQuantity(q: Option<int>): int {
    if q.None? || q.value == 0 then 1 else q.value
  }

  /** The quantity `addToCart` must be given for positivity to be kept. */
  predicate AcceptableQuantity(q: Option<int>) {
    q.None? || q.value >= 0
  }

  function NewItem(req: AddRequest): CartItem {
    CartItem(req.id, req.name, req.price, EffectiveQuantity(req.quantity),
             req.image, req.dose, req.variant)
  }

  /** The `map` in `addToCart`: every matching line grows by `delta`. */
  function IncreaseQuantity(items: seq<CartItem>, id: string, variant: Option<string>, delta: int): (r: seq<CartItem>)
    ensures |r| == |items|
    ensures forall i :: 0 <= i < |items| ==>
      r[i] == if SameKey(items[i], id, variant)
              then items[i].(quantity := items[i].quantity + delta) else items[i]
  {
    if items == [] then []
    else
      var head := if SameKey(items[0], id, variant)
                  then items[0].(quantity := items[0].quantity + delta) else items[0];
      [head] + IncreaseQuantity(items[1..], id, variant, delta)
  }

  /** The `map` in `updateQuantity`: every matching line gets quantity `q`. */
  function SetQuantity(items: seq<CartItem>, id: string, variant: Option<string>, q: int): (r: seq<CartItem>)
    ensures |r| == |items|
    ensures forall i :: 0 <= i < |items| ==>
      r[i] == if SameKey(items[i], id, variant) then items[i].(quantity := q) else items[i]
  {
    if items == [] then []
    else
      var head := if SameKey(items[0], id, variant) then items[0].(quantity := q) else items[0];
      [head] + SetQuantity(items[1..], id, variant, q)
  }

  /** `addToCart`: merge into the line with the same key, or append. */
  function AddItem(items: seq<CartItem>, req: AddRequest): (r: seq<CartItem>)
    ensures HasKey(r, req.id, req.variant)
    ensures |r| == if HasKey(items, req.id, req.variant) then |items| else |items| + 1
    ensures items == r[..|items|] || HasKey(items, req.id, req.variant)
  {
    if HasKey(items, req.id, req.variant)
    then IncreaseQuantity(items, req.id, req.variant, EffectiveQuantity(req.quantity))
    else
      var r := items + [NewItem(req)];
      assert SameKey(r[|items|], req.id, req.variant);
      r
  }

  /** `removeFromCart`: keep, in order, the lines whose key differs. */
  function RemoveItems(items: seq<CartItem>, id: string, variant: Option<string>): (r: seq<CartItem>)
    ensures |r| <= |items|
    ensures !HasKey(r, id, variant)
    ensures forall x :: x in r ==> x in items
    ensures forall x :: x in items && !SameKey(x, id, variant) ==> x in r
    ensures !HasKey(items, id, variant) ==> r == items
  {
    if items == [] then []
    else
      var rest := RemoveItems(items[1..], id, variant);
      if SameKey(items[0], id, variant) then rest else [items[0]] + rest
  }

  /** `updateQuantity`: a quantity of 0 or less removes the line. */
  function UpdateItems(items: seq<CartItem>, id: string, q: int, variant: Option<string>): (r: seq<CartItem>)
    ensures |r| <= |items|
    ensures q <= 0 ==> !HasKey(r, id, variant)
    ensures q > 0 ==> |r| == |items|
    ensures forall k :: 0 <= k < |r| && SameKey(r[k], id, variant) ==> r[k].quantity == q
  {
    if q <= 0 then RemoveItems(items, id, variant) else SetQuantity(items, id, variant, q)
  }

  /** `totalItems`: the sum of the quantities. */
  function TotalItems(items: seq<CartItem>): int
  {
    if items == [] then 0 else items[0].quantity + TotalItems(items[1..])
  }

  /** `totalPrice`: the sum of price times quantity, in cents. */
  function TotalPrice(items: seq<CartItem>): int
  {
    if items == [] then 0 else items[0].price * items[0].quantity + TotalPrice(items[1..])
  }

  // ---------------------------------------------------------------------
  // Properties of the reducer

  /** Adding an existing key changes only that line's quantity, by
      `quantity || 1`; length and order stay the same. */
  lemma {:induction false} AddExisting(items: seq<CartItem>, req: AddRequest, k: nat)
    requires UniqueKeys(items)
    requires k < |items| && SameKey(items[k], req.id, req.variant)
    ensures AddItem(items, req) ==
      items[k := items[k].(quantity := items[k].quantity + EffectiveQuantity(req.quantity))]
  {
    assert HasKey(items, req.id, req.variant);
    var r := AddItem(items, req);
    forall j | 0 <= j < |items| && j != k
      ensures r[j] == items[j]
    {
      assert !SameKey(items[j], req.id, req.variant) by {
        if j < k { } else { }
      }
    }
  }

  /** Adding a new key appends exactly one line at the end. */
  lemma {:induction false} AddNew(items: seq<CartItem>, req: AddRequest)
    requires !HasKey(items, req.id, req.variant)
    ensures AddItem(items, req) == items + [NewItem(req)]
    ensures AddItem(items, req)[|items|].quantity == EffectiveQuantity(req.quantity)
  {
  }

  lemma {:induction false} AddKeepsUniqueKeys(items: seq<CartItem>, req: AddRequest)
    requires UniqueKeys(items)
    ensures UniqueKeys(AddItem(items, req))
  {
    var r := AddItem(items, req);
    if HasKey(items, req.id, req.variant) {
      forall i, j | 0 <= i < j < |r|
        ensures !(r[i].id == r[j].id && r[i].variant == r[j].variant)
      {
        assert r[i].id == items[i].id && r[i].variant == items[i].variant;
        assert r[j].id == items[j].id && r[j].variant == items[j].variant;
      }
    } else {
      forall i, j | 0 <= i < j < |r|
        ensures !(r[i].id == r[j].id && r[i].variant == r[j].variant)
      {
        if j == |items| {
          assert !SameKey(items[i], req.id, req.variant);
        }
      }
    }
  }

  /** Removing keeps a subsequence, so keys stay unique. */
  lemma {:induction false} RemoveKeepsUniqueKeys(items: seq<CartItem>, id: string, variant: Option<string>)
    requires UniqueKeys(items)
    ensures UniqueKeys(RemoveItems(items, id, variant))
  {
    if items != [] {
      RemoveKeepsUniqueKeys(items[1..], id, variant);
      var rest := RemoveItems(items[1..], id, variant);
      if !SameKey(items[0], id, variant) {
        var r := [items[0]] + rest;
        forall j | 1 <= j < |r|
          ensures !(r[0].id == r[j].id && r[0].variant == r[j].variant)
        {
          assert r[j] in items[1..];
          var m :| 0 <= m < |items[1..]| && items[1..][m] == r[j];
          assert items[m + 1] == r[j];
        }
      }
    }
  }

  lemma {:induction false} UpdateKeepsUniqueKeys(items: seq<CartItem>, id: string, q: int, variant: Option<string>)
    requires UniqueKeys(items)
    ensures UniqueKeys(UpdateItems(items, id, q, variant))
  {
    if q <= 0 {
      RemoveKeepsUniqueKeys(items, id, variant);
    } else {
      var r := UpdateItems(items, id, q, variant);
      forall i, j | 0 <= i < j < |r|
        ensures !(r[i].id == r[j].id && r[i].variant == r[j].variant)
      {
        assert r[i].id == items[i].id && r[i].variant == items[i].variant;
        assert r[j].id == items[j].id && r[j].variant == items[j].variant;
      }
    }
  }

  /** With unique keys, removing a present key drops exactly that line. */
  lemma {:induction false} RemoveAt(items: seq<CartItem>, k: nat)
    requires UniqueKeys(items)
    requires k < |items|
    ensures RemoveItems(items, items[k].id, items[k].variant) == items[..k] + items[k + 1..]
  {
    var id, variant := items[k].id, items[k].variant;
    if k == 0 {
      assert forall j :: 0 <= j < |items[1..]| ==> !SameKey(items[1..][j], id, variant) by {
        forall j | 0 <= j < |items[1..]| ensures !SameKey(items[1..][j], id, variant) {
          assert items[1..][j] == items[j + 1];
        }
      }
      assert !HasKey(items[1..], id, variant);
    } else {
      assert !SameKey(items[0], id, variant);
      assert items[1..][k - 1] == items[k];
      RemoveAt(items[1..], k - 1);
      assert items[..k] == [items[0]] + items[1..][..k - 1];
      assert items[k + 1..] == items[1..][k..];
    }
  }

  /** Updating to a positive quantity sets only the matching line. */
  lemma {:induction false} UpdatePositive(items: seq<CartItem>, k: nat, q: int)
    requires UniqueKeys(items)
    requires k < |items| && q > 0
    ensures UpdateItems(items, items[k].id, q, items[k].variant) == items[k := items[k].(quantity := q)]
  {
    var r := UpdateItems(items, items[k].id, q, items[k].variant);
    forall j | 0 <= j < |items| && j != k
      ensures r[j] == items[j]
    {
      assert !SameKey(items[j], items[k].id, items[k].variant) by {
        if j < k { } else { }
      }
    }
  }

  lemma {:induction false} AddKeepsPositive(items: seq<CartItem>, req: AddRequest)
    requires PositiveQuantities(items) && AcceptableQuantity(req.quantity)
    ensures PositiveQuantities(AddItem(items, req))
  {
  }

  lemma {:induction false} UpdateKeepsPositive(items: seq<CartItem>, id: string, q: int, variant: Option<string>)
    requires PositiveQuantities(items)
    ensures PositiveQuantities(UpdateItems(items, id, q, variant))
  {
  }

  lemma {:induction false} TotalsAppend(a: seq<CartItem>, b: seq<CartItem>)
    ensures TotalItems(a + b) == TotalItems(a) + TotalItems(b)
    ensures TotalPrice(a + b) == TotalPrice(a) + TotalPrice(b)
  {
    if a == [] {
      assert a + b == b;
    } else {
      assert (a + b)[1..] == a[1..] + b;
      TotalsAppend(a[1..], b);
    }
  }

  lemma {:induction false} TotalsUpdateAt(items: seq<CartItem>, k: nat, q: int)
    requires k < |items|
    ensures TotalItems(items[k := items[k].(quantity := q)]) == TotalItems(items) - items[k].quantity + q
    ensures TotalPrice(items[k := items[k].(quantity := q)]) == TotalPrice(items) - items[k].price * items[k].quantity + items[k].price * q
  {
    if k > 0 {
      assert items[k := items[k].(quantity := q)][1..] == items[1..][k - 1 := items[k].(quantity := q)];
      TotalsUpdateAt(items[1..], k - 1, q);
    } else {
      assert items[k := items[k].(quantity := q)][1..] == items[1..];
    }
  }

  /** Adding grows `totalItems` by `quantity || 1`. */
  lemma {:induction false} AddTotalItems(items: seq<CartItem>, req: AddRequest)
    requires UniqueKeys(items)
    ensures TotalItems(AddItem(items, req)) == TotalItems(items) + EffectiveQuantity(req.quantity)
  {
    if HasKey(items, req.id, req.variant) {
      var k :| 0 <= k < |items| && SameKey(items[k], req.id, req.variant);
      AddExistingTotals(items, req, k);
    } else {
      AddNewTotals(items, req);
    }
  }

  /** Merging into a present line adds `quantity || 1` units at the price
      already in the cart; the request's own price is ignored. */
  lemma {:induction false} AddExistingTotals(items: seq<CartItem>, req: AddRequest, k: nat)
    requires UniqueKeys(items)
    requires k < |items| && SameKey(items[k], req.id, req.variant)
    ensures TotalItems(AddItem(items, req)) == TotalItems(items) + EffectiveQuantity(req.quantity)
    ensures TotalPrice(AddItem(items, req)) == TotalPrice(items) + items[k].price * EffectiveQuantity(req.quantity)
  {
    AddExisting(items, req, k);
    MergedTotals(items, req, k);
  }

  lemma {:induction false} MergedTotals(items: seq<CartItem>, req: AddRequest, k: nat)
    requires k < |items|
    requires AddItem(items, req) ==
      items[k := items[k].(quantity := items[k].quantity + EffectiveQuantity(req.quantity))]
    ensures TotalItems(AddItem(items, req)) == TotalItems(items) + EffectiveQuantity(req.quantity)
    ensures TotalPrice(AddItem(items, req)) == TotalPrice(items) + items[k].price * EffectiveQuantity(req.quantity)
  {
    TotalsIncreaseAt(items, k, EffectiveQuantity(req.quantity));
  }

  lemma {:induction false} TotalsIncreaseAt(items: seq<CartItem>, k: nat, n: int)
    requires k < |items|
    ensures TotalItems(items[k := items[k].(quantity := items[k].quantity + n)]) == TotalItems(items) + n
    ensures TotalPrice(items[k := items[k].(quantity := items[k].quantity + n)]) == TotalPrice(items) + items[k].price * n
  {
    var price, q := items[k].price, items[k].quantity;
    TotalsUpdateAt(items, k, q + n);
    assert price * (q + n) == price * q + price * n;
  }

  /** Appending a new line adds `quantity || 1` units at the request's price. */
  lemma {:induction false} AddNewTotals(items: seq<CartItem>, req: AddRequest)
    requires !HasKey(items, req.id, req.variant)
    ensures TotalItems(AddItem(items, req)) == TotalItems(items) + EffectiveQuantity(req.quantity)
    ensures TotalPrice(AddItem(items, req)) == TotalPrice(items) + req.price * EffectiveQuantity(req.quantity)
  {
    TotalsAppend(items, [NewItem(req)]);
    assert TotalItems([NewItem(req)]) == EffectiveQuantity(req.quantity);
  }

  /** Removing a present line lowers the totals by exactly that line. */
  lemma {:induction false} RemoveTotals(items: seq<CartItem>, k: nat)
    requires UniqueKeys(items) && k < |items|
    ensures TotalItems(RemoveItems(items, items[k].id, items[k].variant)) == TotalItems(items) - items[k].quantity
    ensures TotalPrice(RemoveItems(items, items[k].id, items[k].variant)) == TotalPrice(items) - items[k].price * items[k].quantity
  {
    RemoveAt(items, k);
    assert items == items[..k] + [items[k]] + items[k + 1..];
    TotalsAppend(items[..k], [items[k]]);
    TotalsAppend(items[..k] + [items[k]], items[k + 1..]);
    TotalsAppend(items[..k], items[k + 1..]);
  }

  /** A non-empty cart of positive lines holds at least one unit per line. */
  lemma {:induction false} TotalItemsAtLeastLines(items: seq<CartItem>)
    requires PositiveQuantities(items)
    ensures TotalItems(items) >= |items|
  {
    if items != [] {
      TotalItemsAtLeastLines(items[1..]);
    }
  }

  /** Lines with non-negative prices and positive quantities never make
      the displayed total negative. */
  lemma {:induction false} TotalPriceNonNegative(items: seq<CartItem>)
    requires PositiveQuantities(items)
    requires forall i :: 0 <= i < |items| ==> items[i].price >= 0
    ensures TotalPrice(items) >= 0
  {
    if items != [] {
      TotalPriceNonNegative(items[1..]);
    }
  }

  // ---------------------------------------------------------------------
  // The context object: `items` is replaced by each operation

  class Cart {
    var items: seq<CartItem>

    ghost predicate Valid()
      reads this
    {
      UniqueKeys(items)
    }

    constructor ()
      ensures Valid() && items == []
    {
      items := [];
    }

    method AddToCart(req: AddRequest)
      requires Valid()
      modifies this
      ensures Valid()
      ensures items == AddItem(old(items), req)
      ensures TotalItems(items) == TotalItems(old(items)) + EffectiveQuantity(req.quantity)
      ensures old(PositiveQuantities(items)) && AcceptableQuantity(req.quantity) ==> PositiveQuantities(items)
    {
      AddKeepsUniqueKeys(items, req);
      AddTotalItems(items, req);
      if PositiveQuantities(items) && AcceptableQuantity(req.quantity) {
        AddKeepsPositive(items, req);
      }
      items := AddItem(items, req);
    }

    method RemoveFromCart(id: string, variant: Option<string>)
      requires Valid()
      modifies this
      ensures Valid()
      ensures items == RemoveItems(old(items), id, variant)
      ensures old(PositiveQuantities(items)) ==> PositiveQuantities(items)
    {
      RemoveKeepsUniqueKeys(items, id, variant);
      items := RemoveItems(items, id, variant);
    }

    method UpdateQuantity(id: string, quantity: int, variant: Option<string>)
      requires Valid()
      modifies this
      ensures Valid()
      ensures items == UpdateItems(old(items), id, quantity, variant)
      ensures quantity <= 0 ==> items == RemoveItems(old(items), id, variant)
      ensures old(PositiveQuantities(items)) ==> PositiveQuantities(items)
    {
      UpdateKeepsUniqueKeys(items, id, quantity, variant);
      if PositiveQuantities(items) {
        UpdateKeepsPositive(items, id, quantity, variant);
      }
      if quantity <= 0 {
        RemoveFromCart(id, variant);
        return;
      }
      items := SetQuantity(items, id, variant, quantity);
    }

    method ClearCart()
      modifies this
      ensures Valid() && items == []
      ensures TotalItems(items) == 0 && TotalPrice(items) == 0
    {
      items := [];
    }
  }
}
