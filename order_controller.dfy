/** `addOrderItems` (build and save an order from the checkout payload)
    and `getMyOrders` (the requester's orders, newest first). Amounts are
    integer cents; the clock is a parameter. */
module OrderController {
  import opened Wrappers

  const PlaceholderImage := "https://via.placeholder.com/150"
  const PaymentMethod := "Stripe"

  /** A cart line as the client posts it. The image may arrive under any of
      three keys and the product id under two; an absent or empty string is
      the empty string, an absent number is `None`. */
  datatype ItemInput = ItemInput(
    name: string, quantity: Option<int>, price: Option<int>,
    image_url: string, image: string, imageUrl: string,
    id: string, product: string)

  datatype AddressInput = AddressInput(street: string, city: string, zipCode: string, country: string)

  datatype OrderBody = OrderBody(
    items: Option<seq<ItemInput>>, shippingAddress: Option<AddressInput>, totalAmount: Option<int>)

  datatype OrderItem = OrderItem(name: string, quantity: Option<int>, image_url: string, price: Option<int>, product: string)

  datatype ShippingAddress = ShippingAddress(street: string, city: string, zip: string, country: string)

  datatype Order = Order(
    user: string, orderItems: seq<OrderItem>, shippingAddress: ShippingAddress,
    paymentMethod: string, itemsPrice: int, shippingPrice: int, totalPrice: int,
    isPaid: bool, paidAt: int, isDelivered: bool, createdAt: int)

  /** The image is the first non-empty of `image_url`, `image`, `imageUrl`,
      then the placeholder; the product is `id`, else `product`. */
  function MapItem(item: ItemInput): (o: OrderItem)
    ensures o.name == item.name && o.quantity == item.quantity && o.price == item.price
    ensures o.image_url != ""
    ensures item.image_url != "" ==> o.image_url == item.image_url
    ensures item.image_url == "" && item.image != "" ==> o.image_url == item.image
    ensures item.image_url == "" && item.image == "" && item.imageUrl != "" ==> o.image_url == item.imageUrl
    ensures item.image_url == "" && item.image == "" && item.imageUrl == "" ==> o.image_url == PlaceholderImage
    ensures o.product == (if item.id != "" then item.id else item.product)
  {
    OrderItem(item.name, item.quantity,
      if item.image_url != "" then item.image_url
      else if item.image != "" then item.image
      else if item.imageUrl != "" then item.imageUrl
      else PlaceholderImage,
      item.price,
      if item.id != "" then item.id else item.product)
  }

  function MapItems(items: seq<ItemInput>): (r: seq<OrderItem>)
    ensures |r| == |items|
    ensures forall i :: 0 <= i < |items| ==> r[i] == MapItem(items[i])
  {
    seq(|items|, i requires 0 <= i < |items| => MapItem(items[i]))
  }

  /** The order as `new Order(...)` builds it. The totals are the client's
      `totalAmount` as given (0, the schema default, when absent); nothing
      is recomputed from the lines. */
  function BuildOrder(user: string, items: seq<ItemInput>, address: AddressInput, totalAmount: Option<int>, now: int): (o: Order)
    ensures o.user == user && o.orderItems == MapItems(items)
    ensures o.shippingAddress.zip == address.zipCode
    ensures o.shippingAddress.street == address.street && o.shippingAddress.city == address.city
    ensures o.shippingAddress.country == address.country
    ensures o.itemsPrice == o.totalPrice == totalAmount.GetOr(0) && o.shippingPrice == 0
    ensures o.isPaid && !o.isDelivered && o.paymentMethod == PaymentMethod && o.paidAt == now
  {
    Order(user, MapItems(items),
      ShippingAddress(address.street, address.city, address.zipCode, address.country),
      PaymentMethod, totalAmount.GetOr(0), 0, totalAmount.GetOr(0), true, now, false, now)
  }

  predicate ValidItem(i: OrderItem, isObjectId: string -> bool) {
    i.name != "" && i.quantity.Some? && i.image_url != "" && i.price.Some? && isObjectId(i.product)
  }

  /** The order schema's required fields. */
  predicate ValidOrder(o: Order, isObjectId: string -> bool) {
    isObjectId(o.user)
    && (forall k :: 0 <= k < |o.orderItems| ==> ValidItem(o.orderItems[k], isObjectId))
    && o.shippingAddress.street != "" && o.shippingAddress.city != ""
    && o.shippingAddress.zip != "" && o.shippingAddress.country != ""
  }

  const NoItemsMessage := "Pas d'articles dans la commande"
  const CreateFailedMessage := "Erreur lors de la création de la commande"

  datatype OrderResponse =
    | NoItems          // 400
    | Created(order: Order)   // 201
    | CreateFailed     // 500: no user, no address, or the order fails validation

  /** `addOrderItems`. The empty-basket check comes first, before the user
      or the address is read. */
  function AddOrderItems(body: OrderBody, user: Option<string>, isObjectId: string -> bool, now: int): (r: OrderResponse)
    ensures (body.items.None? || body.items.value == []) <==> r == NoItems
    ensures r.Created? <==>
      body.items.Some? && body.items.value != [] && user.Some? && body.shippingAddress.Some?
      && ValidOrder(BuildOrder(user.value, body.items.value, body.shippingAddress.value, body.totalAmount, now), isObjectId)
    ensures r.Created? ==> r.order == BuildOrder(user.value, body.items.value, body.shippingAddress.value, body.totalAmount, now)
    ensures r.Created? ==> |r.order.orderItems| == |body.items.value| > 0
  {
    if body.items.None? || body.items.value == [] then NoItems
    else if user.None? || body.shippingAddress.None? then CreateFailed
    else
      var o := BuildOrder(user.value, body.items.value, body.shippingAddress.value, body.totalAmount, now);
      if ValidOrder(o, isObjectId) then Created(o) else CreateFailed
  }

  // ---------------------------------------------------------------------
  // Listing a user's orders

  /** `Order.find({ user })`: the orders of `user`, each as often as it is
      stored and nothing else. */
  function OrdersOf(orders: seq<Order>, user: string): (r: seq<Order>)
    ensures forall k :: 0 <= k < |r| ==> r[k].user == user
    ensures forall o :: multiset(r)[o] == if o.user == user then multiset(orders)[o] else 0
  {
    if orders == [] then []
    else
      var rest := OrdersOf(orders[1..], user);
      assert orders == [orders[0]] + orders[1..];
      assert multiset(orders) == multiset{orders[0]} + multiset(orders[1..]);
      if orders[0].user == user then
        assert multiset([orders[0]] + rest) == multiset{orders[0]} + multiset(rest);
        [orders[0]] + rest
      else rest
  }

  predicate NewestFirst(s: seq<Order>) {
    forall i, j :: 0 <= i < j < |s| ==> s[i].createdAt >= s[j].createdAt
  }

  /** Places `o` before the first order that is strictly older. */
  function Insert(o: Order, s: seq<Order>): (r: seq<Order>)
    ensures multiset(r) == multiset(s) + multiset{o}
    ensures |r| == |s| + 1 && (r[0] == o || (s != [] && r[0] == s[0]))
  {
    if s == [] then [o]
    else if o.createdAt >= s[0].createdAt then [o] + s
    else
      var rest := Insert(o, s[1..]);
      assert s == [s[0]] + s[1..];
      assert multiset([s[0]] + rest) == multiset{s[0]} + multiset(rest);
      [s[0]] + rest
  }

  /** Inserting into a newest-first list keeps it newest first. */
  lemma {:induction false} InsertKeepsNewestFirst(o: Order, s: seq<Order>)
    requires NewestFirst(s)
    ensures NewestFirst(Insert(o, s))
  {
    if s == [] {
    } else if o.createdAt >= s[0].createdAt {
      ConsNewer(o, s);
    } else {
      NewestFirstTail(s);
      InsertKeepsNewestFirst(o, s[1..]);
      ConsNewestFirst(s, o, Insert(o, s[1..]));
    }
  }

  lemma NewestFirstTail(s: seq<Order>)
    requires s != [] && NewestFirst(s)
    ensures NewestFirst(s[1..])
  {
    forall i, j | 0 <= i < j < |s| - 1 ensures s[1..][i].createdAt >= s[1..][j].createdAt {
      assert s[1..][i] == s[i + 1] && s[1..][j] == s[j + 1];
    }
  }

  lemma ConsNewer(o: Order, s: seq<Order>)
    requires s != [] && NewestFirst(s) && o.createdAt >= s[0].createdAt
    ensures NewestFirst([o] + s)
  {
    var r := [o] + s;
    forall i, j | 0 <= i < j < |r| ensures r[i].createdAt >= r[j].createdAt {
      assert r[j] == s[j - 1];
      if i > 0 {
        assert r[i] == s[i - 1];
      }
    }
  }

  /** The step of `Insert` that keeps the head: `s[0]` is at least as new as
      everything `rest` holds. */
  lemma ConsNewestFirst(s: seq<Order>, o: Order, rest: seq<Order>)
    requires s != [] && NewestFirst(s) && NewestFirst(rest) && o.createdAt < s[0].createdAt
    requires |rest| > 0 && (rest[0] == o || (|s| > 1 && rest[0] == s[1]))
    ensures NewestFirst([s[0]] + rest)
  {
    var r := [s[0]] + rest;
    assert s[0].createdAt >= rest[0].createdAt;
    forall i, j | 0 <= i < j < |r| ensures r[i].createdAt >= r[j].createdAt {
      if i == 0 {
        assert rest[0].createdAt >= rest[j - 1].createdAt || j == 1;
      } else {
        assert r[i] == rest[i - 1] && r[j] == rest[j - 1];
      }
    }
  }

  function SortNewestFirst(s: seq<Order>): (r: seq<Order>)
    ensures NewestFirst(r)
    ensures multiset(r) == multiset(s)
  {
    if s == [] then []
    else
      assert s == [s[0]] + s[1..];
      InsertKeepsNewestFirst(s[0], SortNewestFirst(s[1..]));
      Insert(s[0], SortNewestFirst(s[1..]))
  }

  /** What `getMyOrders` answers. */
  datatype MyOrdersResponse =
    | Listed(orders: seq<Order>)   // 200 with the orders
    | ListFailed                   // 500: reading `req.user._id` threw

  /** `getMyOrders`: exactly the requester's orders, each as often as it
      is stored, newest first. `protect` may pass on a token whose user no
      longer exists; reading its id then throws inside the `try`, which
      answers 500. */
  function GetMyOrders(orders: seq<Order>, user: Option<string>): (r: MyOrdersResponse)
    ensures r.ListFailed? <==> user.None?
    ensures r.Listed? ==> NewestFirst(r.orders)
    ensures r.Listed? ==> forall o :: multiset(r.orders)[o] == if o.user == user.value then multiset(orders)[o] else 0
    ensures r.Listed? ==> forall o :: o in r.orders <==> o in orders && o.user == user.value
  {
    if user.None? then ListFailed
    else
      var mine := OrdersOf(orders, user.value);
      var r := SortNewestFirst(mine);
      assert forall o :: o in r <==> o in orders && o.user == user.value by {
        forall o ensures o in r <==> o in orders && o.user == user.value {
          assert o in r <==> o in multiset(r);
          assert o in orders <==> o in multiset(orders);
        }
      }
      Listed(r)
  }
}
