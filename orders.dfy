/**
 * Orders in server/src/graphql/resolvers.js: the guards of `createOrder`, the
 * snapshot of a cart into order lines, and the `orders` and `order` queries.
 */
module Orders {
  import opened Wrappers
  import opened Collections
  import opened StoreData
  import opened Carts

  const CartNotFound := "Cart not found"
  const NotAuthorizedCheckout := "Not authorized to checkout this cart"
  const EmptyCart := "Cannot checkout an empty cart"
  const NoShippingAddress := "Shipping address not found"
  const OrderNotFound := "Order not found"
  const NotAuthorizedOrder := "Not authorized to view this order"

  /** One cart line frozen into an order line at the product's current price. */
  function OrderLine(item: CartItem, stamp: string): OrderItem
  {
    OrderItem("order_item_" + stamp + "_" + item.id, item.product, item.quantity, item.product.price)
  }

  /** `cart.items.map(...)`: the order lines, one per cart line, in cart order. */
  function OrderLines(items: seq<CartItem>, stamp: string): (r: seq<OrderItem>)
    ensures |r| == |items|
    ensures forall k :: 0 <= k < |r| ==>
      r[k].product == items[k].product && r[k].quantity == items[k].quantity && r[k].price == items[k].product.price
  {
    seq(|items|, k requires 0 <= k < |items| => OrderLine(items[k], stamp))
  }

  function OrderLineTotal(item: OrderItem): int
  {
    item.price * item.quantity
  }

  /** `orderItems.reduce((total, item) => total + item.price * item.quantity, 0)`. */
  function OrderSubtotal(items: seq<OrderItem>): int
  {
    SumBy(items, OrderLineTotal)
  }

  /** The order's subtotal is the subtotal of the cart it was made from. */
  lemma {:induction false} OrderSubtotalIsCartSubtotal(items: seq<CartItem>, stamp: string)
    ensures OrderSubtotal(OrderLines(items, stamp)) == Subtotal(items)
  {
    if items != [] {
      var n := |items|;
      assert OrderLines(items, stamp)[..n - 1] == OrderLines(items[..n - 1], stamp);
      OrderSubtotalIsCartSubtotal(items[..n - 1], stamp);
    }
  }

  /** The order `createOrder` records for a cart, a user's address and the payment method. */
  function NewOrder(orderId: string, userId: string, items: seq<CartItem>, address: Address,
                    paymentMethod: string, stamp: string): (o: Order)
    ensures o.subtotal == o.total == Subtotal(items)
    ensures o.items == OrderLines(items, stamp) && o.userId == userId && o.shippingAddress == address
    ensures o.status == "PROCESSING" && o.paymentStatus == "COMPLETED" && o.paymentMethod == paymentMethod
  {
    OrderSubtotalIsCartSubtotal(items, stamp);
    var subtotal := OrderSubtotal(OrderLines(items, stamp));
    Order(orderId, userId, OrderLines(items, stamp), subtotal, subtotal, "PROCESSING", address, paymentMethod, "COMPLETED")
  }

  /** What every recorded order satisfies: it has lines, and subtotal and total are their sum. */
  predicate Placed(o: Order)
  {
    o.items != [] && o.subtotal == o.total == OrderSubtotal(o.items)
  }

  /** An order made from a cart with lines is a placed order whose total is the cart's subtotal. */
  lemma NewOrderPlaced(orderId: string, userId: string, items: seq<CartItem>, address: Address,
                       paymentMethod: string, stamp: string)
    requires items != []
    ensures Placed(NewOrder(orderId, userId, items, address, paymentMethod, stamp))
    ensures NewOrder(orderId, userId, items, address, paymentMethod, stamp).total == Subtotal(items)
  {
    OrderSubtotalIsCartSubtotal(items, stamp);
  }

  /** `db.carts.find(c => c.id === cartId)`, as an index. */
  function CartWithId(carts: seq<Cart>, cartId: string): Option<nat>
  {
    FirstIndex(carts, (c: Cart) => c.id == cartId)
  }

  /**
   * The guards of `createOrder`, in the order the resolver runs them: the cart must
   * exist, belong to the caller and hold lines, and the caller must have an address.
   * On success, the index of the cart to check out.
   */
  function CheckoutGuards(carts: seq<Cart>, user: User, cartId: string): (r: Result<nat, Error>)
    ensures CartWithId(carts, cartId).None? ==> r == Failure(PlainError(CartNotFound))
    ensures CartWithId(carts, cartId).Some? ==>
      var c := carts[CartWithId(carts, cartId).value];
      r == if c.userId != user.id then Failure(AuthenticationError(NotAuthorizedCheckout))
           else if c.items == [] then Failure(PlainError(EmptyCart))
           else if user.address.None? then Failure(PlainError(NoShippingAddress))
           else Success(CartWithId(carts, cartId).value)
    ensures r.Success? ==>
      r.value < |carts| && carts[r.value].id == cartId && carts[r.value].userId == user.id &&
      carts[r.value].items != [] && user.address.Some?
  {
    match CartWithId(carts, cartId)
    case None => Failure(PlainError(CartNotFound))
    case Some(i) =>
      if carts[i].userId != user.id then Failure(AuthenticationError(NotAuthorizedCheckout))
      else if carts[i].items == [] then Failure(PlainError(EmptyCart))
      else if user.address.None? then Failure(PlainError(NoShippingAddress))
      else Success(i)
  }

  /** The `orders` query for an authenticated user: exactly that user's orders, in the order they were placed. */
  function OrdersOf(orders: seq<Order>, userId: string): (r: seq<Order>)
    ensures forall k :: 0 <= k < |r| ==> r[k] in orders && r[k].userId == userId
    ensures forall k :: 0 <= k < |orders| && orders[k].userId == userId ==> orders[k] in r
    ensures IsSubsequence(r, orders)
    ensures forall o :: multiset(r)[o] == if o.userId == userId then multiset(orders)[o] else 0
  {
    FilterCounts(orders, PlacedBy(userId));
    Filter(orders, PlacedBy(userId))
  }

  function PlacedBy(userId: string): Order -> bool
  {
    (o: Order) => o.userId == userId
  }

  /** The `order(id)` query for an authenticated user. */
  function OrderFor(orders: seq<Order>, userId: string, id: string): (r: Result<Order, Error>)
    ensures r == Failure(PlainError(OrderNotFound)) <==> forall k :: 0 <= k < |orders| ==> orders[k].id != id
    ensures r.Failure? && (exists k :: 0 <= k < |orders| && orders[k].id == id) ==>
      r.error == AuthenticationError(NotAuthorizedOrder)
    ensures r.Success? ==> r.value in orders && r.value.id == id && r.value.userId == userId
    ensures r.Success? <==> exists k :: 0 <= k < |orders| && orders[k].id == id && orders[k].userId == userId &&
                                        forall j :: 0 <= j < k ==> orders[j].id != id
  {
    match FirstIndex(orders, (o: Order) => o.id == id)
    case None => Failure(PlainError(OrderNotFound))
    case Some(i) =>
      if orders[i].userId != userId then Failure(AuthenticationError(NotAuthorizedOrder))
      else Success(orders[i])
  }
}
