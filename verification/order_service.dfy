/**
 * The order processor: turn a cart into an order, remove an order, list a
 * user's orders, and the sort-direction rule of the order listing.
 */
module OrderService {
  import opened JavaInt
  import opened Outcome
  import opened Store

  /**
   * The order line built from a cart line: same product and quantity, and a
   * total recomputed from the product's current discounted price (not the
   * cart line's stored total).
   */
  function ToOrderItem(line: CartItem, catalog: map<ProductId, Int32>): (r: OrderItem)
    requires line.productId in catalog
    ensures r.productId == line.productId && r.quantity == line.quantity
  {
    OrderItem(line.productId, line.quantity, Mul32(line.quantity, catalog[line.productId]))
  }

  /** One order line per cart line, in the cart's order. */
  function OrderLines(items: seq<CartItem>, catalog: map<ProductId, Int32>): (r: seq<OrderItem>)
    requires InCatalog(items, catalog)
    ensures |r| == |items|
    ensures forall k | 0 <= k < |r| :: r[k].productId == items[k].productId && r[k].quantity == items[k].quantity
  {
    seq(|items|, k requires 0 <= k < |items| => ToOrderItem(items[k], catalog))
  }

  /** The exact (unbounded) sum of the lines' totals. */
  function SumTotals(lines: seq<OrderItem>): int
  {
    if lines == [] then 0 else SumTotals(lines[..|lines| - 1]) + lines[|lines| - 1].totalPrice
  }

  /** The exact value of the sum over the cart of quantity times current price. */
  function ExactAmount(items: seq<CartItem>, catalog: map<ProductId, Int32>): int
    requires InCatalog(items, catalog)
  {
    if items == [] then 0
    else
      var last := items[|items| - 1];
      ExactAmount(items[..|items| - 1], catalog) + last.quantity * catalog[last.productId]
  }

  /** The orders in the table whose user is `u`. */
  function OrdersOf(orders: map<OrderId, Order>, u: UserId): (r: set<Order>)
    ensures forall o :: o in r <==> o in orders.Values && o.user == u
  {
    set id | id in orders && orders[id].user == u :: orders[id]
  }

  datatype Direction = Ascending | Descending

  /** The sort direction of the order listing: "ASC" is ascending, any other string descending. */
  function SortDirection(sortDir: string): (d: Direction)
    ensures d == Ascending <==> sortDir == "ASC"
  {
    if sortDir == "ASC" then Ascending else Descending
  }

  // ---------------------------------------------------------------------
  // Properties of the order lines and the amount

  /**
   * Summing the wrapped line totals agrees, modulo 2^32, with the exact sum
   * of quantity times price over the cart.
   */
  lemma {:induction false} SumTotalsCongruent(items: seq<CartItem>, catalog: map<ProductId, Int32>)
    requires InCatalog(items, catalog)
    ensures (SumTotals(OrderLines(items, catalog)) - ExactAmount(items, catalog)) % Modulus == 0
  {
    if items != [] {
      var n := |items| - 1;
      var exact := items[n].quantity * catalog[items[n].productId];
      LastOrderLine(items, catalog);
      SumTotalsCongruent(items[..n], catalog);
      AddCongruent(SumTotals(OrderLines(items[..n], catalog)), ExactAmount(items[..n], catalog), Wrap32(exact), exact);
    }
  }

  /** Both sums grow by the last cart line: wrapped in the order, exact in the reference. */
  lemma LastOrderLine(items: seq<CartItem>, catalog: map<ProductId, Int32>)
    requires InCatalog(items, catalog) && items != []
    ensures var n := |items| - 1;
      && SumTotals(OrderLines(items, catalog)) ==
           SumTotals(OrderLines(items[..n], catalog)) + Wrap32(items[n].quantity * catalog[items[n].productId])
      && ExactAmount(items, catalog) ==
           ExactAmount(items[..n], catalog) + items[n].quantity * catalog[items[n].productId]
  {
    var n := |items| - 1;
    var lines := OrderLines(items, catalog);
    assert lines[..n] == OrderLines(items[..n], catalog);
  }

  /**
   * The order amount is the exact sum of quantity times current price over
   * the cart whenever that sum fits in an `int`, however the line totals or
   * the running sum overflowed on the way.
   */
  lemma AmountIsExactWhenInRange(items: seq<CartItem>, catalog: map<ProductId, Int32>)
    requires InCatalog(items, catalog)
    requires MinInt <= ExactAmount(items, catalog) <= MaxInt
    ensures Wrap32(SumTotals(OrderLines(items, catalog))) == ExactAmount(items, catalog)
  {
    SumTotalsCongruent(items, catalog);
    WrapCongruent(SumTotals(OrderLines(items, catalog)), ExactAmount(items, catalog));
  }

  /**
   * When every cart line was priced at the product's current price, the
   * order lines carry the cart lines' quantities and totals unchanged.
   */
  lemma OrderLinesKeepTotalsAtCurrentPrices(items: seq<CartItem>, catalog: map<ProductId, Int32>)
    requires InCatalog(items, catalog)
    requires forall k | 0 <= k < |items| :: items[k].totalPrice == Mul32(items[k].quantity, catalog[items[k].productId])
    ensures |OrderLines(items, catalog)| == |items|
    ensures forall k | 0 <= k < |items| ::
      OrderLines(items, catalog)[k] == OrderItem(items[k].productId, items[k].quantity, items[k].totalPrice)
  {
  }

  /**
   * A cart line written at an older price is repriced at checkout: two of a
   * product added at 500 and checked out at 600 gives an order line of 1200,
   * not the stored 1000.
   */
  lemma CheckoutReprices()
    ensures var line := CartItem(1, "A", 2, Mul32(2, 500));
      && line.totalPrice == 1000
      && ToOrderItem(line, map["A" := 600]).totalPrice == 1200
  {
  }

  /** Adding an order under a fresh id lists it among its user's orders. */
  lemma OrdersOfAfterCreate(orders: map<OrderId, Order>, o: Order)
    requires o.orderId !in orders
    ensures OrdersOf(orders[o.orderId := o], o.user) == OrdersOf(orders, o.user) + {o}
  {
    var after := orders[o.orderId := o];
    assert o == after[o.orderId];
    forall x | x in OrdersOf(orders, o.user) ensures x in OrdersOf(after, o.user) {
      var id :| id in orders && orders[id].user == o.user && orders[id] == x;
      assert after[id] == x;
    }
  }

  /** Removing an order takes exactly that order out of its user's list and leaves the other lists alone. */
  lemma OrdersOfAfterRemove(orders: map<OrderId, Order>, orderId: OrderId, u: UserId)
    requires forall id | id in orders :: orders[id].orderId == id
    requires orderId in orders
    ensures OrdersOf(orders - {orderId}, u) ==
      if orders[orderId].user == u then OrdersOf(orders, u) - {orders[orderId]} else OrdersOf(orders, u)
  {
    var after := orders - {orderId};
    forall x | x in OrdersOf(orders, u) && x != orders[orderId] ensures x in OrdersOf(after, u) {
      var id :| id in orders && orders[id].user == u && orders[id] == x;
      assert after[id] == x;
    }
  }

  // ---------------------------------------------------------------------
  // The service operations

  /**
   * The projection from cart lines to order lines with the running
   * `orderAmount`, which starts at 0 and adds each line's total in Java
   * `int` arithmetic.
   */
  method BuildOrderItems(items: seq<CartItem>, catalog: map<ProductId, Int32>)
    returns (lines: seq<OrderItem>, amount: Int32)
    requires InCatalog(items, catalog)
    ensures lines == OrderLines(items, catalog)
    ensures amount == Wrap32(SumTotals(lines))
    ensures amount == Wrap32(ExactAmount(items, catalog))
  {
    lines := [];
    amount := 0;
    for i := 0 to |items|
      invariant lines == OrderLines(items[..i], catalog)
      invariant amount == Wrap32(SumTotals(lines))
    {
      var line := ToOrderItem(items[i], catalog);
      ghost var before := lines;
      lines := lines + [line];
      assert lines[..|lines| - 1] == before;
      assert items[..i + 1] == items[..i] + [items[i]];
      assert lines == OrderLines(items[..i + 1], catalog);
      WrapAdd(SumTotals(before), amount, line.totalPrice, line.totalPrice);
      amount := Add32(amount, line.totalPrice);
    }
    assert items[..|items|] == items;
    SumTotalsCongruent(items, catalog);
    WrapCongruent(SumTotals(lines), ExactAmount(items, catalog));
  }

  /**
   * createOrder: the user is looked up, then the cart by its id (whoever
   * owns it), and an empty cart is refused. The order gets `newOrderId`,
   * is dated `now`, is not delivered, copies the billing and status fields,
   * has one line per cart line and the summed amount; the cart is emptied
   * and the order stored.
   */
  method CreateOrder(db: Database, userId: UserId, cartId: CartId,
                     billingName: string, billingPhone: string, billingAddress: string,
                     paymentStatus: string, orderStatus: string, newOrderId: OrderId, now: Date)
    returns (r: Result<Order>)
    requires db.Valid()
    requires newOrderId !in db.orders
    modifies db
    ensures db.Valid()
    ensures db.users == old(db.users) && db.catalog == old(db.catalog) && db.cartOf == old(db.cartOf)
    ensures userId !in old(db.users) ==>
      r == Failure(NotFound("User not found")) && unchanged(db)
    ensures userId in old(db.users) && cartId !in old(db.carts) ==>
      r == Failure(NotFound("Cart not found")) && unchanged(db)
    ensures userId in old(db.users) && cartId in old(db.carts) && |old(db.carts[cartId].items)| == 0 ==>
      r == Failure(BadApiRequest("Invalid number of items in cart !!!")) && unchanged(db)
    ensures userId in old(db.users) && cartId in old(db.carts) && |old(db.carts[cartId].items)| > 0 ==>
      && r.Success?
      && var items := old(db.carts[cartId].items);
      && r.value == Order(newOrderId, userId, billingName, billingPhone, billingAddress, now, None,
                          paymentStatus, orderStatus, r.value.orderAmount, r.value.orderItems)
      && r.value.orderItems == OrderLines(items, old(db.catalog))
      && r.value.orderAmount == Wrap32(SumTotals(r.value.orderItems))
      && r.value.orderAmount == Wrap32(ExactAmount(items, old(db.catalog)))
      && db.orders == old(db.orders)[newOrderId := r.value]
      && db.carts == old(db.carts)[cartId := old(db.carts[cartId]).(items := [])]
      && db.itemIndex == Unindex(old(db.itemIndex), cartId)
      && db.CartItemsOf(old(db.carts[cartId].user)) == []
  {
    if userId !in db.users {
      return Failure(NotFound("User not found"));
    }
    if cartId !in db.carts {
      return Failure(NotFound("Cart not found"));
    }
    var items := db.carts[cartId].items;
    if |items| <= 0 {
      return Failure(BadApiRequest("Invalid number of items in cart !!!"));
    }
    var orderItems, orderAmount := BuildOrderItems(items, db.catalog);
    var order := Order(newOrderId, userId, billingName, billingPhone, billingAddress, now, None,
                       paymentStatus, orderStatus, orderAmount, orderItems);
    SaveOrder(db, cartId, order);
    r := Success(order);
  }

  /**
   * The last step of createOrder: the cart loses its lines (and the
   * cart-item table their rows), and the order is stored under its id.
   */
  method SaveOrder(db: Database, cartId: CartId, order: Order)
    requires db.Valid()
    requires cartId in db.carts && order.orderId !in db.orders
    modifies db
    ensures db.Valid()
    ensures db.users == old(db.users) && db.catalog == old(db.catalog) && db.cartOf == old(db.cartOf)
    ensures db.orders == old(db.orders)[order.orderId := order]
    ensures db.carts == old(db.carts)[cartId := old(db.carts[cartId]).(items := [])]
    ensures db.itemIndex == Unindex(old(db.itemIndex), cartId)
    ensures db.CartItemsOf(old(db.carts[cartId].user)) == []
  {
    EmptyCartConsistent(db.users, db.catalog, db.carts, db.cartOf, db.itemIndex, cartId);
    db.carts := db.carts[cartId := db.carts[cartId].(items := [])];
    db.itemIndex := Unindex(db.itemIndex, cartId);
    db.orders := db.orders[order.orderId := order];
  }

  /** removeOrder: an unknown id is NotFound; otherwise that order, lines included, is deleted. */
  method RemoveOrder(db: Database, orderId: OrderId) returns (r: Result<()>)
    requires db.Valid()
    modifies db
    ensures db.Valid()
    ensures db.users == old(db.users) && db.catalog == old(db.catalog) && db.carts == old(db.carts)
    ensures db.cartOf == old(db.cartOf) && db.itemIndex == old(db.itemIndex)
    ensures orderId !in old(db.orders) ==> r == Failure(NotFound("Order not found !!!")) && unchanged(db)
    ensures orderId in old(db.orders) ==> r == Success(()) && db.orders == old(db.orders) - {orderId}
  {
    if orderId !in db.orders {
      return Failure(NotFound("Order not found !!!"));
    }
    db.orders := db.orders - {orderId};
    r := Success(());
  }

  /** getAllOrdersOfUser: an unknown user is NotFound; otherwise exactly the orders placed for that user. */
  method GetAllOrdersOfUser(db: Database, userId: UserId) returns (r: Result<set<Order>>)
    requires db.Valid()
    ensures userId !in db.users ==> r == Failure(NotFound("User not found"))
    ensures userId in db.users ==>
      && r.Success?
      && (forall o :: o in r.value <==> o in db.orders.Values && o.user == userId)
  {
    if userId !in db.users {
      return Failure(NotFound("User not found"));
    }
    r := Success(OrdersOf(db.orders, userId));
  }
}
