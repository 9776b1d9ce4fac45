/**
 * The entities the cart and order services work on, and the database
 * (the user, product, cart, cart-item and order repositories) they read and
 * write.
 */
module Store {
  import opened JavaInt
  import opened Outcome

  type UserId = string
  type ProductId = string
  type CartId = string
  type OrderId = string
  /** Cart items have a numeric key assigned by the database. */
  type ItemId = int
  /** A timestamp (`java.util.Date`), opaque to the services. */
  type Date = int

  /** One cart line: the product, its quantity and the price captured when it was written. */
  datatype CartItem = CartItem(itemId: ItemId, productId: ProductId, quantity: Int32, totalPrice: Int32)

  datatype Cart = Cart(cartId: CartId, createdDate: Date, user: UserId, items: seq<CartItem>)

  datatype OrderItem = OrderItem(productId: ProductId, quantity: Int32, totalPrice: Int32)

  datatype Order = Order(
    orderId: OrderId,
    user: UserId,
    billingName: string,
    billingPhone: string,
    billingAddress: string,
    orderedDate: Date,
    deliveredDate: Option<Date>,
    paymentStatus: string,
    orderStatus: string,
    orderAmount: Int32,
    orderItems: seq<OrderItem>)

  function ItemIds(items: seq<CartItem>): set<ItemId>
  {
    set k | 0 <= k < |items| :: items[k].itemId
  }

  predicate DistinctIds(items: seq<CartItem>)
  {
    forall i, j | 0 <= i < j < |items| :: items[i].itemId != items[j].itemId
  }

  /** The cart invariant: at most one line per product. */
  predicate OneLinePerProduct(items: seq<CartItem>)
  {
    forall i, j | 0 <= i < j < |items| :: items[i].productId != items[j].productId
  }

  predicate InCatalog(items: seq<CartItem>, catalog: map<ProductId, Int32>)
  {
    forall k | 0 <= k < |items| :: items[k].productId in catalog
  }

  predicate WellFormedLines(items: seq<CartItem>, catalog: map<ProductId, Int32>)
  {
    DistinctIds(items) && OneLinePerProduct(items) && InCatalog(items, catalog)
  }

  /** Every user has at most one cart, and carts are keyed by their own id. */
  ghost predicate CartsKeyed(users: set<UserId>, carts: map<CartId, Cart>, cartOf: map<UserId, CartId>)
  {
    && (forall u | u in cartOf :: u in users && cartOf[u] in carts && carts[cartOf[u]].user == u)
    && (forall c | c in carts :: carts[c].cartId == c && carts[c].user in cartOf && cartOf[carts[c].user] == c)
  }

  ghost predicate AllLinesWellFormed(carts: map<CartId, Cart>, catalog: map<ProductId, Int32>)
  {
    forall c | c in carts :: WellFormedLines(carts[c].items, catalog)
  }

  /** `itemIndex` (the cart-item table with its foreign key to the cart) lists exactly the lines of every cart. */
  ghost predicate IndexMatches(carts: map<CartId, Cart>, itemIndex: map<ItemId, CartId>)
  {
    && (forall id | id in itemIndex :: itemIndex[id] in carts && id in ItemIds(carts[itemIndex[id]].items))
    && (forall c, id | c in carts && id in ItemIds(carts[c].items) :: id in itemIndex && itemIndex[id] == c)
  }

  /**
   * Carts are keyed both by id and by user (one cart per user), every line
   * is well formed, and the item index lists exactly the lines of every cart.
   */
  ghost predicate CartsConsistent(
    users: set<UserId>, catalog: map<ProductId, Int32>, carts: map<CartId, Cart>,
    cartOf: map<UserId, CartId>, itemIndex: map<ItemId, CartId>)
  {
    CartsKeyed(users, carts, cartOf) && AllLinesWellFormed(carts, catalog) && IndexMatches(carts, itemIndex)
  }

  /**
   * Saving one cart whose lines are well formed and whose item ids belong to
   * no other cart, and re-indexing its lines, keeps the carts consistent.
   */
  lemma SaveCartConsistent(
    users: set<UserId>, catalog: map<ProductId, Int32>, carts: map<CartId, Cart>,
    cartOf: map<UserId, CartId>, itemIndex: map<ItemId, CartId>,
    cart: Cart, itemIndex': map<ItemId, CartId>)
    requires CartsConsistent(users, catalog, carts, cartOf, itemIndex)
    requires cart.user in users
    requires cart.user in cartOf ==> cartOf[cart.user] == cart.cartId
    requires cart.user !in cartOf ==> cart.cartId !in carts
    requires cart.cartId in carts ==> carts[cart.cartId].user == cart.user
    requires WellFormedLines(cart.items, catalog)
    requires forall id | id in ItemIds(cart.items) && id in itemIndex :: itemIndex[id] == cart.cartId
    requires forall id :: id in itemIndex' <==>
      (id in itemIndex && itemIndex[id] != cart.cartId) || id in ItemIds(cart.items)
    requires forall id | id in itemIndex' ::
      itemIndex'[id] == if id in ItemIds(cart.items) then cart.cartId else itemIndex[id]
    ensures CartsConsistent(users, catalog, carts[cart.cartId := cart], cartOf[cart.user := cart.cartId], itemIndex')
  {
    SaveCartKeyed(users, carts, cartOf, cart);
    SaveCartWellFormed(carts, catalog, cart);
    SaveCartIndexed(carts, itemIndex, cart, itemIndex');
  }

  lemma SaveCartKeyed(users: set<UserId>, carts: map<CartId, Cart>, cartOf: map<UserId, CartId>, cart: Cart)
    requires CartsKeyed(users, carts, cartOf)
    requires cart.user in users
    requires cart.user in cartOf ==> cartOf[cart.user] == cart.cartId
    requires cart.user !in cartOf ==> cart.cartId !in carts
    requires cart.cartId in carts ==> carts[cart.cartId].user == cart.user
    ensures CartsKeyed(users, carts[cart.cartId := cart], cartOf[cart.user := cart.cartId])
  {
  }

  lemma SaveCartWellFormed(carts: map<CartId, Cart>, catalog: map<ProductId, Int32>, cart: Cart)
    requires AllLinesWellFormed(carts, catalog)
    requires WellFormedLines(cart.items, catalog)
    ensures AllLinesWellFormed(carts[cart.cartId := cart], catalog)
  {
  }

  lemma SaveCartIndexed(carts: map<CartId, Cart>, itemIndex: map<ItemId, CartId>, cart: Cart, itemIndex': map<ItemId, CartId>)
    requires IndexMatches(carts, itemIndex)
    requires forall id | id in ItemIds(cart.items) && id in itemIndex :: itemIndex[id] == cart.cartId
    requires forall id :: id in itemIndex' <==>
      (id in itemIndex && itemIndex[id] != cart.cartId) || id in ItemIds(cart.items)
    requires forall id | id in itemIndex' ::
      itemIndex'[id] == if id in ItemIds(cart.items) then cart.cartId else itemIndex[id]
    ensures IndexMatches(carts[cart.cartId := cart], itemIndex')
  {
  }

  /** The index entries pointing at a cart are exactly that cart's line ids. */
  lemma CartIdsIndexed(
    users: set<UserId>, catalog: map<ProductId, Int32>, carts: map<CartId, Cart>,
    cartOf: map<UserId, CartId>, itemIndex: map<ItemId, CartId>, c: CartId)
    requires CartsConsistent(users, catalog, carts, cartOf, itemIndex)
    requires c in carts
    ensures forall id :: (id in itemIndex && itemIndex[id] == c) <==> id in ItemIds(carts[c].items)
  {
  }

  /** The index without the entries of cart `c`: what dropping all of its lines leaves. */
  function Unindex(itemIndex: map<ItemId, CartId>, c: CartId): map<ItemId, CartId>
  {
    map id | id in itemIndex && itemIndex[id] != c :: itemIndex[id]
  }

  /** Emptying a cart and dropping its index entries keeps the carts consistent. */
  lemma EmptyCartConsistent(
    users: set<UserId>, catalog: map<ProductId, Int32>, carts: map<CartId, Cart>,
    cartOf: map<UserId, CartId>, itemIndex: map<ItemId, CartId>, c: CartId)
    requires CartsConsistent(users, catalog, carts, cartOf, itemIndex)
    requires c in carts
    ensures CartsConsistent(users, catalog, carts[c := carts[c].(items := [])], cartOf, Unindex(itemIndex, c))
    ensures Unindex(itemIndex, c).Keys == itemIndex.Keys - ItemIds(carts[c].items)
  {
    var cart := carts[c].(items := []);
    CartIdsIndexed(users, catalog, carts, cartOf, itemIndex, c);
    SaveCartConsistent(users, catalog, carts, cartOf, itemIndex, cart, Unindex(itemIndex, c));
    assert cartOf[cart.user := c] == cartOf;
    forall id | id in itemIndex ensures id in Unindex(itemIndex, c) <==> id !in ItemIds(carts[c].items) {
    }
  }

  class Database {
    var users: set<UserId>
    /** Product id to the product's current `discountedPrice`. */
    var catalog: map<ProductId, Int32>
    var carts: map<CartId, Cart>
    var cartOf: map<UserId, CartId>
    var itemIndex: map<ItemId, CartId>
    var orders: map<OrderId, Order>

    ghost predicate Valid()
      reads this
    {
      && CartsConsistent(users, catalog, carts, cartOf, itemIndex)
      && (forall o | o in orders :: orders[o].orderId == o)
    }

    /** A database with the given users and products and no carts or orders. */
    constructor (users: set<UserId>, catalog: map<ProductId, Int32>)
      ensures Valid()
      ensures this.users == users && this.catalog == catalog
      ensures carts == map[] && cartOf == map[] && itemIndex == map[] && orders == map[]
    {
      this.users := users;
      this.catalog := catalog;
      carts, cartOf, itemIndex, orders := map[], map[], map[], map[];
    }

    /** The lines of `u`'s cart; a user without a cart has none. */
    ghost function CartItemsOf(u: UserId): seq<CartItem>
      reads this
      requires Valid()
    {
      if u in cartOf then carts[cartOf[u]].items else []
    }
  }
}
