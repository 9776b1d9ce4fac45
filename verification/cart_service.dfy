/**
 * The cart manager: add a product to a user's cart (merging with an existing
 * line for the same product), remove a line by its id, clear a cart, and
 * read a user's cart.
 */
module CartService {
  import opened JavaInt
  import opened Outcome
  import opened Store

  /** A line whose quantity is overwritten and whose total is recomputed at `price`. */
  function Repriced(line: CartItem, quantity: Int32, price: Int32): (r: CartItem)
    ensures r.itemId == line.itemId && r.productId == line.productId
    ensures r.quantity == quantity
  {
    line.(quantity := quantity, totalPrice := Mul32(quantity, price))
  }

  predicate HasProduct(items: seq<CartItem>, productId: ProductId)
  {
    exists k | 0 <= k < |items| :: items[k].productId == productId
  }

  /** Every line for `productId` overwritten with `quantity`; the other lines as they were. */
  function Overwrite(items: seq<CartItem>, productId: ProductId, quantity: Int32, price: Int32): (r: seq<CartItem>)
    ensures |r| == |items|
    ensures forall k | 0 <= k < |r| :: r[k].itemId == items[k].itemId && r[k].productId == items[k].productId
  {
    seq(|items|, k requires 0 <= k < |items| =>
      if items[k].productId == productId then Repriced(items[k], quantity, price) else items[k])
  }

  /**
   * The lines of a cart after adding `quantity` of `productId` at `price`:
   * an existing line for the product is overwritten (the quantity replaced,
   * not summed), otherwise one new line is appended.
   */
  function AddLine(items: seq<CartItem>, productId: ProductId, quantity: Int32, price: Int32, newItemId: ItemId): seq<CartItem>
  {
    if HasProduct(items, productId) then Overwrite(items, productId, quantity, price)
    else items + [CartItem(newItemId, productId, quantity, Mul32(quantity, price))]
  }

  /** The number of lines for `productId`. */
  function LinesFor(items: seq<CartItem>, productId: ProductId): nat
  {
    if items == [] then 0
    else LinesFor(items[..|items| - 1], productId) + (if items[|items| - 1].productId == productId then 1 else 0)
  }

  /** The lines with id `itemId` taken out. */
  function RemoveLine(items: seq<CartItem>, itemId: ItemId): (r: seq<CartItem>)
    ensures |r| <= |items|
    ensures forall k | 0 <= k < |r| :: r[k].itemId != itemId
  {
    if items == [] then []
    else (if items[0].itemId == itemId then [] else [items[0]]) + RemoveLine(items[1..], itemId)
  }

  // ---------------------------------------------------------------------
  // Properties of the cart lines

  lemma {:induction false} LinesForHasProduct(items: seq<CartItem>, productId: ProductId)
    ensures LinesFor(items, productId) > 0 <==> HasProduct(items, productId)
  {
    if items != [] {
      var n := |items| - 1;
      var prefix := items[..n];
      LinesForHasProduct(prefix, productId);
      if HasProduct(prefix, productId) {
        var k :| 0 <= k < |prefix| && prefix[k].productId == productId;
        assert items[k].productId == productId;
      }
      if HasProduct(items, productId) && items[n].productId != productId {
        var k :| 0 <= k < |items| && items[k].productId == productId;
        assert prefix[k].productId == productId;
      }
    }
  }

  /** With at most one line per product, each product has zero or one line. */
  lemma {:induction false} OneLinePerProductCount(items: seq<CartItem>, productId: ProductId)
    requires OneLinePerProduct(items)
    ensures LinesFor(items, productId) <= 1
  {
    if items != [] {
      var n := |items| - 1;
      var prefix := items[..n];
      assert OneLinePerProduct(prefix);
      OneLinePerProductCount(prefix, productId);
      if items[n].productId == productId {
        assert !HasProduct(prefix, productId) by {
          forall k | 0 <= k < |prefix| ensures prefix[k].productId != productId {
            assert items[k].productId != items[n].productId;
          }
        }
        LinesForHasProduct(prefix, productId);
      }
    }
  }

  lemma {:induction false} OverwriteKeepsCounts(items: seq<CartItem>, productId: ProductId, quantity: Int32, price: Int32, other: ProductId)
    ensures LinesFor(Overwrite(items, productId, quantity, price), other) == LinesFor(items, other)
  {
    if items != [] {
      var n := |items| - 1;
      var r := Overwrite(items, productId, quantity, price);
      assert r[..n] == Overwrite(items[..n], productId, quantity, price);
      OverwriteKeepsCounts(items[..n], productId, quantity, price, other);
    }
  }

  /**
   * Adding a product leaves it with exactly as many lines as before, or with
   * one if it had none; every other product keeps its count.
   */
  lemma AddLineCounts(items: seq<CartItem>, productId: ProductId, quantity: Int32, price: Int32, newItemId: ItemId, other: ProductId)
    ensures LinesFor(AddLine(items, productId, quantity, price, newItemId), other) ==
      if other == productId && LinesFor(items, productId) == 0 then 1 else LinesFor(items, other)
  {
    LinesForHasProduct(items, productId);
    if HasProduct(items, productId) {
      OverwriteKeepsCounts(items, productId, quantity, price, other);
    } else {
      var r := AddLine(items, productId, quantity, price, newItemId);
      assert r[..|items|] == items;
      if other == productId {
        assert LinesFor(items, productId) == 0;
      }
    }
  }

  /**
   * The line for the product carries the requested quantity and its total at
   * `price`; the number of lines grows by one exactly when no line matched;
   * every other line is unchanged.
   */
  lemma AddLineEffect(items: seq<CartItem>, productId: ProductId, quantity: Int32, price: Int32, newItemId: ItemId)
    ensures var r := AddLine(items, productId, quantity, price, newItemId);
      && |r| == |items| + (if HasProduct(items, productId) then 0 else 1)
      && HasProduct(r, productId)
      && (forall k | 0 <= k < |r| && r[k].productId == productId ::
            r[k].quantity == quantity && r[k].totalPrice == Mul32(quantity, price))
      && (forall k | 0 <= k < |items| && items[k].productId != productId :: r[k] == items[k])
      && (forall k | 0 <= k < |items| :: r[k].itemId == items[k].itemId && r[k].productId == items[k].productId)
      && (!HasProduct(items, productId) ==> r[|items|] == CartItem(newItemId, productId, quantity, Mul32(quantity, price)))
  {
    var r := AddLine(items, productId, quantity, price, newItemId);
    if HasProduct(items, productId) {
      var k :| 0 <= k < |items| && items[k].productId == productId;
      assert r[k].productId == productId;
    } else {
      assert r[|items|].productId == productId;
    }
  }

  /** Adding keeps the lines well formed and adds `newItemId` to the ids exactly when a line is appended. */
  lemma AddLineWellFormed(items: seq<CartItem>, productId: ProductId, quantity: Int32, price: Int32, newItemId: ItemId, catalog: map<ProductId, Int32>)
    requires WellFormedLines(items, catalog)
    requires productId in catalog
    requires newItemId !in ItemIds(items)
    ensures WellFormedLines(AddLine(items, productId, quantity, price, newItemId), catalog)
    ensures ItemIds(AddLine(items, productId, quantity, price, newItemId)) ==
      ItemIds(items) + (if HasProduct(items, productId) then {} else {newItemId})
  {
    var r := AddLine(items, productId, quantity, price, newItemId);
    AddLineEffect(items, productId, quantity, price, newItemId);
    if HasProduct(items, productId) {
      assert ItemIds(r) == ItemIds(items) by {
        forall id | id in ItemIds(items) ensures id in ItemIds(r) {
          var k :| 0 <= k < |items| && items[k].itemId == id;
          assert r[k].itemId == id;
        }
      }
    } else {
      assert ItemIds(r) == ItemIds(items) + {newItemId} by {
        forall id | id in ItemIds(items) ensures id in ItemIds(r) {
          var k :| 0 <= k < |items| && items[k].itemId == id;
          assert r[k].itemId == id;
        }
        assert r[|items|].itemId == newItemId;
      }
    }
  }

  /** The merge property: adding the same product twice leaves one line, with the second quantity. */
  lemma AddTwiceMerges(items: seq<CartItem>, productId: ProductId, q1: Int32, price1: Int32, id1: ItemId, q2: Int32, price2: Int32, id2: ItemId)
    requires OneLinePerProduct(items)
    ensures var r := AddLine(AddLine(items, productId, q1, price1, id1), productId, q2, price2, id2);
      && LinesFor(r, productId) == 1
      && exists k | 0 <= k < |r| :: r[k].productId == productId && r[k].quantity == q2 && r[k].totalPrice == Mul32(q2, price2)
  {
    var r1 := AddLine(items, productId, q1, price1, id1);
    var r := AddLine(r1, productId, q2, price2, id2);
    OneLinePerProductCount(items, productId);
    AddLineCounts(items, productId, q1, price1, id1, productId);
    AddLineCounts(r1, productId, q2, price2, id2, productId);
    AddLineEffect(r1, productId, q2, price2, id2);
  }

  /** Adding two products that are not yet in the cart appends two independently priced lines. */
  lemma AddTwoProducts(items: seq<CartItem>, p1: ProductId, q1: Int32, price1: Int32, id1: ItemId, p2: ProductId, q2: Int32, price2: Int32, id2: ItemId)
    requires p1 != p2
    requires !HasProduct(items, p1) && !HasProduct(items, p2)
    ensures AddLine(AddLine(items, p1, q1, price1, id1), p2, q2, price2, id2) ==
      items + [CartItem(id1, p1, q1, Mul32(q1, price1)), CartItem(id2, p2, q2, Mul32(q2, price2))]
  {
    var r1 := AddLine(items, p1, q1, price1, id1);
    assert r1 == items + [CartItem(id1, p1, q1, Mul32(q1, price1))];
    assert !HasProduct(r1, p2) by {
      forall k | 0 <= k < |r1| ensures r1[k].productId != p2 {
        if k < |items| {
          assert r1[k] == items[k];
        }
      }
    }
  }

  /** Removing a line by id removes exactly that line, when ids are distinct. */
  lemma {:induction false} RemoveLineAt(items: seq<CartItem>, k: nat)
    requires DistinctIds(items)
    requires k < |items|
    ensures RemoveLine(items, items[k].itemId) == items[..k] + items[k + 1..]
  {
    var id := items[k].itemId;
    if k == 0 {
      RemoveLineAbsent(items[1..], id);
    } else {
      assert DistinctIds(items[1..]);
      RemoveLineAt(items[1..], k - 1);
      assert items[0].itemId != id;
      assert items[1..][..k - 1] == items[1..k];
      assert items[1..][k..] == items[k + 1..];
      assert [items[0]] + items[1..k] == items[..k];
    }
  }

  /** Removing an id no line carries changes nothing. */
  lemma {:induction false} RemoveLineAbsent(items: seq<CartItem>, itemId: ItemId)
    requires itemId !in ItemIds(items)
    ensures RemoveLine(items, itemId) == items
  {
    if items != [] {
      assert items[0].itemId != itemId;
      assert ItemIds(items[1..]) <= ItemIds(items) by {
        forall id | id in ItemIds(items[1..]) ensures id in ItemIds(items) {
          var j :| 0 <= j < |items[1..]| && items[1..][j].itemId == id;
          assert items[j + 1].itemId == id;
        }
      }
      RemoveLineAbsent(items[1..], itemId);
      assert [items[0]] + items[1..] == items;
    }
  }

  lemma DropWellFormed(items: seq<CartItem>, k: nat, catalog: map<ProductId, Int32>)
    requires WellFormedLines(items, catalog)
    requires k < |items|
    ensures WellFormedLines(items[..k] + items[k + 1..], catalog)
    ensures ItemIds(items[..k] + items[k + 1..]) == ItemIds(items) - {items[k].itemId}
  {
    var r := items[..k] + items[k + 1..];
    assert forall j | 0 <= j < |r| :: r[j] == items[if j < k then j else j + 1];
    forall id | id in ItemIds(items) && id != items[k].itemId ensures id in ItemIds(r) {
      var j :| 0 <= j < |items| && items[j].itemId == id;
      if j < k { assert r[j].itemId == id; } else { assert r[j - 1].itemId == id; }
    }
  }

  /** Removing a line keeps the lines well formed and takes exactly its id out. */
  lemma RemoveLineWellFormed(items: seq<CartItem>, itemId: ItemId, catalog: map<ProductId, Int32>)
    requires WellFormedLines(items, catalog)
    ensures WellFormedLines(RemoveLine(items, itemId), catalog)
    ensures ItemIds(RemoveLine(items, itemId)) == ItemIds(items) - {itemId}
    ensures itemId in ItemIds(items) ==> |RemoveLine(items, itemId)| == |items| - 1
  {
    if itemId in ItemIds(items) {
      var k :| 0 <= k < |items| && items[k].itemId == itemId;
      RemoveLineAt(items, k);
      DropWellFormed(items, k, catalog);
    } else {
      RemoveLineAbsent(items, itemId);
    }
  }

  /** Removing a line by id from the cart that holds it keeps the carts consistent. */
  lemma RemoveConsistent(
    users: set<UserId>, catalog: map<ProductId, Int32>, carts: map<CartId, Cart>,
    cartOf: map<UserId, CartId>, itemIndex: map<ItemId, CartId>, itemId: ItemId)
    requires CartsConsistent(users, catalog, carts, cartOf, itemIndex)
    requires itemId in itemIndex
    ensures var c := itemIndex[itemId];
      && c in carts
      && CartsConsistent(users, catalog, carts[c := carts[c].(items := RemoveLine(carts[c].items, itemId))],
                         cartOf, itemIndex - {itemId})
      && |RemoveLine(carts[c].items, itemId)| == |carts[c].items| - 1
  {
    var c := itemIndex[itemId];
    var cart := carts[c];
    var index := itemIndex - {itemId};
    CartIdsIndexed(users, catalog, carts, cartOf, itemIndex, c);
    RemoveLineWellFormed(cart.items, itemId, catalog);
    var items := RemoveLine(cart.items, itemId);
    assert ItemIds(items) == ItemIds(cart.items) - {itemId};
    forall id ensures id in index <==> (id in itemIndex && itemIndex[id] != c) || id in ItemIds(items) {
    }
    cart := cart.(items := items);
    SaveCartConsistent(users, catalog, carts, cartOf, itemIndex, cart, index);
    assert cartOf[cart.user := c] == cartOf;
  }

  /** Saving a cart after adding a line to it keeps the carts consistent. */
  lemma AddConsistent(
    users: set<UserId>, catalog: map<ProductId, Int32>, carts: map<CartId, Cart>,
    cartOf: map<UserId, CartId>, itemIndex: map<ItemId, CartId>,
    cart: Cart, userId: UserId, productId: ProductId, quantity: Int32, newItemId: ItemId)
    requires CartsConsistent(users, catalog, carts, cartOf, itemIndex)
    requires userId in users && productId in catalog && newItemId !in itemIndex
    requires userId in cartOf ==> cart == carts[cartOf[userId]]
    requires userId !in cartOf ==> cart.cartId !in carts && cart.items == []
    ensures var items := AddLine(cart.items, productId, quantity, catalog[productId], newItemId);
      CartsConsistent(users, catalog, carts[cart.cartId := cart.(items := items, user := userId)],
                      cartOf[userId := cart.cartId],
                      if HasProduct(cart.items, productId) then itemIndex else itemIndex[newItemId := cart.cartId])
  {
    var items := AddLine(cart.items, productId, quantity, catalog[productId], newItemId);
    var index := if HasProduct(cart.items, productId) then itemIndex else itemIndex[newItemId := cart.cartId];
    if userId in cartOf {
      CartIdsIndexed(users, catalog, carts, cartOf, itemIndex, cart.cartId);
    }
    assert newItemId !in ItemIds(cart.items);
    AddLineWellFormed(cart.items, productId, quantity, catalog[productId], newItemId, catalog);
    SaveCartConsistent(users, catalog, carts, cartOf, itemIndex, cart.(items := items, user := userId), index);
  }

  // ---------------------------------------------------------------------
  // The service operations

  /**
   * The scan over the cart's lines: every line for `productId` gets the new
   * quantity and total, and a new line is appended when none matched.
   */
  method MergeOrAppend(items: seq<CartItem>, productId: ProductId, quantity: Int32, price: Int32, newItemId: ItemId)
    returns (result: seq<CartItem>, updated: bool)
    ensures result == AddLine(items, productId, quantity, price, newItemId)
    ensures updated == HasProduct(items, productId)
  {
    updated := false;
    result := items;
    for i := 0 to |items|
      invariant |result| == |items|
      invariant forall k | 0 <= k < i :: result[k] == Overwrite(items, productId, quantity, price)[k]
      invariant forall k | i <= k < |items| :: result[k] == items[k]
      invariant updated <==> exists k | 0 <= k < i :: items[k].productId == productId
    {
      if result[i].productId == productId {
        result := result[i := Repriced(result[i], quantity, price)];
        updated := true;
      }
    }
    if !updated {
      result := result + [CartItem(newItemId, productId, quantity, Mul32(quantity, price))];
    }
  }

  /**
   * addItemToCart: the product is looked up first, then the user; a user
   * without a cart gets a new one (`newCartId`, created `now`); the line is
   * merged or appended at the product's discounted price and the cart saved.
   * `newItemId` is the id the database gives an appended line.
   */
  method AddItemToCart(db: Database, userId: UserId, productId: ProductId, quantity: Int32,
                       newCartId: CartId, newItemId: ItemId, now: Date)
    returns (r: Result<Cart>)
    requires db.Valid()
    requires newCartId !in db.carts && newItemId !in db.itemIndex
    modifies db
    ensures db.Valid()
    ensures db.users == old(db.users) && db.catalog == old(db.catalog) && db.orders == old(db.orders)
    ensures productId !in old(db.catalog) ==>
      r == Failure(NotFound("Product not found")) && unchanged(db)
    ensures productId in old(db.catalog) && userId !in old(db.users) ==>
      r == Failure(NotFound("User not found")) && unchanged(db)
    ensures productId in old(db.catalog) && userId in old(db.users) ==>
      && r.Success?
      && r.value.user == userId
      && r.value.items == AddLine(old(db.CartItemsOf(userId)), productId, quantity, old(db.catalog[productId]), newItemId)
      && (userId in old(db.cartOf) ==>
            r.value.cartId == old(db.cartOf[userId]) && r.value.createdDate == old(db.carts[db.cartOf[userId]].createdDate))
      && (userId !in old(db.cartOf) ==> r.value.cartId == newCartId && r.value.createdDate == now)
      && db.carts == old(db.carts)[r.value.cartId := r.value]
      && db.cartOf == old(db.cartOf)[userId := r.value.cartId]
      && db.itemIndex == if HasProduct(old(db.CartItemsOf(userId)), productId) then old(db.itemIndex)
                         else old(db.itemIndex)[newItemId := r.value.cartId]
  {
    if productId !in db.catalog {
      return Failure(NotFound("Product not found"));
    }
    if userId !in db.users {
      return Failure(NotFound("User not found"));
    }
    var cart: Cart;
    if userId in db.cartOf {
      cart := db.carts[db.cartOf[userId]];
    } else {
      cart := Cart(newCartId, now, userId, []);
    }
    cart := SaveLine(db, cart, userId, productId, quantity, newItemId);
    r := Success(cart);
  }

  /**
   * The second half of addItemToCart: merge or append the line at the
   * product's discounted price, set the cart's user and save the cart.
   */
  method SaveLine(db: Database, cart: Cart, userId: UserId, productId: ProductId, quantity: Int32, newItemId: ItemId)
    returns (saved: Cart)
    requires db.Valid()
    requires userId in db.users && productId in db.catalog && newItemId !in db.itemIndex
    requires userId in db.cartOf ==> cart == db.carts[db.cartOf[userId]]
    requires userId !in db.cartOf ==> cart.cartId !in db.carts && cart.items == []
    modifies db
    ensures db.Valid()
    ensures db.users == old(db.users) && db.catalog == old(db.catalog) && db.orders == old(db.orders)
    ensures saved == cart.(items := AddLine(cart.items, productId, quantity, db.catalog[productId], newItemId), user := userId)
    ensures db.carts == old(db.carts)[cart.cartId := saved]
    ensures db.cartOf == old(db.cartOf)[userId := cart.cartId]
    ensures db.itemIndex == if HasProduct(cart.items, productId) then old(db.itemIndex)
                            else old(db.itemIndex)[newItemId := cart.cartId]
  {
    var items, updated := MergeOrAppend(cart.items, productId, quantity, db.catalog[productId], newItemId);
    AddConsistent(db.users, db.catalog, db.carts, db.cartOf, db.itemIndex, cart, userId, productId, quantity, newItemId);
    if !updated {
      db.itemIndex := db.itemIndex[newItemId := cart.cartId];
    }
    saved := cart.(items := items, user := userId);
    db.carts := db.carts[cart.cartId := saved];
    db.cartOf := db.cartOf[userId := cart.cartId];
  }

  /**
   * removeItemFromCart: the line is found by its own id, in whichever cart
   * holds it; `userId` plays no part.
   */
  method RemoveItemFromCart(db: Database, userId: UserId, itemId: ItemId) returns (r: Result<()>)
    requires db.Valid()
    modifies db
    ensures db.Valid()
    ensures db.users == old(db.users) && db.catalog == old(db.catalog) && db.orders == old(db.orders)
    ensures db.cartOf == old(db.cartOf)
    ensures itemId !in old(db.itemIndex) ==> r == Failure(NotFound("Cart Item not found")) && unchanged(db)
    ensures itemId in old(db.itemIndex) ==>
      && r == Success(())
      && var c := old(db.itemIndex[itemId]);
      && db.carts == old(db.carts)[c := old(db.carts[c]).(items := RemoveLine(old(db.carts[c].items), itemId))]
      && |db.carts[c].items| == |old(db.carts[c].items)| - 1
      && db.itemIndex == old(db.itemIndex) - {itemId}
  {
    if itemId !in db.itemIndex {
      return Failure(NotFound("Cart Item not found"));
    }
    var c := db.itemIndex[itemId];
    RemoveConsistent(db.users, db.catalog, db.carts, db.cartOf, db.itemIndex, itemId);
    db.carts := db.carts[c := db.carts[c].(items := RemoveLine(db.carts[c].items, itemId))];
    db.itemIndex := db.itemIndex - {itemId};
    r := Success(());
  }

  /**
   * clearCart: the user must exist; the user's cart loses all its lines but
   * stays. A user without a cart makes the code dereference null.
   */
  method ClearCart(db: Database, userId: UserId) returns (r: Result<()>)
    requires db.Valid()
    modifies db
    ensures db.Valid()
    ensures db.users == old(db.users) && db.catalog == old(db.catalog) && db.orders == old(db.orders)
    ensures db.cartOf == old(db.cartOf)
    ensures userId !in old(db.users) ==> r == Failure(NotFound("User not found")) && unchanged(db)
    ensures userId in old(db.users) && userId !in old(db.cartOf) ==>
      r == Failure(Uncaught("NullPointerException")) && unchanged(db)
    ensures userId in old(db.users) && userId in old(db.cartOf) ==>
      && r == Success(())
      && var c := old(db.cartOf[userId]);
      && db.carts == old(db.carts)[c := old(db.carts[c]).(items := [])]
      && db.CartItemsOf(userId) == []
      && db.itemIndex.Keys == old(db.itemIndex.Keys) - old(ItemIds(db.carts[c].items))
  {
    if userId !in db.users {
      return Failure(NotFound("User not found"));
    }
    if userId !in db.cartOf {
      return Failure(Uncaught("NullPointerException"));
    }
    var c := db.cartOf[userId];
    EmptyCartConsistent(db.users, db.catalog, db.carts, db.cartOf, db.itemIndex, c);
    db.carts := db.carts[c := db.carts[c].(items := [])];
    db.itemIndex := Unindex(db.itemIndex, c);
    r := Success(());
  }

  /**
   * getCartByUser: the user must exist; a user without a cart has the null
   * cart handed to the mapper, which rejects it.
   */
  method GetCartByUser(db: Database, userId: UserId) returns (r: Result<Cart>)
    requires db.Valid()
    ensures userId !in db.users ==> r == Failure(NotFound("User not found"))
    ensures userId in db.users && userId !in db.cartOf ==> r == Failure(Uncaught("IllegalArgumentException"))
    ensures userId in db.users && userId in db.cartOf ==>
      && r == Success(db.carts[db.cartOf[userId]])
      && r.value.user == userId
      && r.value.items == db.CartItemsOf(userId)
      && OneLinePerProduct(r.value.items)
  {
    if userId !in db.users {
      return Failure(NotFound("User not found"));
    }
    if userId !in db.cartOf {
      return Failure(Uncaught("IllegalArgumentException"));
    }
    r := Success(db.carts[db.cartOf[userId]]);
  }
}
