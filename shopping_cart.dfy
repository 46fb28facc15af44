/**
 * The ShoppingCart service: one visitor's cart, identified by the id kept in the
 * session, over the Carts table of the store.
 */
module ShoppingCarts {
  import opened Entities
  import opened CartLines
  import opened OrderLines
  import opened Database

  /**
   * The cart id `GetCartId` settles on: the one already in the session, else the
   * signed-in user's name when it is not blank, else a fresh GUID.
   */
  function CartIdFor(stored: Option<string>, identityName: Option<string>, guid: string): string
  {
    if stored.Some? then stored.value
    else if !IsNullOrWhiteSpace(identityName) then identityName.value
    else guid
  }

  /** Once the session holds an id, later requests keep it, whoever signs in. */
  lemma CartIdStable(stored: Option<string>, identityName: Option<string>, guid: string,
                     laterName: Option<string>, laterGuid: string)
    ensures var id := CartIdFor(stored, identityName, guid);
            CartIdFor(Some(id), laterName, laterGuid) == id
            && (stored.Some? ==> id == stored.value)
  {
  }

  /** How `CreateOrder` ends: the order's id, or the exception that stopped it. */
  datatype CreateResult =
    | Created(orderId: int)
    | ProductMissing   // a row's product is gone: `item.Product` is null
    | KeyClash         // SaveChanges rejects a repeated OrderDetails key

  class ShoppingCart {
    const db: Store
    var shoppingCartId: string

    constructor (db: Store, id: string)
      ensures this.db == db && shoppingCartId == id
    {
      this.db := db;
      shoppingCartId := id;
    }

    /** `GetCart`: a cart over `db` whose id `GetCartId` chose. */
    static method GetCart(db: Store, session: Session, identityName: Option<string>, guid: string)
      returns (cart: ShoppingCart)
      modifies session`cartId
      ensures fresh(cart) && cart.db == db
      ensures cart.shoppingCartId == CartIdFor(old(session.cartId), identityName, guid)
      ensures session.cartId == Some(cart.shoppingCartId)
    {
      var id := GetCartId(session, identityName, guid);
      cart := new ShoppingCart(db, id);
    }

    /**
     * `GetCartId`: stores an id in the session if it holds none, then returns the
     * session's id. `guid` is the value `Guid.NewGuid()` would produce.
     */
    static method GetCartId(session: Session, identityName: Option<string>, guid: string) returns (id: string)
      modifies session`cartId
      ensures id == CartIdFor(old(session.cartId), identityName, guid)
      ensures session.cartId == Some(id)
    {
      if session.cartId.None? {
        if !IsNullOrWhiteSpace(identityName) {
          session.cartId := identityName;
        } else {
          session.cartId := Some(guid);
        }
      }
      id := session.cartId.value;
    }

    /**
     * `AddToCart`: a new row with count 1 when this cart has no row for the
     * product, one more unit on its row otherwise. `false` when several rows hold
     * the key (`SingleOrDefault` throws) and nothing is saved.
     */
    method AddToCart(productId: int, now: Time) returns (ok: bool)
      requires db.Valid()
      modifies db`carts
      ensures db.Valid()
      ensures ok <==> Rows(old(db.carts), shoppingCartId, productId) <= 1
      ensures ok ==> db.carts == AddLine(old(db.carts), shoppingCartId, productId, now).value
      ensures !ok ==> db.carts == old(db.carts)
    {
      var n := Rows(db.carts, shoppingCartId, productId);
      if n >= 2 {
        return false;
      }
      ghost var r := AddLine(db.carts, shoppingCartId, productId, now);
      if n == 0 {
        db.carts := db.carts + [CartLine(shoppingCartId, productId, 1, now)];
      } else {
        var i := MatchIndex(db.carts, shoppingCartId, productId);
        db.carts := db.carts[i := db.carts[i].(count := db.carts[i].count + 1)];
      }
      assert db.carts == r.value;
      ok := true;
    }

    /**
     * `RemoveFromCart`: one unit fewer on this cart's row for the product, the row
     * deleted when it held one unit; returns the units left on the row. `None`
     * unless exactly one row holds the key (`Single` throws), and nothing changes.
     */
    method RemoveFromCart(productId: int) returns (r: Option<int>)
      requires db.Valid()
      modifies db`carts
      ensures db.Valid()
      ensures r.Some? <==> Rows(old(db.carts), shoppingCartId, productId) == 1
      ensures r.Some? ==>
                var removal := RemoveLine(old(db.carts), shoppingCartId, productId).value;
                db.carts == removal.lines && r.value == removal.itemCount
      ensures r.None? ==> db.carts == old(db.carts)
    {
      if Rows(db.carts, shoppingCartId, productId) != 1 {
        return None;
      }
      ghost var removal := RemoveLine(db.carts, shoppingCartId, productId);
      var i := MatchIndex(db.carts, shoppingCartId, productId);
      var itemCount := 0;
      if db.carts[i].count > 1 {
        db.carts := db.carts[i := db.carts[i].(count := db.carts[i].count - 1)];
        itemCount := db.carts[i].count;
      } else {
        db.carts := db.carts[..i] + db.carts[i + 1..];
      }
      assert db.carts == removal.value.lines;
      r := Some(itemCount);
    }

    /** `EmptyCart`: deletes every row of this cart; the other carts keep theirs. */
    method EmptyCart()
      requires db.Valid()
      modifies db`carts
      ensures db.Valid()
      ensures db.carts == OtherCarts(old(db.carts), shoppingCartId)
    {
      var rows := db.carts;
      var kept: seq<CartLine> := [];
      var i := 0;
      while i < |rows|
        invariant 0 <= i <= |rows|
        invariant kept == OtherCarts(rows[..i], shoppingCartId)
      {
        assert rows[..i + 1][..i] == rows[..i];
        if rows[i].cartId != shoppingCartId {
          kept := kept + [rows[i]];
        }
        i := i + 1;
      }
      assert rows[..|rows|] == rows;
      OtherCartsRows(rows, shoppingCartId);
      db.carts := kept;
    }

    /**
     * `MigrateCart`: hands every row of this cart to `userName`, in place; the
     * rows keep their product, count and date, and other carts are untouched.
     */
    method MigrateCart(userName: string)
      requires db.Valid()
      modifies db`carts
      ensures db.Valid()
      ensures db.carts == Migrated(old(db.carts), shoppingCartId, userName)
    {
      ghost var rows := db.carts;
      var i := 0;
      while i < |db.carts|
        invariant |db.carts| == |rows| && 0 <= i <= |rows|
        invariant forall k :: 0 <= k < i ==> db.carts[k] == Rename(rows[k], shoppingCartId, userName)
        invariant forall k :: i <= k < |rows| ==> db.carts[k] == rows[k]
      {
        if db.carts[i].cartId == shoppingCartId {
          db.carts := db.carts[i := db.carts[i].(cartId := userName)];
        }
        i := i + 1;
      }
      ghost var moved := Migrated(rows, shoppingCartId, userName);
      assert forall k :: 0 <= k < |rows| ==> db.carts[k] == moved[k];
    }

    /**
     * The loop of `CreateOrder`: the detail for each row and the running total of
     * count times price; `None` at the first row whose product is gone.
     */
    static method OrderLinesOf(items: seq<CartLine>, products: map<int, Product>, order: Order, c: string)
      returns (added: Option<seq<OrderDetail>>, orderTotal: Money)
      requires forall i :: 0 <= i < |items| ==> items[i].cartId == c
      ensures added.Some? <==> ProductsKnown(items, products)
      ensures added.Some? ==> added.value == DetailsFor(items, products, order)
      ensures added.Some? ==> orderTotal == Total(items, products, c)
    {
      var lines: seq<OrderDetail> := [];
      orderTotal := 0.0;
      var i := 0;
      while i < |items|
        invariant 0 <= i <= |items|
        invariant ProductsKnown(items[..i], products)
        invariant lines == DetailsFor(items[..i], products, order)
        invariant orderTotal == Total(items[..i], products, c)
      {
        var item := items[i];
        assert items[..i + 1][..i] == items[..i] && items[..i + 1][i] == item;
        if item.productId !in products {
          return None, orderTotal;
        }
        var product := products[item.productId];
        lines := lines + [OrderDetail(item.productId, order.id, product.name, item.count, product.price, order.customerId)];
        orderTotal := orderTotal + item.count as real * product.price;
        i := i + 1;
      }
      assert items[..|items|] == items;
      added := Some(lines);
    }

    /**
     * `CreateOrder`: one OrderDetail per row of this cart, the order's total set to
     * the sum of count times price, then the cart emptied. Fails with nothing
     * saved when a row's product is gone (`item.Product` is null) or when the new
     * lines clash on the OrderDetails key (SaveChanges throws). The total is set
     * on the caller's order object, returned as `placed`; the stored order header
     * is not written here.
     */
    method CreateOrder(order: Order) returns (r: CreateResult, placed: Order)
      requires db.Valid() && order.id in db.orders
      modifies db`orderDetails, db`carts
      ensures db.Valid()
      ensures var items := CartItems(old(db.carts), shoppingCartId);
              && (r.ProductMissing? <==> !ProductsKnown(items, db.products))
              && (r.KeyClash? <==>
                    ProductsKnown(items, db.products)
                    && !KeysUnique(old(db.orderDetails) + DetailsFor(items, db.products, order)))
      ensures r.Created? ==>
                var items := CartItems(old(db.carts), shoppingCartId);
                && r.orderId == order.id
                && placed == order.(orderTotal := Total(old(db.carts), db.products, shoppingCartId))
                && placed.orderTotal == DetailsTotal(DetailsFor(items, db.products, order))
                && db.orderDetails == old(db.orderDetails) + DetailsFor(items, db.products, order)
                && db.carts == OtherCarts(old(db.carts), shoppingCartId)
                && Count(db.carts, shoppingCartId) == 0
      ensures !r.Created? ==> db.carts == old(db.carts) && db.orderDetails == old(db.orderDetails)
    {
      var c := shoppingCartId;
      var items := CartItems(db.carts, c);
      CartItemsRows(db.carts, c);
      var added, orderTotal := OrderLinesOf(items, db.products, order, c);
      if added.None? {
        return ProductMissing, order;
      }
      if !KeysUnique(db.orderDetails + added.value) {
        return KeyClash, order;
      }
      AppendedBelow(db.orderDetails, items, db.products, order, db.nextOrderId);
      db.orderDetails := db.orderDetails + added.value;
      placed := order.(orderTotal := orderTotal);
      CartItemsTotal(db.carts, db.products, c);
      DetailsTotalIsCartTotal(items, db.products, order, c);
      ghost var before := db.carts;
      EmptyCart();
      OtherCartsSum(before, c, CountOf(c));
      r := Created(order.id);
    }
  }
}
