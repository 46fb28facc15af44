/**
 * The order lines that `CreateOrder` writes for the rows of a cart: one
 * OrderDetail per row, keyed by (productId, orderId), carrying a snapshot of the
 * product's name and current price.
 */
module OrderLines {
  import opened Entities
  import opened CartLines

  /** Every row refers to a product that exists; otherwise `item.Product` is null. */
  predicate ProductsKnown(items: seq<CartLine>, products: map<int, Product>)
  {
    forall i :: 0 <= i < |items| ==> items[i].productId in products
  }

  /** The OrderDetail written for one cart row. */
  function DetailOf(l: CartLine, products: map<int, Product>, order: Order): OrderDetail
    requires l.productId in products
  {
    var p := products[l.productId];
    OrderDetail(l.productId, order.id, p.name, l.count, p.price, order.customerId)
  }

  /** The details of `order`, one per row of `items`, in the same order. */
  function DetailsFor(items: seq<CartLine>, products: map<int, Product>, order: Order): (ds: seq<OrderDetail>)
    requires ProductsKnown(items, products)
    ensures |ds| == |items|
    ensures forall i :: 0 <= i < |items| ==>
              && ds[i].productId == items[i].productId
              && ds[i].orderId == order.id
              && ds[i].quantity == items[i].count
              && ds[i].productName == products[items[i].productId].name
              && ds[i].cost == products[items[i].productId].price
              && ds[i].customerId == order.customerId
  {
    if items == [] then []
    else DetailsFor(items[..|items| - 1], products, order) + [DetailOf(items[|items| - 1], products, order)]
  }

  /** The sum of quantity times cost over a set of order lines. */
  function DetailsTotal(ds: seq<OrderDetail>): Money
  {
    if ds == [] then 0.0
    else DetailsTotal(ds[..|ds| - 1]) + ds[|ds| - 1].quantity as real * ds[|ds| - 1].cost
  }

  /** The details of a cart's rows add up to the cart's total. */
  lemma {:induction false} DetailsTotalIsCartTotal(items: seq<CartLine>, products: map<int, Product>,
                                                   order: Order, c: string)
    requires ProductsKnown(items, products)
    requires forall i :: 0 <= i < |items| ==> items[i].cartId == c
    ensures DetailsTotal(DetailsFor(items, products, order)) == Total(items, products, c)
  {
    if items != [] {
      var init := items[..|items| - 1];
      var ds := DetailsFor(items, products, order);
      assert ds[..|ds| - 1] == DetailsFor(init, products, order);
      DetailsTotalIsCartTotal(init, products, order, c);
    }
  }

  /** Appending the details of an order numbered below `next` keeps every line's order below `next`. */
  lemma AppendedBelow(ds: seq<OrderDetail>, items: seq<CartLine>, products: map<int, Product>, order: Order, next: int)
    requires ProductsKnown(items, products)
    requires forall i :: 0 <= i < |ds| ==> ds[i].orderId < next
    requires order.id < next
    ensures var all := ds + DetailsFor(items, products, order);
            forall i :: 0 <= i < |all| ==> all[i].orderId < next
  {
    var added := DetailsFor(items, products, order);
    var all := ds + added;
    forall i | 0 <= i < |all| ensures all[i].orderId < next {
      if i >= |ds| {
        assert all[i] == added[i - |ds|];
      }
    }
  }

  /** No two rows share the key (productId, orderId). */
  predicate KeysUnique(ds: seq<OrderDetail>)
  {
    forall i, j :: 0 <= i < j < |ds| ==> ds[i].productId != ds[j].productId || ds[i].orderId != ds[j].orderId
  }

  /** No two rows hold the same product. */
  predicate DistinctProducts(items: seq<CartLine>)
  {
    forall i, j :: 0 <= i < j < |items| ==> items[i].productId != items[j].productId
  }

  /**
   * When no existing line belongs to `order`, adding its details keeps the keys
   * unique exactly when the cart rows hold distinct products.
   */
  lemma NewKeysUnique(ds: seq<OrderDetail>, items: seq<CartLine>, products: map<int, Product>, order: Order)
    requires KeysUnique(ds)
    requires forall i :: 0 <= i < |ds| ==> ds[i].orderId != order.id
    requires ProductsKnown(items, products)
    ensures KeysUnique(ds + DetailsFor(items, products, order)) <==> DistinctProducts(items)
  {
    var added := DetailsFor(items, products, order);
    var all := ds + added;
    if DistinctProducts(items) {
      forall i, j | 0 <= i < j < |all|
        ensures all[i].productId != all[j].productId || all[i].orderId != all[j].orderId
      {
        if j < |ds| {
        } else if i < |ds| {
          assert all[j] == added[j - |ds|];
        } else {
          assert all[i] == added[i - |ds|] && all[j] == added[j - |ds|];
        }
      }
    }
    if KeysUnique(all) {
      forall i, j | 0 <= i < j < |items| ensures items[i].productId != items[j].productId {
        assert all[|ds| + i] == added[i] && all[|ds| + j] == added[j];
      }
    }
  }

  /** Two rows of a key make its row count at least 2. */
  lemma TwoRows(s: seq<CartLine>, i: nat, j: nat, c: string, p: int)
    requires i < j < |s| && IsLine(s[i], c, p) && IsLine(s[j], c, p)
    ensures Rows(s, c, p) >= 2
  {
    var rest := s[..j] + s[j + 1..];
    SumDelete(s, j);
    assert rest[i] == s[i];
    SumDelete(rest, i);
  }

  /**
   * The rows of one cart hold distinct products exactly when no key of that cart
   * is held by two rows.
   */
  lemma {:induction false} DistinctProductsRows(items: seq<CartLine>, c: string)
    requires forall i :: 0 <= i < |items| ==> items[i].cartId == c
    ensures DistinctProducts(items) <==> forall p :: Rows(items, c, p) <= 1
  {
    if !DistinctProducts(items) {
      var i, j :| 0 <= i < j < |items| && items[i].productId == items[j].productId;
      TwoRows(items, i, j, c, items[i].productId);
    } else if items != [] {
      var init := items[..|items| - 1];
      var last := items[|items| - 1];
      assert DistinctProducts(init);
      DistinctProductsRows(init, c);
      forall p ensures Rows(items, c, p) <= 1 {
        assert Rows(items, c, p) == Rows(init, c, p) + Weight(RowsOf(c, p), last);
        if p == last.productId && Rows(init, c, p) >= 1 {
          var k := MatchIndex(init, c, p);
          assert false;
        }
      }
    }
  }
}
