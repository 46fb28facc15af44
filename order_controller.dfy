/**
 * OrderController: the administrator's order list and search, a customer's own
 * orders, an order's lines, deleting an order, and cancelling one, which refunds
 * the payment and puts stock back.
 *
 * The queries take `table`, the rows of the Orders table in the order the
 * database returns them, and are pure; the two actions that change the store are
 * methods that take the `Store` and change its Products and Orders tables.
 */
module OrderController {
  import opened Entities
  import opened Sorting
  import opened OrderLines
  import opened Database
  import Checkout = CheckoutController

  // ---------------------------------------------------------------------------
  // Queries

  /** `OrderByDescending(r => r.OrderDate)`. */
  predicate LaterFirst(a: Order, b: Order)
  {
    a.orderDate >= b.orderDate
  }

  /** `OrderBy(r => r.OrderDate)`. */
  predicate EarlierFirst(a: Order, b: Order)
  {
    a.orderDate <= b.orderDate
  }

  lemma DateOrders()
    ensures TotalPreorder(LaterFirst) && TotalPreorder(EarlierFirst)
  {
  }

  /** The search of `Index`: the email, first name or last name starts with `user`. */
  predicate MatchesUser(o: Order, user: string)
  {
    ColumnStartsWith(o.email, user) || ColumnStartsWith(o.firstName, user) || ColumnStartsWith(o.lastName, user)
  }

  /**
   * `Index`: every order when no user is given; otherwise exactly the orders
   * whose email, first name or last name starts with `user`, each as often as in
   * the table, latest first.
   */
  function Index(table: seq<Order>, user: Option<string>): (orders: seq<Order>)
    ensures user.None? ==> orders == table
    ensures user.Some? ==> forall o :: o in orders <==> o in table && MatchesUser(o, user.value)
    ensures user.Some? ==>
              forall o :: multiset(orders)[o] == if MatchesUser(o, user.value) then multiset(table)[o] else 0
    ensures user.Some? ==> Sorted(orders, LaterFirst)
  {
    if user.None? then table
    else
      DateOrders();
      var keep := (o: Order) => MatchesUser(o, user.value);
      var sorted := Sort(table, LaterFirst);
      FilterSorted(sorted, keep, LaterFirst);
      assert forall o :: o in sorted <==> o in multiset(table);
      Filter(sorted, keep)
  }

  /**
   * `MyOrders`: exactly the orders whose customer is the current user, each as
   * often as in the table, earliest first. A signed-out user (`None`) gets the
   * orders that have no customer, as the query compares nullable columns.
   */
  function MyOrders(table: seq<Order>, currentUser: Option<string>): (orders: seq<Order>)
    ensures forall o :: o in orders <==> o in table && o.customerId == currentUser
    ensures forall o :: multiset(orders)[o] == if o.customerId == currentUser then multiset(table)[o] else 0
    ensures Sorted(orders, EarlierFirst)
  {
    DateOrders();
    var mine := Filter(table, (o: Order) => o.customerId == currentUser);
    var sorted := Sort(mine, EarlierFirst);
    assert forall o :: o in sorted <==> o in multiset(mine);
    sorted
  }

  datatype DetailsPage =
    | DetailsBadRequest
    | DetailsNotFound
    | DetailsView(currentOrder: Order, orderCollection: seq<OrderDetail>)

  /**
   * `Details`: BadRequest without an id, NotFound for an unknown one, otherwise
   * the order and exactly its lines, in table order.
   */
  function Details(orders: map<int, Order>, details: seq<OrderDetail>, id: Option<int>): (page: DetailsPage)
    ensures page.DetailsBadRequest? <==> id.None?
    ensures page.DetailsNotFound? <==> id.Some? && id.value !in orders
    ensures page.DetailsView? ==>
              && page.currentOrder == orders[id.value]
              && (forall d :: d in page.orderCollection <==> d in details && d.orderId == id.value)
              && (forall d :: multiset(page.orderCollection)[d] ==
                               if d.orderId == id.value then multiset(details)[d] else 0)
  {
    if id.None? then DetailsBadRequest
    else if id.value !in orders then DetailsNotFound
    else DetailsView(orders[id.value], Filter(details, (d: OrderDetail) => d.orderId == id.value))
  }

  // ---------------------------------------------------------------------------
  // Cancel (GET)

  const DispatchedMessage: string := "Order has been dispatched — unable to cancel"

  datatype CancelPage =
    | CancelBadRequest
    | CancelNotFound
    | Dispatched(errorMessage: string)   // the Error view
    | ConfirmCancel(order: Order)

  /**
   * `Cancel` (GET): BadRequest without an id, NotFound for an unknown one, the
   * "dispatched" error for an order placed more than two days before `now`,
   * otherwise the confirmation page.
   */
  function Cancel(orders: map<int, Order>, id: Option<int>, now: Time): (page: CancelPage)
    ensures page.CancelBadRequest? <==> id.None?
    ensures page.CancelNotFound? <==> id.Some? && id.value !in orders
    ensures page.Dispatched? <==> id.Some? && id.value in orders && orders[id.value].orderDate < now - 2 * TicksPerDay
    ensures page.Dispatched? ==> page.errorMessage == DispatchedMessage
    ensures page.ConfirmCancel? ==> page.order == orders[id.value]
  {
    if id.None? then CancelBadRequest
    else if id.value !in orders then CancelNotFound
    else if orders[id.value].orderDate < now - 2 * TicksPerDay then Dispatched(DispatchedMessage)
    else ConfirmCancel(orders[id.value])
  }

  /**
   * An existing order may be cancelled until two days after it was placed, and
   * once it cannot be, it never can again.
   */
  lemma CancelWindow(orders: map<int, Order>, id: int, now: Time, later: Time)
    requires id in orders
    ensures Cancel(orders, Some(id), now).ConfirmCancel? <==> now <= orders[id].orderDate + 2 * TicksPerDay
    ensures Cancel(orders, Some(id), now).Dispatched? && now <= later ==>
              Cancel(orders, Some(id), later).Dispatched?
  {
  }

  // ---------------------------------------------------------------------------
  // Restoring stock

  /** The number of lines of order `orderId` that hold product `p`. */
  function LineCount(details: seq<OrderDetail>, orderId: int, p: int): nat
  {
    if details == [] then 0
    else
      var last := details[|details| - 1];
      LineCount(details[..|details| - 1], orderId, p) + (if last.orderId == orderId && last.productId == p then 1 else 0)
  }

  /** Every line of order `orderId` holds a product that exists. */
  predicate LinesKnown(details: seq<OrderDetail>, orderId: int, products: map<int, Product>)
  {
    forall i :: 0 <= i < |details| && details[i].orderId == orderId ==> details[i].productId in products
  }

  /**
   * The products after the restock loop of `CancelConfirmed`: one unit back for
   * every line of the order, whatever the line's quantity; nothing else changes.
   */
  function Restocked(products: map<int, Product>, details: seq<OrderDetail>, orderId: int): (r: map<int, Product>)
    requires LinesKnown(details, orderId, products)
    ensures r.Keys == products.Keys
    ensures forall p :: p in r ==>
              r[p] == products[p].(quantity := products[p].quantity + LineCount(details, orderId, p))
  {
    if details == [] then products
    else
      var init := details[..|details| - 1];
      var last := details[|details| - 1];
      var r := Restocked(products, init, orderId);
      if last.orderId == orderId then
        r[last.productId := r[last.productId].(quantity := r[last.productId].quantity + 1)]
      else r
  }

  /**
   * With the OrderDetails key unique an order holds a product on at most one
   * line, so cancelling it puts back exactly one unit of each of its products.
   */
  lemma {:induction false} LineCountUnique(details: seq<OrderDetail>, orderId: int, p: int)
    requires KeysUnique(details)
    ensures LineCount(details, orderId, p) <= 1
    ensures LineCount(details, orderId, p) == 1 <==>
              exists i :: 0 <= i < |details| && details[i].orderId == orderId && details[i].productId == p
  {
    if details != [] {
      var init := details[..|details| - 1];
      var last := details[|details| - 1];
      assert KeysUnique(init);
      LineCountUnique(init, orderId, p);
      if last.orderId == orderId && last.productId == p {
        forall i | 0 <= i < |init| ensures !(init[i].orderId == orderId && init[i].productId == p) {
          assert details[i] == init[i];
        }
      }
      if exists i :: 0 <= i < |details| && details[i].orderId == orderId && details[i].productId == p {
        var i :| 0 <= i < |details| && details[i].orderId == orderId && details[i].productId == p;
        if i < |init| {
          assert init[i] == details[i];
        }
      }
    }
  }

  /** The restock puts back one unit of each product the order holds, and nothing of any other. */
  lemma RestockedOnce(products: map<int, Product>, details: seq<OrderDetail>, orderId: int)
    requires LinesKnown(details, orderId, products) && KeysUnique(details)
    ensures forall p :: p in products ==>
              Restocked(products, details, orderId)[p].quantity ==
                products[p].quantity + (if InOrder(details, orderId, p) then 1 else 0)
  {
    forall p | p in products {
      LineCountUnique(details, orderId, p);
    }
  }

  /** Some line of order `orderId` holds product `p`. */
  predicate InOrder(details: seq<OrderDetail>, orderId: int, p: int)
  {
    exists i :: 0 <= i < |details| && details[i].orderId == orderId && details[i].productId == p
  }

  /**
   * The restock loop of `CancelConfirmed` over the OrderDetails table: the
   * products with one more unit for every line of the order; `None` at the first
   * line whose product is gone (`Find` returns null).
   */
  method RestockLoop(orderDetails: seq<OrderDetail>, products: map<int, Product>, orderId: int)
    returns (restocked: Option<map<int, Product>>)
    ensures restocked.Some? <==> LinesKnown(orderDetails, orderId, products)
    ensures restocked.Some? ==> restocked.value == Restocked(products, orderDetails, orderId)
  {
    var current := products;
    var i := 0;
    while i < |orderDetails|
      invariant 0 <= i <= |orderDetails|
      invariant LinesKnown(orderDetails[..i], orderId, products)
      invariant current == Restocked(products, orderDetails[..i], orderId)
    {
      var o := orderDetails[i];
      assert orderDetails[..i + 1][..i] == orderDetails[..i] && orderDetails[..i + 1][i] == o;
      if o.orderId == orderId {
        if o.productId !in current {
          return None;
        }
        var p := current[o.productId];
        current := current[o.productId := p.(quantity := p.quantity + 1)];
      }
      i := i + 1;
    }
    assert orderDetails[..|orderDetails|] == orderDetails;
    restocked := Some(current);
  }

  // ---------------------------------------------------------------------------
  // CancelConfirmed and DeleteConfirmed

  datatype CancelOutcome =
    | RedirectToMyOrders(notification: string)
    | RedirectToIndex(notification: string)
    | CancelCrash                          // an exception escapes the action

  /**
   * `CancelConfirmed`: asks for a refund of three quarters of the order's total
   * against its transaction, sends the cancellation email, and the SMS when the
   * current user has a phone number; then puts back one unit of stock for every
   * line of the order and removes the order. The two-day rule is not checked
   * again. An unknown order, a refund the gateway answers by throwing
   * (`refundThrows`, for instance a refund against a null transaction id), a
   * missing profile or a line whose product is gone throws, and nothing is
   * saved; the requests already made stand.
   */
  method CancelConfirmed(db: Store, id: int, currentUser: Option<Profile>, isUser: bool, refundThrows: bool)
    returns (outcome: CancelOutcome, refund: Option<Checkout.RefundRequest>, notices: seq<Checkout.Notice>)
    requires db.Valid()
    modifies db`products, db`orders
    ensures db.Valid()
    ensures id !in old(db.orders) ==> outcome == CancelCrash && refund.None? && notices == []
    ensures id in old(db.orders) ==>
              var order := old(db.orders[id]);
              && refund.Some?
              && refund.value.transactionId == order.transactionId
              && 4.0 * refund.value.amount == 3.0 * order.orderTotal
              && (refundThrows ==> notices == [])
              && (!refundThrows ==> |notices| >= 1)
              && (!refundThrows ==>
                    notices[0] == Checkout.CancellationEmail(order.customerId, "Order Cancellation: #" + IntToString(id), id))
              && (!refundThrows && currentUser.Some? ==>
                    notices == [notices[0]] + (if currentUser.value.phoneNumber.Some?
                                               then [Checkout.CancellationSms(order.customerId, id)] else []))
    ensures outcome.CancelCrash? <==>
              || id !in old(db.orders) || refundThrows || currentUser.None?
              || !LinesKnown(db.orderDetails, id, old(db.products))
    ensures outcome.CancelCrash? ==> db.products == old(db.products) && db.orders == old(db.orders)
    ensures !outcome.CancelCrash? ==>
              && db.products == Restocked(old(db.products), db.orderDetails, id)
              && db.orders == old(db.orders) - {id}
              && (forall p :: p in db.products ==>
                    db.products[p].quantity ==
                      old(db.products[p].quantity)
                      + (if InOrder(db.orderDetails, id, p) then 1 else 0))
              && outcome == (if isUser then RedirectToMyOrders("Order " + IntToString(id) + " has been cancelled")
                             else RedirectToIndex("Order " + IntToString(id) + " has been cancelled"))
  {
    if id !in db.orders {
      return CancelCrash, None, [];
    }
    var orderToCancel := db.orders[id];
    refund := Checkout.Cancel(db, orderToCancel.transactionId, orderToCancel.id);
    if refundThrows {
      return CancelCrash, refund, [];
    }
    notices := [Checkout.CancellationEmail(orderToCancel.customerId, "Order Cancellation: #" + IntToString(orderToCancel.id), orderToCancel.id)];
    if currentUser.None? {
      return CancelCrash, refund, notices;
    }
    if currentUser.value.phoneNumber.Some? {
      notices := notices + [Checkout.CancellationSms(orderToCancel.customerId, orderToCancel.id)];
    }
    var restocked := RestockLoop(db.orderDetails, db.products, orderToCancel.id);
    if restocked.None? {
      return CancelCrash, refund, notices;
    }
    RestockedOnce(db.products, db.orderDetails, id);
    db.products := restocked.value;
    db.orders := db.orders - {id};
    var notification := "Order " + IntToString(orderToCancel.id) + " has been cancelled";
    if isUser {
      outcome := RedirectToMyOrders(notification);
    } else {
      outcome := RedirectToIndex(notification);
    }
  }

  datatype DeleteOutcome = Deleted(notification: string) | DeleteCrash

  /**
   * `DeleteConfirmed`: removes exactly the order `id`; the other orders are
   * unchanged. An unknown id throws (`Remove(null)`) and nothing changes.
   */
  method DeleteConfirmed(db: Store, id: int) returns (outcome: DeleteOutcome)
    requires db.Valid()
    modifies db`orders
    ensures db.Valid()
    ensures outcome.Deleted? <==> id in old(db.orders)
    ensures outcome.Deleted? ==> outcome.notification == "Order " + IntToString(id) + " has been deleted"
    ensures db.orders == old(db.orders) - {id}
    ensures forall k :: k in db.orders ==> k != id && db.orders[k] == old(db.orders[k])
  {
    if id !in db.orders {
      return DeleteCrash;
    }
    var order := db.orders[id];
    db.orders := db.orders - {id};
    outcome := Deleted("Order " + IntToString(order.id) + " has been deleted");
  }
}
