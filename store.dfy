/**
 * The application's database as one sequential store: the Products, Categories,
 * Carts, Orders and OrderDetails tables, and the identity counters that number
 * new products and orders. Every controller and every shopping cart works on the
 * same store, and every change is saved as soon as it is made.
 */
module Database {
  import opened Entities
  import opened CartLines
  import opened OrderLines

  class Store {
    var products: map<int, Product>
    var categories: seq<Category>
    var carts: seq<CartLine>
    var orders: map<int, Order>
    var orderDetails: seq<OrderDetail>
    /** The next value of the ProductId identity column. */
    var nextProductId: int
    /** The next value of the OrderId identity column. */
    var nextOrderId: int

    /**
     * Every product and order sits under its own key and below its identity
     * counter, every order line belongs to an order id already handed out, the
     * OrderDetails key is unique, and every cart row holds at least one unit.
     */
    ghost predicate Valid()
      reads this
    {
      && (forall id :: id in products ==> products[id].id == id && id < nextProductId)
      && (forall id :: id in orders ==> orders[id].id == id && id < nextOrderId)
      && (forall i :: 0 <= i < |orderDetails| ==> orderDetails[i].orderId < nextOrderId)
      && KeysUnique(orderDetails)
      && AllPositive(carts)
    }

    /** An empty database. */
    constructor ()
      ensures Valid()
      ensures products == map[] && categories == [] && carts == []
      ensures orders == map[] && orderDetails == []
    {
      products := map[];
      categories := [];
      carts := [];
      orders := map[];
      orderDetails := [];
      nextProductId := 1;
      nextOrderId := 1;
    }
  }

  /**
   * What a value read from the session converts to with `Convert.ToDecimal`:
   * null reads as 0, a number as itself, anything else raises FormatException.
   */
  datatype SessionAmount = Null | Amount(value: Money) | Unconvertible

  /** The three session keys the store uses. */
  class Session {
    /** `Session["CartId"]`. */
    var cartId: Option<string>
    /** `Session["totalCost"]`. */
    var totalCost: SessionAmount
    /** `Session["orderId"]`; unboxing a missing value throws. */
    var orderId: Option<int>

    constructor ()
      ensures cartId == None && totalCost == Null && orderId == None
    {
      cartId := None;
      totalCost := Null;
      orderId := None;
    }
  }

  /** The signed-in user's profile (`ApplicationUser`), as the checkout reads it. */
  datatype Profile = Profile(firstName: Option<string>, surname: Option<string>, phoneNumber: Option<string>)
}
