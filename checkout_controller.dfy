/**
 * CheckoutController: turning a cart into an order, taking payment through the
 * gateway, classifying a transaction, confirming an order, cancelling a payment
 * and discarding an order whose payment failed. The gateway is not modelled: its
 * replies are inputs, and what the controller asks of it is an output.
 */
module CheckoutController {
  import opened Entities
  import opened CartLines
  import opened OrderLines
  import opened OrderValidation
  import opened Database
  import opened ShoppingCarts

  // ---------------------------------------------------------------------------
  // What the gateway reports

  /** The gateway's transaction statuses. */
  datatype TransactionStatus =
    | AuthorizationExpired | Authorized | Authorizing | SettlementPending | SettlementConfirmed
    | SettlementDeclined | Failed | GatewayRejected | ProcessorDeclined | Settled | Settling
    | SubmittedForSettlement | Voided | Unrecognized

  /** `transactionSuccessStatuses`. */
  const SuccessStatuses: seq<TransactionStatus> :=
    [Authorized, Authorizing, Settled, Settling, SettlementConfirmed, SettlementPending, SubmittedForSettlement]

  /** A transaction as the gateway returns it; `statusText` is how the gateway renders its status. */
  datatype Transaction = Transaction(id: string, status: TransactionStatus, statusText: string)

  /** One validation error of a rejected sale. */
  datatype ValidationError = ValidationError(code: int, message: string)

  /**
   * The reply to a sale: success with the new transaction's id; a transaction
   * that was created but not successful; no transaction, with the errors; or an
   * exception thrown by the gateway's client, which nothing catches.
   */
  datatype SaleResult =
    | SaleSucceeded(transactionId: string)
    | SaleDeclined
    | SaleInvalid(errors: seq<ValidationError>)
    | SaleThrew

  /** What the controller asks the user manager to send. */
  datatype Notice =
    | ConfirmationEmail(to: Option<string>, subject: string, orderId: int)
    | ConfirmationSms(to: Option<string>, orderId: int)
    | CancellationEmail(to: Option<string>, subject: string, orderId: int)
    | CancellationSms(to: Option<string>, orderId: int)

  /** A refund asked of the gateway. */
  datatype RefundRequest = RefundRequest(transactionId: Option<string>, amount: Money)

  // ---------------------------------------------------------------------------
  // Show

  const StatusPrefix: string := "Your test transaction has a status of "

  /** The page `Show` fills in. */
  datatype ShowPage = ShowPage(header: string, icon: string, message: string)

  /**
   * `Show`: the success page exactly for the seven success statuses, otherwise
   * the failure page naming the status.
   */
  function Show(transaction: Transaction): (page: ShowPage)
    ensures page.icon == "success" <==> transaction.status in SuccessStatuses
    ensures page.icon == "success" <==>
              transaction.status in {Authorized, Authorizing, Settled, Settling,
                                     SettlementConfirmed, SettlementPending, SubmittedForSettlement}
    ensures page.icon == "fail" <==> transaction.status !in SuccessStatuses
    ensures page.icon == "fail" ==> page.header == "Transaction Failed" && OccursAt(page.message, transaction.statusText, |StatusPrefix|)
  {
    if transaction.status in SuccessStatuses then
      ShowPage("Sweet Success!", "success",
               "Your test transaction has been successfully processed. See the Braintree API response and try again.")
    else
      ShowPage("Transaction Failed", "fail",
               StatusPrefix + transaction.statusText
               + ". See the Braintree API response and try again.")
  }

  // ---------------------------------------------------------------------------
  // The error text of a rejected sale

  function ErrorLine(e: ValidationError): string
  {
    "Error: " + IntToString(e.code) + " - " + e.message + "\n"
  }

  /** The lines of all errors, one after another. */
  function ErrorText(errors: seq<ValidationError>): (text: string)
    ensures text == [] <==> errors == []
  {
    if errors == [] then ""
    else ErrorText(errors[..|errors| - 1]) + ErrorLine(errors[|errors| - 1])
  }

  /** The last element of `a + b`, and what comes before it, when `b` is not empty. */
  lemma InitOfConcat<T>(a: seq<T>, b: seq<T>)
    requires b != []
    ensures (a + b)[..|a + b| - 1] == a + b[..|b| - 1]
    ensures (a + b)[|a + b| - 1] == b[|b| - 1]
  {
  }

  /** The text of two runs of errors is the text of the first followed by the text of the second. */
  lemma {:induction false} ErrorTextConcat(a: seq<ValidationError>, b: seq<ValidationError>)
    ensures ErrorText(a + b) == ErrorText(a) + ErrorText(b)
    decreases |b|
  {
    if b == [] {
      assert a + b == a;
    } else {
      var init := b[..|b| - 1];
      InitOfConcat(a, b);
      ErrorTextConcat(a, init);
      var x, y, z := ErrorText(a), ErrorText(init), ErrorLine(b[|b| - 1]);
      assert ErrorText(a + b) == (x + y) + z;
      assert ErrorText(b) == y + z;
    }
  }

  /** The loop of `Create` that builds the error text. */
  method ErrorMessages(errors: seq<ValidationError>) returns (errorMessages: string)
    ensures errorMessages == ErrorText(errors)
  {
    errorMessages := "";
    var i := 0;
    while i < |errors|
      invariant 0 <= i <= |errors|
      invariant errorMessages == ErrorText(errors[..i])
    {
      var error := errors[i];
      assert errors[..i + 1][..i] == errors[..i] && errors[..i + 1][i] == error;
      var line := "Error: " + IntToString(error.code) + " - " + error.message + "\n";
      assert line == ErrorLine(error);
      errorMessages := errorMessages + line;
      i := i + 1;
    }
    assert errors[..|errors|] == errors;
  }

  // ---------------------------------------------------------------------------
  // Cancel and Failed

  /** Three quarters of an order's total. */
  function RefundAmount(total: Money): (r: Money)
    ensures 4.0 * r == 3.0 * total
    ensures total >= 0.0 ==> 0.0 <= r <= total
  {
    total * 0.75
  }

  /**
   * `Cancel`: asks the gateway to refund three quarters of the order's total
   * against the transaction `id`. `None` when the order does not exist (the
   * action throws before the gateway is called).
   */
  method Cancel(db: Store, id: Option<string>, orderId: int) returns (refund: Option<RefundRequest>)
    ensures refund.Some? <==> orderId in db.orders
    ensures refund.Some? ==> refund.value.transactionId == id
    ensures refund.Some? ==> 4.0 * refund.value.amount == 3.0 * db.orders[orderId].orderTotal
  {
    if orderId !in db.orders {
      return None;
    }
    var order := db.orders[orderId];
    var refundAmount := RefundAmount(order.orderTotal);
    refund := Some(RefundRequest(id, refundAmount));
  }

  /**
   * `Failed`: removes the session's order. `false` when the session holds no
   * order id or the order does not exist; the action then throws.
   */
  method FailedAction(db: Store, session: Session) returns (ok: bool)
    requires db.Valid()
    modifies db`orders
    ensures db.Valid()
    ensures ok <==> session.orderId.Some? && session.orderId.value in old(db.orders)
    ensures ok ==> db.orders == old(db.orders) - {session.orderId.value}
    ensures !ok ==> db.orders == old(db.orders)
  {
    if session.orderId.None? {
      return false;
    }
    var id := session.orderId.value;
    if id !in db.orders {
      return false;
    }
    db.orders := db.orders - {id};
    ok := true;
  }

  // ---------------------------------------------------------------------------
  // Create

  const InvalidAmountFlash: string := "Error: 81503: Amount is an invalid format."

  datatype CreateOutcome =
    | RetryPayment(flash: string)                   // redirect to New
    | RedirectToComplete(orderId: int)
    | RedirectToFailed
    | PaymentError(flash: string, errorMessage: string)   // the Error view
    | CreateCrash                                   // an exception escapes the action

  /** `Convert.ToDecimal` of the session's amount; `None` when it throws FormatException. */
  function ToDecimal(v: SessionAmount): Option<Money>
  {
    match v
    case Null => Some(0.0)
    case Amount(m) => Some(m)
    case Unconvertible => None
  }

  /**
   * `Create`: charges the session's amount for the session's order and acts on
   * the gateway's reply `sale`. `charged` is the amount a sale was asked for,
   * `None` when no sale was asked for.
   */
  method Create(db: Store, session: Session, sale: SaleResult)
    returns (outcome: CreateOutcome, charged: Option<Money>)
    requires db.Valid()
    modifies db`orders
    ensures db.Valid()
    ensures ToDecimal(session.totalCost).None? ==>
              outcome == RetryPayment(InvalidAmountFlash) && charged.None? && db.orders == old(db.orders)
    ensures ToDecimal(session.totalCost).Some? && session.orderId.None? ==>
              outcome == CreateCrash && charged.None? && db.orders == old(db.orders)
    ensures ToDecimal(session.totalCost).Some? && session.orderId.Some? ==>
              charged == ToDecimal(session.totalCost)
    ensures outcome.RedirectToComplete? <==>
              && ToDecimal(session.totalCost).Some? && session.orderId.Some?
              && sale.SaleSucceeded? && session.orderId.value in old(db.orders)
    ensures outcome.RedirectToComplete? ==>
              var id := session.orderId.value;
              && outcome.orderId == id
              && db.orders == old(db.orders)[id := old(db.orders[id]).(transactionId := Some(sale.transactionId))]
    ensures outcome.RedirectToFailed? <==>
              ToDecimal(session.totalCost).Some? && session.orderId.Some? && sale.SaleDeclined?
    ensures outcome.PaymentError? <==>
              && ToDecimal(session.totalCost).Some? && session.orderId.Some?
              && sale.SaleInvalid? && session.orderId.value in old(db.orders)
    ensures outcome.PaymentError? ==>
              && outcome.flash == ErrorText(sale.errors) && outcome.errorMessage == ErrorText(sale.errors)
              && db.orders == old(db.orders) - {session.orderId.value}
    ensures ToDecimal(session.totalCost).Some? && session.orderId.Some? && sale.SaleThrew? ==>
              outcome == CreateCrash
    ensures outcome.RetryPayment? || outcome.RedirectToFailed? || outcome.CreateCrash? ==>
              db.orders == old(db.orders)
  {
    var amount := ToDecimal(session.totalCost);
    if amount.None? {
      return RetryPayment(InvalidAmountFlash), None;
    }
    if session.orderId.None? {
      return CreateCrash, None;
    }
    var orderId := session.orderId.value;
    charged := amount;
    match sale {
      case SaleSucceeded(transactionId) =>
        if orderId !in db.orders {
          return CreateCrash, charged;
        }
        var order := db.orders[orderId];
        db.orders := db.orders[orderId := order.(transactionId := Some(transactionId))];
        outcome := RedirectToComplete(orderId);
      case SaleDeclined =>
        outcome := RedirectToFailed;
      case SaleInvalid(errors) =>
        var errorMessages := ErrorMessages(errors);
        var ok := FailedAction(db, session);
        if !ok {
          return CreateCrash, charged;
        }
        outcome := PaymentError(errorMessages, errorMessages);
      case SaleThrew =>
        outcome := CreateCrash;
    }
  }

  // ---------------------------------------------------------------------------
  // Complete

  datatype CompleteOutcome = CompleteView(orderId: int) | CompleteError | CompleteCrash

  /**
   * `Complete`: confirms the order by email, and by SMS when the user has a phone
   * number, only when the order exists and belongs to the current user; otherwise
   * the Error view. An order without a customer matches a signed-out user, and
   * reading that user's missing profile then throws after the email.
   */
  method Complete(db: Store, id: int, currentUserId: Option<string>, currentUser: Option<Profile>)
    returns (outcome: CompleteOutcome, notices: seq<Notice>)
    requires db.Valid()
    ensures outcome.CompleteError? <==> !(id in db.orders && db.orders[id].customerId == currentUserId)
    ensures outcome.CompleteError? ==> notices == []
    ensures !outcome.CompleteError? ==>
              && |notices| >= 1
              && notices[0] == ConfirmationEmail(db.orders[id].customerId, "Order Confirmation: #" + IntToString(id), id)
    ensures outcome.CompleteView? <==>
              id in db.orders && db.orders[id].customerId == currentUserId && currentUser.Some?
    ensures outcome.CompleteView? ==> outcome.orderId == id
    ensures outcome.CompleteView? ==>
              notices == [ConfirmationEmail(currentUserId, "Order Confirmation: #" + IntToString(id), id)]
                         + (if currentUser.value.phoneNumber.Some? then [ConfirmationSms(currentUserId, id)] else [])
    ensures forall n :: n in notices ==> n.ConfirmationEmail? || n.ConfirmationSms?
    ensures (exists k :: 0 <= k < |notices| && notices[k].ConfirmationSms?) ==>
              currentUser.Some? && currentUser.value.phoneNumber.Some?
  {
    var isValid := id in db.orders && db.orders[id].customerId == currentUserId;
    if !isValid {
      return CompleteError, [];
    }
    var order := db.orders[id];
    notices := [ConfirmationEmail(order.customerId, "Order Confirmation: #" + IntToString(order.id), order.id)];
    if currentUser.None? {
      return CompleteCrash, notices;
    }
    if currentUser.value.phoneNumber.Some? {
      notices := notices + [ConfirmationSms(order.customerId, order.id)];
    }
    outcome := CompleteView(id);
  }

  // ---------------------------------------------------------------------------
  // AddressAndPayment

  /**
   * The order `AddressAndPayment` saves: the address the form bound, the
   * customer id and email of the signed-in user, the names from the profile, the
   * current time, the cart's total, and the profile's phone number when it has
   * one. Only the names, the address and the phone decide whether it is valid.
   */
  function FilledOrder(form: Order, userId: Option<string>, identityName: Option<string>,
                       profile: Profile, now: Time, total: Money): (o: Order)
    ensures o.line1 == form.line1 && o.line2 == form.line2 && o.city == form.city
    ensures o.postalCode == form.postalCode && o.country == form.country
    ensures o.customerId == userId && o.email == identityName && o.orderDate == now && o.orderTotal == total
    ensures o.firstName == profile.firstName && o.lastName == profile.surname
    ensures o.phone == if profile.phoneNumber.Some? then profile.phoneNumber else form.phone
    ensures o.transactionId == form.transactionId
    ensures IsValid(o) <==>
              IsValid(form.(firstName := profile.firstName, lastName := profile.surname, phone := o.phone))
  {
    var o := form.(customerId := userId, email := identityName, firstName := profile.firstName,
                   lastName := profile.surname, orderDate := now, orderTotal := total);
    var o := if profile.phoneNumber.Some? then o.(phone := profile.phoneNumber) else o;
    UnannotatedColumns(form.(firstName := profile.firstName, lastName := profile.surname, phone := o.phone),
                       form.line2, identityName, now, total, userId, form.transactionId);
    o
  }

  datatype AddressOutcome =
    | RedirectToNew
    | Redisplay(order: Order)   // the catch returns the form with the order
    | AddressCrash              // an exception escapes the action

  /**
   * `AddressAndPayment` (POST): fills an order from the form `form` and the
   * signed-in user, saves it under the next order id, records the cart total and
   * the new id in the session, and turns the cart into the order's lines.
   *
   * Every exception is caught, but the catch reads `ex.InnerException`, which is
   * null for a missing profile, for the validation failure at SaveChanges and for
   * a product gone from the cart; the catch itself then throws. Only the
   * OrderDetails key clash, which comes wrapped, reaches the re-displayed form.
   */
  method AddressAndPayment(db: Store, session: Session, cart: ShoppingCart, form: Order,
                           userId: Option<string>, identityName: Option<string>,
                           currentUser: Option<Profile>, now: Time)
    returns (outcome: AddressOutcome)
    requires db.Valid() && cart.db == db
    modifies db`orders, db`nextOrderId, db`orderDetails, db`carts, session`totalCost, session`orderId
    ensures db.Valid()
    ensures currentUser.None? ==>
              && outcome == AddressCrash
              && db.orders == old(db.orders) && db.nextOrderId == old(db.nextOrderId)
              && session.totalCost == old(session.totalCost) && session.orderId == old(session.orderId)
    ensures currentUser.Some? ==>
              var total := Total(old(db.carts), db.products, cart.shoppingCartId);
              var order := FilledOrder(form, userId, identityName, currentUser.value, now, total);
              var saved := order.(id := old(db.nextOrderId));
              var items := CartItems(old(db.carts), cart.shoppingCartId);
              && (!IsValid(order) ==>
                    && outcome == AddressCrash
                    && db.orders == old(db.orders) && db.nextOrderId == old(db.nextOrderId)
                    && session.totalCost == old(session.totalCost) && session.orderId == old(session.orderId))
              && (IsValid(order) ==>
                    && db.orders == old(db.orders)[saved.id := saved]
                    && db.nextOrderId == old(db.nextOrderId) + 1
                    && session.totalCost == Amount(total)
                    && session.orderId == Some(saved.id)
                    && (outcome.AddressCrash? <==> !ProductsKnown(items, db.products))
                    && (outcome.Redisplay? <==>
                          ProductsKnown(items, db.products)
                          && !KeysUnique(old(db.orderDetails) + DetailsFor(items, db.products, saved)))
                    && (outcome.Redisplay? ==> outcome.order == saved)
                    && (outcome.RedirectToNew? ==>
                          && db.orderDetails == old(db.orderDetails) + DetailsFor(items, db.products, saved)
                          && db.carts == OtherCarts(old(db.carts), cart.shoppingCartId)
                          && DetailsTotal(DetailsFor(items, db.products, saved)) == saved.orderTotal))
    ensures !outcome.RedirectToNew? ==> db.orderDetails == old(db.orderDetails) && db.carts == old(db.carts)
  {
    if currentUser.None? {
      return AddressCrash;
    }
    var total := Total(db.carts, db.products, cart.shoppingCartId);
    var order := FilledOrder(form, userId, identityName, currentUser.value, now, total);
    if !IsValid(order) {
      return AddressCrash;
    }
    order := SaveOrder(db, order);
    var id := order.id;
    session.totalCost := Amount(Total(db.carts, db.products, cart.shoppingCartId));
    session.orderId := Some(id);
    var r, placed := cart.CreateOrder(order);
    match r {
      case ProductMissing => outcome := AddressCrash;
      case KeyClash => outcome := Redisplay(order);
      case Created(_) => outcome := RedirectToNew;
    }
  }

  /** `Orders.Add` and `SaveChanges`: the order is stored under the next value of the identity column. */
  method SaveOrder(db: Store, order: Order) returns (saved: Order)
    requires db.Valid()
    modifies db`orders, db`nextOrderId
    ensures db.Valid()
    ensures saved == order.(id := old(db.nextOrderId)) && saved.id !in old(db.orders)
    ensures db.orders == old(db.orders)[saved.id := saved] && db.nextOrderId == old(db.nextOrderId) + 1
  {
    saved := order.(id := db.nextOrderId);
    db.orders := db.orders[saved.id := saved];
    db.nextOrderId := saved.id + 1;
  }

  /**
   * A saved order's id has no lines yet, so its lines clash on the key exactly
   * when two rows of the cart hold the same product, which only `MigrateCart`
   * can bring about.
   */
  lemma NewOrderClash(db: Store, order: Order, items: seq<CartLine>, c: string)
    requires db.Valid() && order.id == db.nextOrderId
    requires ProductsKnown(items, db.products)
    requires forall i :: 0 <= i < |items| ==> items[i].cartId == c
    ensures !KeysUnique(db.orderDetails + DetailsFor(items, db.products, order)) <==>
              exists p :: Rows(items, c, p) >= 2
  {
    NewKeysUnique(db.orderDetails, items, db.products, order);
    DistinctProductsRows(items, c);
  }
}
