/** The order resolver (src/resolvers/order.ts): the admin's status update
    with its two terminal statuses, and the customer's checkout, which sends
    the cart to PayPal and, once the payment is captured, stores the order
    and empties the cart. */
module OrderResolver {
  import opened Wrappers
  import opened Text
  import opened UserModel
  import opened Documents
  import opened Store
  import opened Helpers
  import Listing

  const ORDER_NOT_FOUND := "Order not found"
  const PAYMENT_LOCKED := "Payment status cannot be updated after being completed"
  const ORDER_LOCKED := "Order status cannot be updated after being delivered"
  const CART_EMPTY := "Cart is empty. Please add items to your cart"
  const COMPLETED := "COMPLETED"
  const DELIVERED := "DELIVERED"

  // ---------------------------------------------------------------------------
  // updateOrder

  /** The status checks of `updateOrder` against the stored order. Ok carries
      whether a confirmation e-mail is due. */
  function StatusGuard(stored: Order, paymentStatus: string, orderStatus: string): (r: Result<bool, Failure>)
    ensures r.Ok? <==> (stored.paymentStatus == COMPLETED ==> paymentStatus == COMPLETED) &&
                       (stored.orderStatus == DELIVERED ==> orderStatus == DELIVERED)
    ensures stored.paymentStatus == COMPLETED && paymentStatus != COMPLETED ==> r == Err(Fail(PAYMENT_LOCKED))
    ensures r.Err? && (stored.paymentStatus != COMPLETED || paymentStatus == COMPLETED) ==> r == Err(Fail(ORDER_LOCKED))
    ensures r.Ok? ==> (r.value <==> paymentStatus == COMPLETED && stored.paymentStatus != COMPLETED)
  {
    if stored.paymentStatus == COMPLETED && stored.paymentStatus != paymentStatus then Err(Fail(PAYMENT_LOCKED))
    else if stored.orderStatus == DELIVERED && stored.orderStatus != orderStatus then Err(Fail(ORDER_LOCKED))
    else Ok(paymentStatus == COMPLETED && stored.paymentStatus != COMPLETED)
  }

  /** `updateOrder({id, paymentStatus, orderStatus})`: the outcome, the orders
      afterwards and the e-mails sent; `mail` is the mail service's answer. */
  function UpdateOrderResult(orders: map<string, Order>, isValid: string -> bool, id: string,
                             paymentStatus: string, orderStatus: string, mail: Delivery)
    : (r: (Result<string, Failure>, map<string, Order>, seq<Effect>))
    ensures !isValid(id) ==> r.0 == Err(Fail(INVALID_ID))
    ensures isValid(id) && id !in orders ==> r.0 == Err(Fail(ORDER_NOT_FOUND))
    ensures r.0.Ok? <==> (isValid(id) && id in orders && StatusGuard(orders[id], paymentStatus, orderStatus).Ok? &&
      (StatusGuard(orders[id], paymentStatus, orderStatus).value ==> mail.Sent?))
    ensures r.0.Err? ==> r.1 == orders
    ensures r.0.Ok? ==> (r.0.value == SUCCESS &&
      r.1 == orders[id := orders[id].(paymentStatus := paymentStatus, orderStatus := orderStatus)])
    ensures r.2 == [OrderConfirmationMail(id)] <==>
      isValid(id) && id in orders && paymentStatus == COMPLETED && orders[id].paymentStatus != COMPLETED &&
      StatusGuard(orders[id], paymentStatus, orderStatus).Ok? && mail.Sent?
    ensures r.2 == [] || r.2 == [OrderConfirmationMail(id)]
  {
    if !isValid(id) then (Err(Fail(INVALID_ID)), orders, [])
    else if id !in orders then (Err(Fail(ORDER_NOT_FOUND)), orders, [])
    else
      var order := orders[id];
      match StatusGuard(order, paymentStatus, orderStatus)
      case Err(e) => (Err(e), orders, [])
      case Ok(due) =>
        if due && mail.Refused? then (Err(Fail(mail.message)), orders, [])
        else
          var sent := if due then [OrderConfirmationMail(id)] else [];
          (Ok(SUCCESS), orders[id := order.(paymentStatus := paymentStatus, orderStatus := orderStatus)], sent)
  }

  /** A run of update requests on one order, each with its mail answer. */
  function UpdateAll(orders: map<string, Order>, isValid: string -> bool, id: string,
                     requests: seq<(string, string, Delivery)>): map<string, Order>
  {
    if requests == [] then orders
    else
      var (p, s, mail) := requests[0];
      UpdateAll(UpdateOrderResult(orders, isValid, id, p, s, mail).1, isValid, id, requests[1..])
  }

  /** "COMPLETED" payment and "DELIVERED" order statuses are terminal: no run
      of updates, accepted or refused, moves an order out of them, and the
      order stays stored. */
  lemma {:induction false} StatusesAreTerminal(orders: map<string, Order>, isValid: string -> bool, id: string,
                                               requests: seq<(string, string, Delivery)>)
    requires id in orders
    ensures id in UpdateAll(orders, isValid, id, requests)
    ensures orders[id].paymentStatus == COMPLETED ==> UpdateAll(orders, isValid, id, requests)[id].paymentStatus == COMPLETED
    ensures orders[id].orderStatus == DELIVERED ==> UpdateAll(orders, isValid, id, requests)[id].orderStatus == DELIVERED
  {
    if requests != [] {
      var (p, s, mail) := requests[0];
      var next := UpdateOrderResult(orders, isValid, id, p, s, mail).1;
      assert id in next;
      assert orders[id].paymentStatus == COMPLETED ==> next[id].paymentStatus == COMPLETED;
      assert orders[id].orderStatus == DELIVERED ==> next[id].orderStatus == DELIVERED;
      StatusesAreTerminal(next, isValid, id, requests[1..]);
    }
  }

  /** A refused payment update is refused whatever order status it asks
      for: the payment check comes first. */
  lemma PaymentCheckedFirst(stored: Order, paymentStatus: string, s1: string, s2: string)
    requires stored.paymentStatus == COMPLETED && paymentStatus != COMPLETED
    ensures StatusGuard(stored, paymentStatus, s1) == StatusGuard(stored, paymentStatus, s2) == Err(Fail(PAYMENT_LOCKED))
  {
  }

  method UpdateOrder(db: Db, isValid: string -> bool, id: string, paymentStatus: string, orderStatus: string, mail: Delivery)
    returns (r: Result<string, Failure>)
    modifies db`orders, db`effects
    ensures var expected := UpdateOrderResult(old(db.orders), isValid, id, paymentStatus, orderStatus, mail);
      r == expected.0 && db.orders == expected.1 && db.effects == old(db.effects) + expected.2
  {
    if !isValid(id) {
      return Err(Fail(INVALID_ID));
    }
    if id !in db.orders {
      return Err(Fail(ORDER_NOT_FOUND));
    }
    var order := db.orders[id];
    if order.paymentStatus == COMPLETED && order.paymentStatus != paymentStatus {
      return Err(Fail(PAYMENT_LOCKED));
    }
    if order.orderStatus == DELIVERED && order.orderStatus != orderStatus {
      return Err(Fail(ORDER_LOCKED));
    }
    if paymentStatus == COMPLETED && order.paymentStatus != COMPLETED {
      if mail.Refused? {
        return Err(Fail(mail.message));
      }
      db.Emit(OrderConfirmationMail(id));
    }
    db.orders := db.orders[id := order.(paymentStatus := paymentStatus, orderStatus := orderStatus)];
    return Ok(SUCCESS);
  }

  // ---------------------------------------------------------------------------
  // createOrder

  /** `createOrder()` by user `callerId`. `referenceId` is the ObjectId the
      request body is generated with and `created` PayPal's answer: the new
      PayPal order id, or the error message. Besides the outcome it returns
      the request body sent to PayPal, if one was sent. */
  method CreateOrder(db: Db, callerId: string, referenceId: string, created: Result<string, string>)
    returns (r: Result<string, Failure>, sent: Option<OrderRequestBody>)
    ensures callerId !in db.users ==> r == Err(Fail(USER_NOT_FOUND)) && sent == None
    ensures callerId in db.users && Populate(db.users[callerId].carts, db.products) == [] ==>
      r == Err(Fail(CART_EMPTY)) && sent == None
    ensures sent.Some? <==> callerId in db.users && Populate(db.users[callerId].carts, db.products) != []
    ensures sent.Some? ==>
      var products := Populate(db.users[callerId].carts, db.products);
      sent.value == GenerateOrderRequestBody(products, 0, referenceId) &&
      ParseMoney(sent.value.purchaseUnits[0].amount.breakdown.shipping.value) == Some(0) &&
      ParseMoney(sent.value.purchaseUnits[0].amount.value) == Some(ItemTotal(CartValues(products)) * 100)
    ensures r.Ok? <==> sent.Some? && created.Ok?
    ensures r.Ok? ==> r.value == created.value
    ensures sent.Some? && created.Err? ==> r == Err(Fail(created.error))
  {
    sent := None;
    if callerId !in db.users {
      return Err(Fail(USER_NOT_FOUND)), sent;
    }
    var user := db.users[callerId];
    var products := Populate(user.carts, db.products);
    if |products| == 0 {
      return Err(Fail(CART_EMPTY)), sent;
    }
    var body := GenerateOrderRequestBody(products, 0, referenceId);
    sent := Some(body);
    match created {
      case Ok(id) => r := Ok(id);
      case Err(message) => r := Err(Fail(message));
    }
  }

  // ---------------------------------------------------------------------------
  // captureOrder

  /** `captureOrder(orderID)` by user `callerId`: `capture` is PayPal's answer
      to the capture request, `newId` the id of the stored order, `confirm`
      and `notify` the mail service's answers. Returns the outcome, the users
      and orders afterwards, and the e-mails sent. */
  function CaptureOrderResult(users: map<string, User>, products: map<string, Product>, orders: map<string, Order>,
                              callerId: string, capture: Result<CaptureResult, string>, newId: string,
                              confirm: Delivery, notify: Delivery)
    : (r: (Result<string, Failure>, map<string, User>, map<string, Order>, seq<Effect>))
  {
    match CapturedOrder(users, products, callerId, capture)
    case Err(e) => (Err(e), users, orders, [])
    case Ok(order) => StoreCapture(users, orders, callerId, order, newId, capture.value.id, confirm, notify)
  }

  /** The order document a capture creates: the caller must exist, PayPal
      must have captured the payment with a capture in its response, and the
      order schema must accept the fields. The order then holds one item per
      distinct product of the cart, with quantities adding up to the cart's
      length, and no PayPal fee. */
  function CapturedOrder(users: map<string, User>, products: map<string, Product>, callerId: string,
                         capture: Result<CaptureResult, string>): (r: Result<Order, Failure>)
    ensures callerId !in users ==> r == Err(Fail(USER_NOT_FOUND))
    ensures callerId in users && capture.Err? ==> r == Err(Fail(capture.error))
    ensures r.Ok? <==> (callerId in users && capture.Ok? &&
      var built := GenerateOrderDocumentFields(Populate(users[callerId].carts, products), capture.value, users[callerId]);
      built.Ok? && OrderSchemaAccepts(built.value))
    ensures (callerId in users && capture.Ok? &&
      GenerateOrderDocumentFields(Populate(users[callerId].carts, products), capture.value, users[callerId]).Ok? &&
      r.Err?) ==> r == Err(Fail(ORDER_VALIDATION_FAILED))
    ensures r.Ok? ==>
      var cart := Populate(users[callerId].carts, products);
      && |r.value.items| == |CartValues(cart)| && ItemQuantities(r.value.items) == |cart|
      && r.value.paymentStatus == capture.value.status && r.value.payPalFee.None?
  {
    if callerId !in users then Err(Fail(USER_NOT_FOUND))
    else if capture.Err? then Err(Fail(capture.error))
    else
      var user := users[callerId];
      var cart := Populate(user.carts, products);
      match GenerateOrderDocumentFields(cart, capture.value, user)
      case Err(e) => Err(e)
      case Ok(fields) =>
        if !OrderSchemaAccepts(fields) then CreateOrderDocument(fields)
        else
          CreatedOrderCountsEveryProduct(cart, capture.value, user);
          CreateOrderDocument(fields)
  }

  /** The created order keeps the built items and the payment status. */
  lemma CreatedOrderCountsEveryProduct(cart: seq<Product>, response: CaptureResult, user: User)
    requires GenerateOrderDocumentFields(cart, response, user).Ok?
    requires CreateOrderDocument(GenerateOrderDocumentFields(cart, response, user).value).Ok?
    ensures var order := CreateOrderDocument(GenerateOrderDocumentFields(cart, response, user).value).value;
      |order.items| == |CartValues(cart)| && ItemQuantities(order.items) == |cart| &&
      order.paymentStatus == response.status && order.payPalFee.None?
  {
    var built := GenerateOrderDocumentFields(cart, response, user).value;
    var order := CreateOrderDocument(built).value;
    assert order.items == built.items && order.paymentStatus == built.paymentStatus;
    OrderDocumentCountsEveryProduct(cart, response, user);
  }

  /** The part of `captureOrder` after the order document is created: store
      it, empty the cart, then the two e-mails. The order goes in under
      `newId`, the cart is emptied, the confirmation goes out for a
      completed payment the mail service accepts, and success means every
      e-mail went out, the admin notification last. */
  function StoreCapture(users: map<string, User>, orders: map<string, Order>, callerId: string, order: Order,
                        newId: string, payPalId: string, confirm: Delivery, notify: Delivery)
    : (r: (Result<string, Failure>, map<string, User>, map<string, Order>, seq<Effect>))
    requires callerId in users
    ensures newId in r.2 && r.2 == orders[newId := order] && r.2[newId] == order
    ensures r.1 == users[callerId := users[callerId].(carts := [])]
    ensures OrderConfirmationMail(newId) in r.3 <==> order.paymentStatus == COMPLETED && confirm.Sent?
    ensures r.0.Ok? <==> (order.paymentStatus == COMPLETED ==> confirm.Sent?) && notify.Sent?
    ensures r.0.Ok? ==> r.0.value == payPalId && |r.3| > 0 && r.3[|r.3| - 1] == OrderAdminNotification(newId)
    ensures r.0.Err? ==> OrderAdminNotification(newId) !in r.3
  {
    var orders' := orders[newId := order];
    var users' := users[callerId := users[callerId].(carts := [])];
    if order.paymentStatus == COMPLETED && confirm.Refused? then
      (Err(Fail(confirm.message)), users', orders', [])
    else
      var confirmed := if order.paymentStatus == COMPLETED then [OrderConfirmationMail(newId)] else [];
      if notify.Refused? then (Err(Fail(notify.message)), users', orders', confirmed)
      else (Ok(payPalId), users', orders', confirmed + [OrderAdminNotification(newId)])
  }

  /** What a capture leaves behind. When no order is created nothing
      changes and nothing is sent. Otherwise the order goes in under the new
      id, the cart is empty, a confirmation goes out exactly when the
      payment is "COMPLETED" and the mail service accepts it, and success,
      which returns PayPal's id, needs every due mail sent and ends with the
      admin notification. */
  lemma CaptureOrderEffects(users: map<string, User>, products: map<string, Product>, orders: map<string, Order>,
                            callerId: string, capture: Result<CaptureResult, string>, newId: string,
                            confirm: Delivery, notify: Delivery)
    ensures var r := CaptureOrderResult(users, products, orders, callerId, capture, newId, confirm, notify);
      var c := CapturedOrder(users, products, callerId, capture);
      && (c.Err? ==> r == (Err(c.error), users, orders, []))
      && (c.Ok? ==>
        && r.2 == orders[newId := c.value]
        && r.1 == users[callerId := users[callerId].(carts := [])]
        && (OrderConfirmationMail(newId) in r.3 <==> capture.value.status == COMPLETED && confirm.Sent?)
        && (r.0.Ok? <==> (capture.value.status == COMPLETED ==> confirm.Sent?) && notify.Sent?)
        && (r.0.Ok? ==> r.0.value == capture.value.id && |r.3| > 0 && r.3[|r.3| - 1] == OrderAdminNotification(newId)))
  {
  }

  method CaptureOrder(db: Db, callerId: string, capture: Result<CaptureResult, string>, newId: string,
                      confirm: Delivery, notify: Delivery)
    returns (r: Result<string, Failure>)
    requires db.Valid() && newId !in db.orders
    modifies db`users, db`orders, db`effects
    ensures db.Valid()
    ensures var expected := CaptureOrderResult(old(db.users), db.products, old(db.orders), callerId, capture, newId, confirm, notify);
      r == expected.0 && db.users == expected.1 && db.orders == expected.2 && db.effects == old(db.effects) + expected.3
  {
    if callerId !in db.users {
      return Err(Fail(USER_NOT_FOUND));
    }
    var user := db.users[callerId];
    if capture.Err? {
      return Err(Fail(capture.error));
    }
    var response := capture.value;
    var products := Populate(user.carts, db.products);
    var fields := GenerateOrderDocumentFields(products, response, user);
    if fields.Err? {
      return Err(fields.error);
    }
    var created := CreateOrderDocument(fields.value);
    if created.Err? {
      return Err(created.error);
    }
    r := StoreCapturedOrder(db, callerId, created.value, newId, response.id, confirm, notify);
  }

  method StoreCapturedOrder(db: Db, callerId: string, order: Order, newId: string, payPalId: string,
                            confirm: Delivery, notify: Delivery)
    returns (r: Result<string, Failure>)
    requires db.Valid() && callerId in db.users
    modifies db`users, db`orders, db`effects
    ensures db.Valid()
    ensures var expected := StoreCapture(old(db.users), old(db.orders), callerId, order, newId, payPalId, confirm, notify);
      r == expected.0 && db.users == expected.1 && db.orders == expected.2 && db.effects == old(db.effects) + expected.3
  {
    var user := db.users[callerId];
    assert user.id == callerId;
    db.orders := db.orders[newId := order];
    db.SaveUser(user.(carts := []));
    if order.paymentStatus == COMPLETED {
      if confirm.Refused? {
        return Err(Fail(confirm.message));
      }
      db.Emit(OrderConfirmationMail(newId));
    }
    if notify.Refused? {
      return Err(Fail(notify.message));
    }
    db.Emit(OrderAdminNotification(newId));
    return Ok(payPalId);
  }

  // ---------------------------------------------------------------------------
  // orders, userOrders, order

  /** `orders(params)`: every order, and the options of the page. */
  method OrdersQuery(db: Db, params: Listing.ParamsArgs) returns (items: map<string, Order>, options: Listing.QueryOptions)
    ensures items == db.orders
    ensures options == Listing.QueryOptionsFor(Some(params))
  {
    options := Listing.BuildQueryOptions(Some(params));
    items := db.orders;
  }

  /** `userOrders()`: the ids of the caller's orders. */
  function UserOrders(orders: map<string, Order>, callerId: string): (ids: set<string>)
    ensures forall id :: id in ids <==> id in orders && orders[id].user == callerId
  {
    set id | id in orders && orders[id].user == callerId
  }

  /** `order(id)` */
  method OrderQuery(db: Db, isValid: string -> bool, id: string) returns (r: Result<Order, Failure>)
    ensures r.Ok? <==> isValid(id) && id in db.orders
    ensures r.Ok? ==> r.value == db.orders[id]
    ensures isValid(id) && id !in db.orders ==> r == Err(Fail(ORDER_NOT_FOUND))
  {
    r := FindById(db.orders, isValid, id, ORDER_NOT_FOUND);
  }
}
