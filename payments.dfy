/**
 * The payment engine: one payment per order, created as an intent for a
 * PENDING order and then confirmed, failed, cancelled or refunded; each of
 * these steps also writes the status of the payment's order directly,
 * without consulting the order transition table.
 */
module PaymentService {
  import opened Statuses
  import opened Entities
  import opened Store
  import opened OrderService

  /** The currency every payment is recorded in. */
  const Currency: string := "INR"
  /** The prefix of the test external ids of online payments. */
  const IntentPrefix: string := "pi_test_"
  /** What the client secret appends to the external id. */
  const SecretSuffix: string := "_secret_test"

  /** The webhook event types the engine acts on. */
  const EventSucceeded: string := "payment_intent.succeeded"
  const EventFailed: string := "payment_intent.payment_failed"
  const EventCanceled: string := "payment_intent.canceled"

  /** A created payment, its id and the secret handed to the client (none for cash on delivery). */
  datatype PaymentIntent = PaymentIntent(paymentId: Id, payment: Payment, clientSecret: Option<string>)

  /** The payment lookups of the engine. */
  datatype PaymentQuery =
    | ForOrder(orderId: Id, liveOnly: bool)
    | ByExternalId(externalId: string)

  predicate Matches(q: PaymentQuery, p: Payment)
  {
    match q
    case ForOrder(orderId, liveOnly) => p.orderId == orderId && (!liveOnly || !p.deleted)
    case ByExternalId(externalId) => p.externalId == Some(externalId)
  }

  /** The first payment in row order that the query matches. */
  function FindPayment(ids: seq<Id>, payments: map<Id, Payment>, q: PaymentQuery): (found: Option<Id>)
    ensures found.Some? ==> found.value in ids && found.value in payments && Matches(q, payments[found.value])
    ensures found.None? ==> forall id :: id in ids && id in payments ==> !Matches(q, payments[id])
  {
    if ids == [] then None
    else if ids[0] in payments && Matches(q, payments[ids[0]]) then Some(ids[0])
    else FindPayment(ids[1..], payments, q)
  }

  /** In a valid store the lookup fails exactly when no payment matches. */
  lemma FindPaymentComplete(ids: seq<Id>, payments: map<Id, Payment>, q: PaymentQuery)
    requires Indexes(ids, payments)
    ensures FindPayment(ids, payments, q).None? <==> forall id :: id in payments ==> !Matches(q, payments[id])
  {
  }

  /** The order has a payment, removed or not. */
  ghost predicate HasPayment(payments: map<Id, Payment>, orderId: Id)
  {
    exists p :: p in payments && payments[p].orderId == orderId
  }

  /** A payment that has not been removed. */
  predicate IsLivePayment(payments: map<Id, Payment>, id: Id)
  {
    id in payments && !payments[id].deleted
  }

  /** The order with its status replaced. */
  function WithOrderStatus(orders: map<Id, Order>, id: Id, status: OrderStatus): (after: map<Id, Order>)
    requires id in orders
    ensures after.Keys == orders.Keys && after[id].status == status
    ensures forall o :: o in orders && o != id ==> after[o] == orders[o]
  {
    orders[id := orders[id].(status := status)]
  }

  /** Creating a payment for an order that has none keeps the store valid. */
  lemma InsertPaymentKeepsValid(products: map<Id, Product>, productIds: seq<Id>, categories: map<Id, Category>,
                                carts: map<Id, Id>, items: map<Id, CartItem>, itemIds: seq<Id>,
                                orders: map<Id, Order>, orderIds: seq<Id>, payments: map<Id, Payment>, paymentIds: seq<Id>,
                                addresses: map<Id, Address>, addressIds: seq<Id>,
                                paymentId: Id, payment: Payment, orders': map<Id, Order>)
    requires StoreValid(products, productIds, categories, carts, items, itemIds, orders, orderIds, payments, paymentIds, addresses, addressIds)
    requires paymentId !in payments && payment.orderId in orders && !HasPayment(payments, payment.orderId)
    requires orders'.Keys == orders.Keys
    ensures StoreValid(products, productIds, categories, carts, items, itemIds, orders', orderIds,
                       payments[paymentId := payment], [paymentId] + paymentIds, addresses, addressIds)
  {
    IndexesPrepend(paymentIds, payments, paymentId, payment);
    assert forall id :: id in orderIds <==> id in orders';
  }

  /** Rewriting the status fields of a payment and of orders keeps the store valid. */
  lemma StatusWritesKeepValid(products: map<Id, Product>, productIds: seq<Id>, categories: map<Id, Category>,
                              carts: map<Id, Id>, items: map<Id, CartItem>, itemIds: seq<Id>,
                              orders: map<Id, Order>, orderIds: seq<Id>, payments: map<Id, Payment>, paymentIds: seq<Id>,
                              addresses: map<Id, Address>, addressIds: seq<Id>,
                              paymentId: Id, payment: Payment, orders': map<Id, Order>)
    requires StoreValid(products, productIds, categories, carts, items, itemIds, orders, orderIds, payments, paymentIds, addresses, addressIds)
    requires paymentId in payments && payment.orderId == payments[paymentId].orderId
    requires orders'.Keys == orders.Keys
    ensures StoreValid(products, productIds, categories, carts, items, itemIds, orders', orderIds,
                       payments[paymentId := payment], paymentIds, addresses, addressIds)
  {
    assert forall id :: id in orderIds <==> id in orders';
  }

  /** Stores a new payment table, its id list and the order table, once they are known to keep the store valid. */
  method CommitPayment(db: Db, payments': map<Id, Payment>, paymentIds': seq<Id>, orders': map<Id, Order>)
    requires StoreValid(db.products, db.productIds, db.categories, db.carts, db.cartItems, db.cartItemIds,
                        orders', db.orderIds, payments', paymentIds', db.addresses, db.addressIds)
    modifies db`payments, db`paymentIds, db`orders
    ensures db.Valid()
    ensures db.payments == payments' && db.paymentIds == paymentIds' && db.orders == orders'
  {
    db.payments, db.paymentIds, db.orders := payments', paymentIds', orders';
  }

  /** Stores rewritten payment and order tables, once they are known to keep the store valid. */
  method CommitStatus(db: Db, payments': map<Id, Payment>, orders': map<Id, Order>)
    requires StoreValid(db.products, db.productIds, db.categories, db.carts, db.cartItems, db.cartItemIds,
                        orders', db.orderIds, payments', db.paymentIds, db.addresses, db.addressIds)
    modifies db`payments, db`orders
    ensures db.Valid()
    ensures db.payments == payments' && db.orders == orders'
  {
    db.payments, db.orders := payments', orders';
  }

  // ---------------------------------------------------------------------
  // createPaymentIntent
  // ---------------------------------------------------------------------

  /** The external id of a new payment: none for cash on delivery, else a test id from `intentSuffix`. */
  function ExternalIdFor(paidBy: PaymentMethod, intentSuffix: string): (externalId: Option<string>)
    ensures externalId.None? <==> paidBy == Cod
  {
    if paidBy == Cod then None else Some(IntentPrefix + intentSuffix)
  }

  /** The client secret: the external id with the secret suffix, when there is one. */
  function ClientSecret(externalId: Option<string>): (secret: Option<string>)
    ensures secret.None? <==> externalId.None?
    ensures secret.Some? ==>
      (&& |secret.value| == |externalId.value| + |SecretSuffix|
       && secret.value[..|externalId.value|] == externalId.value
       && secret.value[|externalId.value|..] == SecretSuffix)
  {
    match externalId
    case None => None
    case Some(id) => Some(id + SecretSuffix)
  }

  /**
   * `createPaymentIntent`: the user's live order must have no payment yet
   * (a removed one counts) and be PENDING. The payment is for the order's
   * total in INR; cash on delivery is SUCCEEDED at once and confirms the
   * order, any other method is PENDING with a test external id.
   */
  method CreatePaymentIntent(db: Db, userId: Id, orderId: Id, paidBy: PaymentMethod, paymentId: Id, intentSuffix: string)
    returns (r: Result<PaymentIntent>)
    requires db.Valid() && paymentId !in db.payments
    modifies db`payments, db`paymentIds, db`orders
    ensures db.Valid()
    ensures !IsUsersOrder(old(db.orders), orderId, userId) ==> r == Err(NotFound(OrderRecord))
    ensures IsUsersOrder(old(db.orders), orderId, userId) && HasPayment(old(db.payments), orderId) ==>
      r == Err(BadRequest(PaymentExists))
    ensures (IsUsersOrder(old(db.orders), orderId, userId) && !HasPayment(old(db.payments), orderId)
             && old(db.orders)[orderId].status != Pending) ==> r == Err(BadRequest(OrderNotPending))
    ensures r.Ok? <==> (&& IsUsersOrder(old(db.orders), orderId, userId) && !HasPayment(old(db.payments), orderId)
                        && old(db.orders)[orderId].status == Pending)
    ensures r.Err? ==> db.payments == old(db.payments) && db.paymentIds == old(db.paymentIds) && db.orders == old(db.orders)
    ensures r.Ok? ==>
      && IsUsersOrder(old(db.orders), orderId, userId) && old(db.orders)[orderId].status == Pending
      && r.value.paymentId == paymentId
      && db.payments == old(db.payments)[paymentId := r.value.payment] && db.paymentIds == [paymentId] + old(db.paymentIds)
      && r.value.payment.orderId == orderId && r.value.payment.amount == old(db.orders)[orderId].total
      && r.value.payment.currency == Currency && r.value.payment.paidBy == paidBy && !r.value.payment.deleted
      && r.value.payment.externalId == ExternalIdFor(paidBy, intentSuffix)
      && r.value.clientSecret == ClientSecret(r.value.payment.externalId)
    ensures r.Ok? && paidBy == Cod ==>
      r.value.payment.status == Succeeded && db.orders == WithOrderStatus(old(db.orders), orderId, Confirmed)
    ensures r.Ok? && paidBy != Cod ==>
      r.value.payment.status == PaymentPending && db.orders == old(db.orders)
  {
    if !IsUsersOrder(db.orders, orderId, userId) {
      return Err(NotFound(OrderRecord));
    }
    var existing := FindPayment(db.paymentIds, db.payments, ForOrder(orderId, false));
    FindPaymentComplete(db.paymentIds, db.payments, ForOrder(orderId, false));
    if existing.Some? {
      return Err(BadRequest(PaymentExists));
    }
    var order := db.orders[orderId];
    if order.status != Pending {
      return Err(BadRequest(OrderNotPending));
    }
    var externalId := ExternalIdFor(paidBy, intentSuffix);
    var payment := Payment(orderId, order.total, Currency, if paidBy == Cod then Succeeded else PaymentPending,
                           paidBy, externalId, false);
    var orders' := if paidBy == Cod then WithOrderStatus(db.orders, orderId, Confirmed) else db.orders;
    InsertPaymentKeepsValid(db.products, db.productIds, db.categories, db.carts, db.cartItems, db.cartItemIds,
                            db.orders, db.orderIds, db.payments, db.paymentIds, db.addresses, db.addressIds,
                            paymentId, payment, orders');
    CommitPayment(db, db.payments[paymentId := payment], [paymentId] + db.paymentIds, orders');
    r := Ok(PaymentIntent(paymentId, payment, ClientSecret(externalId)));
  }

  /** The order status cash on delivery writes is the table's move out of PENDING. */
  lemma CodConfirmIsATableMove()
    ensures CanTransition(Pending, Confirmed)
  {
  }

  // ---------------------------------------------------------------------
  // confirmPayment and refundPayment
  // ---------------------------------------------------------------------

  /**
   * `confirmPayment`: a live payment that has not SUCCEEDED becomes
   * SUCCEEDED with the given external reference, and its order becomes
   * CONFIRMED whatever its status was.
   */
  method ConfirmPayment(db: Db, paymentId: Id, reference: string) returns (r: Result<Payment>)
    requires db.Valid()
    modifies db`payments, db`orders
    ensures db.Valid()
    ensures !IsLivePayment(old(db.payments), paymentId) ==> r == Err(NotFound(PaymentRecord))
    ensures IsLivePayment(old(db.payments), paymentId) && old(db.payments)[paymentId].status == Succeeded ==>
      r == Err(BadRequest(AlreadyConfirmed))
    ensures IsLivePayment(old(db.payments), paymentId) && old(db.payments)[paymentId].status != Succeeded ==>
      var p := old(db.payments)[paymentId];
      && r == Ok(p.(status := Succeeded, externalId := Some(reference)))
      && db.payments == old(db.payments)[paymentId := r.value]
      && p.orderId in old(db.orders) && db.orders == WithOrderStatus(old(db.orders), p.orderId, Confirmed)
    ensures r.Err? ==> db.payments == old(db.payments) && db.orders == old(db.orders)
  {
    if !IsLivePayment(db.payments, paymentId) {
      return Err(NotFound(PaymentRecord));
    }
    var p := db.payments[paymentId];
    if p.status == Succeeded {
      return Err(BadRequest(AlreadyConfirmed));
    }
    var confirmed := p.(status := Succeeded, externalId := Some(reference));
    var orders' := WithOrderStatus(db.orders, p.orderId, Confirmed);
    StatusWritesKeepValid(db.products, db.productIds, db.categories, db.carts, db.cartItems, db.cartItemIds,
                          db.orders, db.orderIds, db.payments, db.paymentIds, db.addresses, db.addressIds,
                          paymentId, confirmed, orders');
    CommitStatus(db, db.payments[paymentId := confirmed], orders');
    r := Ok(confirmed);
  }

  /**
   * `refundPayment`: only a live SUCCEEDED payment not paid cash on delivery
   * is refunded; the payment and its order both become REFUNDED, whatever
   * the order's status was.
   */
  method RefundPayment(db: Db, paymentId: Id) returns (r: Result<Payment>)
    requires db.Valid()
    modifies db`payments, db`orders
    ensures db.Valid()
    ensures !IsLivePayment(old(db.payments), paymentId) ==> r == Err(NotFound(PaymentRecord))
    ensures IsLivePayment(old(db.payments), paymentId) && old(db.payments)[paymentId].status != Succeeded ==>
      r == Err(BadRequest(NotSucceeded))
    ensures (IsLivePayment(old(db.payments), paymentId) && old(db.payments)[paymentId].status == Succeeded
             && old(db.payments)[paymentId].paidBy == Cod) ==> r == Err(BadRequest(CodNotRefundable))
    ensures r.Ok? <==> (IsLivePayment(old(db.payments), paymentId) && old(db.payments)[paymentId].status == Succeeded
                        && old(db.payments)[paymentId].paidBy != Cod)
    ensures r.Ok? ==>
      var p := old(db.payments)[paymentId];
      && r.value == p.(status := PaymentRefunded)
      && db.payments == old(db.payments)[paymentId := r.value]
      && p.orderId in old(db.orders) && db.orders == WithOrderStatus(old(db.orders), p.orderId, Refunded)
    ensures r.Err? ==> db.payments == old(db.payments) && db.orders == old(db.orders)
  {
    if !IsLivePayment(db.payments, paymentId) {
      return Err(NotFound(PaymentRecord));
    }
    var p := db.payments[paymentId];
    if p.status != Succeeded {
      return Err(BadRequest(NotSucceeded));
    }
    if p.paidBy == Cod {
      return Err(BadRequest(CodNotRefundable));
    }
    var refunded := p.(status := PaymentRefunded);
    var orders' := WithOrderStatus(db.orders, p.orderId, Refunded);
    StatusWritesKeepValid(db.products, db.productIds, db.categories, db.carts, db.cartItems, db.cartItemIds,
                          db.orders, db.orderIds, db.payments, db.paymentIds, db.addresses, db.addressIds,
                          paymentId, refunded, orders');
    CommitStatus(db, db.payments[paymentId := refunded], orders');
    r := Ok(refunded);
  }

  // ---------------------------------------------------------------------
  // handleWebhook
  // ---------------------------------------------------------------------

  /** What a webhook event writes: the payment's new status and, for some events, the order's. */
  datatype WebhookEffect = WebhookEffect(payment: PaymentStatus, order: Option<OrderStatus>)

  /** The event types acted on; any other type writes nothing. */
  function EffectOf(eventType: string): (effect: Option<WebhookEffect>)
    ensures effect.Some? <==> eventType in {EventSucceeded, EventFailed, EventCanceled}
  {
    if eventType == EventSucceeded then Some(WebhookEffect(Succeeded, Some(Confirmed)))
    else if eventType == EventFailed then Some(WebhookEffect(Failed, None))
    else if eventType == EventCanceled then Some(WebhookEffect(PaymentCancelled, Some(Cancelled)))
    else None
  }

  /**
   * Only a success confirms the order and only a cancellation cancels it; a
   * failure leaves the order alone. None of these follows the transition
   * table: a success confirms even a cancelled order.
   */
  lemma WebhookEffects()
    ensures EffectOf(EventSucceeded) == Some(WebhookEffect(Succeeded, Some(Confirmed)))
    ensures EffectOf(EventFailed) == Some(WebhookEffect(Failed, None))
    ensures EffectOf(EventCanceled) == Some(WebhookEffect(PaymentCancelled, Some(Cancelled)))
    ensures !CanTransition(Cancelled, Confirmed)
  {
  }

  /**
   * `handleWebhook`: the payment with the event's external id, removed or
   * not, must exist, whatever the event type; then the event's effect, if
   * any, is written to the payment and its order.
   */
  method HandleWebhook(db: Db, eventType: string, externalId: string) returns (r: Outcome)
    requires db.Valid()
    modifies db`payments, db`orders
    ensures db.Valid()
    ensures r.Refused? <==> forall id :: id in old(db.payments) ==> old(db.payments)[id].externalId != Some(externalId)
    ensures r.Refused? ==> r.error == NotFound(PaymentRecord)
    ensures r.Refused? || EffectOf(eventType).None? ==> db.payments == old(db.payments) && db.orders == old(db.orders)
    ensures r.Done? && EffectOf(eventType).Some? ==>
      var id := FindPayment(old(db.paymentIds), old(db.payments), ByExternalId(externalId)).value;
      var p := old(db.payments)[id];
      var effect := EffectOf(eventType).value;
      && p.externalId == Some(externalId)
      && db.payments == old(db.payments)[id := p.(status := effect.payment)]
      && p.orderId in old(db.orders)
      && db.orders == if effect.order.Some? then WithOrderStatus(old(db.orders), p.orderId, effect.order.value) else old(db.orders)
  {
    var found := FindPayment(db.paymentIds, db.payments, ByExternalId(externalId));
    FindPaymentComplete(db.paymentIds, db.payments, ByExternalId(externalId));
    if found.None? {
      return Refused(NotFound(PaymentRecord));
    }
    var id := found.value;
    var effect := EffectOf(eventType);
    if effect.None? {
      return Done;
    }
    var p := db.payments[id];
    var updated := p.(status := effect.value.payment);
    var orders' := if effect.value.order.Some? then WithOrderStatus(db.orders, p.orderId, effect.value.order.value) else db.orders;
    StatusWritesKeepValid(db.products, db.productIds, db.categories, db.carts, db.cartItems, db.cartItemIds,
                          db.orders, db.orderIds, db.payments, db.paymentIds, db.addresses, db.addressIds,
                          id, updated, orders');
    CommitStatus(db, db.payments[id := updated], orders');
    r := Done;
  }

  // ---------------------------------------------------------------------
  // Reading payments
  // ---------------------------------------------------------------------

  /** `getPaymentDetails`: the live payment, else not found. */
  method GetPaymentDetails(db: Db, paymentId: Id) returns (r: Result<Payment>)
    ensures r.Ok? <==> IsLivePayment(db.payments, paymentId)
    ensures r.Ok? ==> r.value == db.payments[paymentId]
    ensures r.Err? ==> r.error == NotFound(PaymentRecord)
  {
    if !IsLivePayment(db.payments, paymentId) {
      return Err(NotFound(PaymentRecord));
    }
    r := Ok(db.payments[paymentId]);
  }

  /**
   * `getPaymentByOrder`: the order must be the user's live order, and then
   * the result is its live payment, else not found.
   */
  method GetPaymentByOrder(db: Db, userId: Id, orderId: Id) returns (r: Result<Payment>)
    requires db.Valid()
    ensures !IsUsersOrder(db.orders, orderId, userId) ==> r == Err(NotFound(OrderRecord))
    ensures IsUsersOrder(db.orders, orderId, userId) ==>
      (r == Err(NotFound(PaymentRecord)) <==> forall id :: id in db.payments ==> !(db.payments[id].orderId == orderId && !db.payments[id].deleted))
    ensures r.Ok? ==> exists id :: (&& IsLivePayment(db.payments, id) && db.payments[id] == r.value
                                    && r.value.orderId == orderId)
  {
    if !IsUsersOrder(db.orders, orderId, userId) {
      return Err(NotFound(OrderRecord));
    }
    var found := FindPayment(db.paymentIds, db.payments, ForOrder(orderId, true));
    FindPaymentComplete(db.paymentIds, db.payments, ForOrder(orderId, true));
    if found.None? {
      return Err(NotFound(PaymentRecord));
    }
    r := Ok(db.payments[found.value]);
  }
}
