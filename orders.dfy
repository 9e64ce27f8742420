/**
 * The order engine: checkout turns the live lines of a user's cart into a
 * PENDING order priced from the current product prices, debits each
 * product's stock and marks the cart's lines removed; the status of an order
 * then moves only along the transition table.
 */
module OrderService {
  import opened Statuses
  import opened Entities
  import opened Pricing
  import opened Paging
  import opened Store

  // ---------------------------------------------------------------------
  // Checkout
  // ---------------------------------------------------------------------

  /** The live lines checkout reads: none when the user has no cart. */
  function CheckoutLines(carts: map<Id, Id>, ids: seq<Id>, items: map<Id, CartItem>, products: map<Id, Product>, userId: Id)
    : (lines: seq<CartLine>)
    ensures userId in carts ==> lines == LiveCartLines(ids, items, products, carts[userId])
    ensures forall l :: l in lines ==> userId in carts && LoadedFrom(l, ids, items, products, carts[userId]) && !l.item.deleted
  {
    if userId in carts then LiveCartLines(ids, items, products, carts[userId]) else []
  }

  /** Why one line cannot be bought, if it cannot: an inactive product first, then too little stock. */
  function LineProblem(line: CartLine): (problem: Option<Reason>)
    ensures problem.None? <==> line.product.isActive && line.product.stock >= line.item.quantity
    ensures problem.Some? ==> problem.value in {LineNotAvailable(line.item.productId), LineStockShort(line.item.productId)}
  {
    if !line.product.isActive then Some(LineNotAvailable(line.item.productId))
    else if line.product.stock < line.item.quantity then Some(LineStockShort(line.item.productId))
    else None
  }

  /** The problem of the first line, in cart order, that cannot be bought. */
  function FirstProblem(lines: seq<CartLine>): (problem: Option<Reason>)
    ensures problem.None? <==> forall k :: 0 <= k < |lines| ==> LineProblem(lines[k]).None?
  {
    if lines == [] then None
    else if LineProblem(lines[0]).Some? then LineProblem(lines[0])
    else
      assert forall k :: 1 <= k < |lines| ==> lines[k] == lines[1..][k - 1];
      FirstProblem(lines[1..])
  }

  /** The problem reported is that of a line all of whose predecessors can be bought. */
  lemma {:induction false} FirstProblemIsFirst(lines: seq<CartLine>)
    requires FirstProblem(lines).Some?
    ensures exists k :: (&& 0 <= k < |lines| && FirstProblem(lines) == LineProblem(lines[k])
                         && forall j :: 0 <= j < k ==> LineProblem(lines[j]).None?)
  {
    if LineProblem(lines[0]).None? {
      FirstProblemIsFirst(lines[1..]);
      var k :| 0 <= k < |lines[1..]| && FirstProblem(lines[1..]) == LineProblem(lines[1..][k])
        && forall j :: 0 <= j < k ==> LineProblem(lines[1..][j]).None?;
      assert lines[k + 1] == lines[1..][k];
      forall j | 0 <= j < k + 1
        ensures LineProblem(lines[j]).None?
      {
        if j > 0 {
          assert lines[j] == lines[1..][j - 1];
        }
      }
    } else {
      assert FirstProblem(lines) == LineProblem(lines[0]);
    }
  }

  /** The validation loop of checkout: stops at the first line that cannot be bought. */
  method CheckLines(lines: seq<CartLine>) returns (problem: Option<Reason>)
    ensures problem == FirstProblem(lines)
  {
    var i := 0;
    while i < |lines|
      invariant 0 <= i <= |lines|
      invariant FirstProblem(lines[i..]) == FirstProblem(lines)
    {
      assert lines[i..][1..] == lines[i + 1..];
      problem := LineProblem(lines[i]);
      if problem.Some? {
        return;
      }
      i := i + 1;
    }
    assert lines[i..] == [];
    problem := None;
  }

  /** A live address of the user. */
  predicate IsUsersAddress(addresses: map<Id, Address>, id: Id, userId: Id)
  {
    id in addresses && addresses[id].userId == userId && !addresses[id].deleted
  }

  /** The billing address id: the one given unless it is absent or empty, else the shipping address id. */
  function BillingId(shippingAddressId: Id, billingAddressId: Option<Id>): (id: Id)
    ensures id == shippingAddressId || (billingAddressId == Some(id) && id != "")
    ensures billingAddressId.Some? && billingAddressId.value != "" ==> id == billingAddressId.value
  {
    if billingAddressId.Some? && billingAddressId.value != "" then billingAddressId.value else shippingAddressId
  }

  /** The order checkout inserts for the lines. */
  function PlacedOrder(orderNumber: string, userId: Id, shippingAddressId: Id, billingAddressId: Id,
                       notes: Option<string>, lines: seq<CartLine>): Order
  {
    var subtotal := Subtotal(lines);
    Order(orderNumber, userId, Pending, subtotal, Tax(subtotal), ShippingCost(subtotal), 0.0, Total(subtotal),
          shippingAddressId, billingAddressId, notes, OrderItems(lines), false)
  }

  /**
   * A placed order is PENDING with no discount; its lines are the cart's
   * lines at current prices, their totals add up to the subtotal, and the
   * total is the subtotal plus 18% tax plus shipping, which is free exactly
   * above 500.
   */
  lemma PlacedOrderAddsUp(orderNumber: string, userId: Id, shippingAddressId: Id, billingAddressId: Id,
                          notes: Option<string>, lines: seq<CartLine>)
    ensures var o := PlacedOrder(orderNumber, userId, shippingAddressId, billingAddressId, notes, lines);
      && o.status == Pending && o.discount == 0.0 && !o.deleted && o.userId == userId
      && |o.items| == |lines|
      && (forall k :: 0 <= k < |lines| ==>
            o.items[k].productId == lines[k].item.productId && o.items[k].quantity == lines[k].item.quantity
            && o.items[k].price == lines[k].product.price
            && o.items[k].total == lines[k].product.price * lines[k].item.quantity as real)
      && ItemsTotal(o.items) == o.subtotal
      && o.tax == o.subtotal * 18.0 / 100.0
      && (o.shippingCost == 0.0 <==> o.subtotal > 500.0)
      && o.total == o.subtotal + o.tax + o.shippingCost
  {
    OrderItemsAddUp(lines);
    TotalBreakdown(Subtotal(lines));
  }

  /**
   * Checkout's stock transaction: each line's product loses the line's
   * quantity, in cart order, and the new stock levels are committed
   * together.
   */
  method DebitStock(products: map<Id, Product>, lines: seq<CartLine>) returns (after: map<Id, Product>)
    requires forall k :: 0 <= k < |lines| ==> lines[k].item.productId in products
    ensures after == Debit(products, lines)
  {
    DebitNothing(products);
    after := products;
    var i := 0;
    while i < |lines|
      invariant 0 <= i <= |lines|
      invariant after == Debit(products, lines[..i])
    {
      var p := lines[i].item.productId;
      DebitOneMore(products, lines[..i], lines[i]);
      assert lines[..i + 1] == lines[..i] + [lines[i]];
      after := after[p := after[p].(stock := after[p].stock - lines[i].item.quantity)];
      i := i + 1;
    }
    assert lines[..i] == lines;
  }

  lemma DebitNothing(products: map<Id, Product>)
    ensures Debit(products, []) == products
  {
  }

  /** Debiting one more line lowers only that line's product's stock, by the line's quantity. */
  lemma DebitOneMore(products: map<Id, Product>, lines: seq<CartLine>, line: CartLine)
    requires line.item.productId in products
    ensures var before := Debit(products, lines);
      var p := line.item.productId;
      Debit(products, lines + [line]) == before[p := before[p].(stock := before[p].stock - line.item.quantity)]
  {
    assert (lines + [line])[..|lines|] == lines;
  }

  /** The three writes of a checkout keep the store constraints. */
  lemma CheckoutKeepsValid(products: map<Id, Product>, productIds: seq<Id>, categories: map<Id, Category>,
                           carts: map<Id, Id>, items: map<Id, CartItem>, itemIds: seq<Id>,
                           orders: map<Id, Order>, orderIds: seq<Id>, payments: map<Id, Payment>, paymentIds: seq<Id>,
                           addresses: map<Id, Address>, addressIds: seq<Id>,
                           orderId: Id, order: Order, lines: seq<CartLine>, cartId: Id,
                           products': map<Id, Product>, items': map<Id, CartItem>, orders': map<Id, Order>, orderIds': seq<Id>)
    requires StoreValid(products, productIds, categories, carts, items, itemIds, orders, orderIds, payments, paymentIds, addresses, addressIds)
    requires orderId !in orders
    requires products' == Debit(products, lines) && items' == Cleared(items, cartId)
    requires orders' == orders[orderId := order] && orderIds' == [orderId] + orderIds
    ensures StoreValid(products', productIds, categories, carts, items', itemIds, orders', orderIds', payments, paymentIds, addresses, addressIds)
  {
    IndexesPrepend(orderIds, orders, orderId, order);
    DebitKeepsCatalog(products, categories, carts, items, lines);
    ClearedKeepsCarts(carts, items, products', cartId);
    assert PaymentsValid(payments, orders');
  }

  /**
   * The writes of a checkout that passed its checks: the order is inserted
   * newest first, the stock of the lines' products is debited and every line
   * of the cart is marked removed.
   */
  method Place(db: Db, orderId: Id, order: Order, lines: seq<CartLine>, cartId: Id)
    requires db.Valid() && orderId !in db.orders
    requires forall k :: 0 <= k < |lines| ==> lines[k].item.productId in db.products
    modifies db`orders, db`orderIds, db`products, db`cartItems
    ensures db.Valid()
    ensures db.orders == old(db.orders)[orderId := order] && db.orderIds == [orderId] + old(db.orderIds)
    ensures db.products == Debit(old(db.products), lines)
    ensures db.cartItems == Cleared(old(db.cartItems), cartId)
  {
    var debited := DebitStock(db.products, lines);
    var cleared := Cleared(db.cartItems, cartId);
    var orders', orderIds' := db.orders[orderId := order], [orderId] + db.orderIds;
    CheckoutKeepsValid(db.products, db.productIds, db.categories, db.carts, db.cartItems, db.cartItemIds,
                       db.orders, db.orderIds, db.payments, db.paymentIds, db.addresses, db.addressIds, orderId, order, lines, cartId,
                       debited, cleared, orders', orderIds');
    Commit(db, orders', orderIds', debited, cleared);
  }

  /** Stores the four tables a checkout writes, once they are known to keep the store valid. */
  method Commit(db: Db, orders': map<Id, Order>, orderIds': seq<Id>, products': map<Id, Product>, items': map<Id, CartItem>)
    requires StoreValid(products', db.productIds, db.categories, db.carts, items', db.cartItemIds,
                        orders', orderIds', db.payments, db.paymentIds, db.addresses, db.addressIds)
    modifies db`orders, db`orderIds, db`products, db`cartItems
    ensures db.Valid()
    ensures db.orders == orders' && db.orderIds == orderIds' && db.products == products' && db.cartItems == items'
  {
    db.orders, db.orderIds, db.products, db.cartItems := orders', orderIds', products', items';
  }

  /**
   * `create`: refuses an empty cart, then the first line that cannot be
   * bought, then a shipping or billing address that is not the user's live
   * address; otherwise inserts the PENDING order under `orderId` (newest
   * first), debits the stock of every line's product and marks every line of
   * the cart removed. A refused checkout changes nothing.
   */
  method Create(db: Db, userId: Id, shippingAddressId: Id, billingAddressId: Option<Id>, notes: Option<string>,
                orderId: Id, orderNumber: string) returns (r: Result<Order>)
    requires db.Valid() && orderId !in db.orders
    modifies db`orders, db`orderIds, db`products, db`cartItems
    ensures db.Valid()
    ensures var lines := CheckoutLines(old(db.carts), old(db.cartItemIds), old(db.cartItems), old(db.products), userId);
      && (lines == [] ==> r == Err(BadRequest(CartEmpty)))
      && (lines != [] && FirstProblem(lines).Some? ==> r == Err(BadRequest(FirstProblem(lines).value)))
      && (lines != [] && FirstProblem(lines).None? && !IsUsersAddress(old(db.addresses), shippingAddressId, userId) ==>
            r == Err(NotFound(ShippingAddress)))
      && (lines != [] && FirstProblem(lines).None? && IsUsersAddress(old(db.addresses), shippingAddressId, userId)
          && !IsUsersAddress(old(db.addresses), BillingId(shippingAddressId, billingAddressId), userId) ==>
            r == Err(NotFound(BillingAddress)))
      && (r.Ok? ==>
            && r.value == PlacedOrder(orderNumber, userId, shippingAddressId, BillingId(shippingAddressId, billingAddressId), notes, lines)
            && db.orders == old(db.orders)[orderId := r.value] && db.orderIds == [orderId] + old(db.orderIds)
            && db.products == Debit(old(db.products), lines)
            && db.cartItems == Cleared(old(db.cartItems), old(db.carts)[userId]))
    ensures var lines := CheckoutLines(old(db.carts), old(db.cartItemIds), old(db.cartItems), old(db.products), userId);
      r.Ok? <==> (&& lines != [] && FirstProblem(lines).None?
                  && IsUsersAddress(old(db.addresses), shippingAddressId, userId)
                  && IsUsersAddress(old(db.addresses), BillingId(shippingAddressId, billingAddressId), userId))
    ensures r.Err? ==>
      && db.orders == old(db.orders) && db.orderIds == old(db.orderIds)
      && db.products == old(db.products) && db.cartItems == old(db.cartItems)
  {
    var lines := CheckoutLines(db.carts, db.cartItemIds, db.cartItems, db.products, userId);
    if lines == [] {
      return Err(BadRequest(CartEmpty));
    }
    assert lines[0] in lines;
    var cartId := db.carts[userId];
    var problem := CheckLines(lines);
    if problem.Some? {
      return Err(BadRequest(problem.value));
    }
    if !IsUsersAddress(db.addresses, shippingAddressId, userId) {
      return Err(NotFound(ShippingAddress));
    }
    var billingId := BillingId(shippingAddressId, billingAddressId);
    if !IsUsersAddress(db.addresses, billingId, userId) {
      return Err(NotFound(BillingAddress));
    }
    var order := PlacedOrder(orderNumber, userId, shippingAddressId, billingId, notes, lines);
    forall k | 0 <= k < |lines|
      ensures lines[k].item.productId in db.products
    {
      assert lines[k] in lines;
    }
    Place(db, orderId, order, lines, cartId);
    r := Ok(order);
  }

  /**
   * After a successful checkout every bought product's stock is its old
   * stock minus the quantity of its line, and is not negative: the lines name
   * distinct products and each passed the stock check.
   */
  lemma CheckoutStockStaysNonNegative(carts: map<Id, Id>, ids: seq<Id>, items: map<Id, CartItem>, products: map<Id, Product>, userId: Id)
    requires Indexes(ids, items) && LiveLinesUnique(items)
    requires var lines := CheckoutLines(carts, ids, items, products, userId); FirstProblem(lines).None?
    ensures var lines := CheckoutLines(carts, ids, items, products, userId);
      forall k :: 0 <= k < |lines| ==>
        Debit(products, lines)[lines[k].item.productId].stock == products[lines[k].item.productId].stock - lines[k].item.quantity >= 0
  {
    var lines := CheckoutLines(carts, ids, items, products, userId);
    if userId in carts {
      assert NoDuplicates(ids);
      LiveLinesDistinctProducts(ids, items, products, carts[userId]);
      forall k | 0 <= k < |lines|
        ensures lines[k].item.productId in products && products[lines[k].item.productId].stock >= lines[k].item.quantity
      {
        assert lines[k] in lines;
        assert LineProblem(lines[k]).None?;
      }
      DebitWithinStock(products, lines);
    }
  }

  /** After a successful checkout the cart has no live line left, so checking out again is refused as an empty cart. */
  lemma CheckoutEmptiesCart(carts: map<Id, Id>, ids: seq<Id>, items: map<Id, CartItem>, products: map<Id, Product>, userId: Id)
    requires userId in carts
    ensures CheckoutLines(carts, ids, Cleared(items, carts[userId]), products, userId) == []
  {
    ClearedCartHasNoLiveLines(ids, items, products, carts[userId]);
  }

  // ---------------------------------------------------------------------
  // Reading orders
  // ---------------------------------------------------------------------

  /** An order of the user that has not been deleted. */
  predicate IsUsersOrder(orders: map<Id, Order>, id: Id, userId: Id)
  {
    id in orders && orders[id].userId == userId && !orders[id].deleted
  }

  /**
   * The user's orders in the row order of `ids` (newest first), leaving out
   * deleted ones unless `withDeleted`.
   */
  function UserOrderIds(ids: seq<Id>, orders: map<Id, Order>, userId: Id, withDeleted: bool): (mine: seq<Id>)
    ensures |mine| <= |ids|
    ensures forall id :: id in mine <==>
      id in ids && id in orders && orders[id].userId == userId && (withDeleted || !orders[id].deleted)
  {
    if ids == [] then []
    else
      var rest := UserOrderIds(ids[1..], orders, userId, withDeleted);
      var id := ids[0];
      if id in orders && orders[id].userId == userId && (withDeleted || !orders[id].deleted) then [id] + rest else rest
  }

  /** Selecting from distinct ids gives distinct ids. */
  lemma {:induction false} UserOrderIdsDistinct(ids: seq<Id>, orders: map<Id, Order>, userId: Id, withDeleted: bool)
    requires NoDuplicates(ids)
    ensures NoDuplicates(UserOrderIds(ids, orders, userId, withDeleted))
  {
    if ids != [] {
      assert ids[0] !in ids[1..];
      UserOrderIdsDistinct(ids[1..], orders, userId, withDeleted);
    }
  }

  /**
   * `findAll`: one page of the user's live orders, newest first; `page` and
   * `pageSize` default to 1 and 20 when absent.
   */
  method FindAll(db: Db, userId: Id, page: Option<int>, pageSize: Option<int>) returns (p: Page)
    requires page.GetOr(DefaultPage) >= 1 && pageSize.GetOr(DefaultPageSize) >= 1
    ensures p == PageOf(UserOrderIds(db.orderIds, db.orders, userId, false), page.GetOr(DefaultPage), pageSize.GetOr(DefaultPageSize))
    ensures forall id :: id in p.data ==> IsUsersOrder(db.orders, id, userId)
  {
    var rows := UserOrderIds(db.orderIds, db.orders, userId, false);
    p := PageOf(rows, page.GetOr(DefaultPage), pageSize.GetOr(DefaultPageSize));
    forall id | id in p.data
      ensures IsUsersOrder(db.orders, id, userId)
    {
      var k :| 0 <= k < |p.data| && p.data[k] == id;
      assert id in rows;
    }
  }

  /** `findById`: the user's live order, else not found. */
  method FindById(db: Db, userId: Id, orderId: Id) returns (r: Result<Order>)
    ensures r.Ok? <==> IsUsersOrder(db.orders, orderId, userId)
    ensures r.Ok? ==> r.value == db.orders[orderId]
    ensures r.Err? ==> r.error == NotFound(OrderRecord)
  {
    if !IsUsersOrder(db.orders, orderId, userId) {
      return Err(NotFound(OrderRecord));
    }
    r := Ok(db.orders[orderId]);
  }

  /** The first live order of the user with the order number, in row order. */
  function FindOrderNumber(ids: seq<Id>, orders: map<Id, Order>, userId: Id, orderNumber: string): (found: Option<Id>)
    ensures found.Some? ==>
      found.value in ids && IsUsersOrder(orders, found.value, userId) && orders[found.value].orderNumber == orderNumber
    ensures found.None? ==> forall id :: id in ids && IsUsersOrder(orders, id, userId) ==> orders[id].orderNumber != orderNumber
  {
    if ids == [] then None
    else if IsUsersOrder(orders, ids[0], userId) && orders[ids[0]].orderNumber == orderNumber then Some(ids[0])
    else FindOrderNumber(ids[1..], orders, userId, orderNumber)
  }

  /** `findByOrderNumber`: a live order of the user with that number, else not found. */
  method FindByOrderNumber(db: Db, userId: Id, orderNumber: string) returns (r: Result<Order>)
    requires db.Valid()
    ensures r.Ok? ==> exists id :: IsUsersOrder(db.orders, id, userId) && db.orders[id] == r.value
    ensures r.Ok? ==> r.value.orderNumber == orderNumber && r.value.userId == userId && !r.value.deleted
    ensures r.Err? <==> forall id :: IsUsersOrder(db.orders, id, userId) ==> db.orders[id].orderNumber != orderNumber
    ensures r.Err? ==> r.error == NotFound(OrderRecord)
  {
    var found := FindOrderNumber(db.orderIds, db.orders, userId, orderNumber);
    if found.None? {
      return Err(NotFound(OrderRecord));
    }
    r := Ok(db.orders[found.value]);
  }

  // ---------------------------------------------------------------------
  // Status changes
  // ---------------------------------------------------------------------

  /**
   * `updateStatus`: a live order may move only to a successor of its status
   * in the table; then its status, and nothing else, changes.
   */
  method UpdateStatus(db: Db, orderId: Id, status: OrderStatus) returns (r: Result<Order>)
    requires db.Valid()
    modifies db`orders
    ensures db.Valid()
    ensures !(orderId in old(db.orders) && !old(db.orders)[orderId].deleted) ==> r == Err(NotFound(OrderRecord))
    ensures orderId in old(db.orders) && !old(db.orders)[orderId].deleted ==>
      var o := old(db.orders)[orderId];
      && (!CanTransition(o.status, status) ==> r == Err(BadRequest(TransitionRejected(o.status, status))))
      && (CanTransition(o.status, status) ==> r == Ok(o.(status := status)))
    ensures r.Ok? ==> db.orders == old(db.orders)[orderId := r.value]
    ensures r.Err? ==> db.orders == old(db.orders)
  {
    if !(orderId in db.orders && !db.orders[orderId].deleted) {
      return Err(NotFound(OrderRecord));
    }
    var o := db.orders[orderId];
    if !CanTransition(o.status, status) {
      return Err(BadRequest(TransitionRejected(o.status, status)));
    }
    var updated := o.(status := status);
    db.orders := db.orders[orderId := updated];
    r := Ok(updated);
  }

  /**
   * `cancel`: only the user's live PENDING or CONFIRMED order may be
   * cancelled, and then it is CANCELLED. PROCESSING orders, which the table
   * would let move to CANCELLED, are refused here.
   */
  method Cancel(db: Db, userId: Id, orderId: Id) returns (r: Result<Order>)
    requires db.Valid()
    modifies db`orders
    ensures db.Valid()
    ensures !IsUsersOrder(old(db.orders), orderId, userId) ==> r == Err(NotFound(OrderRecord))
    ensures IsUsersOrder(old(db.orders), orderId, userId) && old(db.orders)[orderId].status !in {Pending, Confirmed} ==>
      r == Err(BadRequest(NotCancellable))
    ensures IsUsersOrder(old(db.orders), orderId, userId) && old(db.orders)[orderId].status in {Pending, Confirmed} ==>
      r == Ok(old(db.orders)[orderId].(status := Cancelled))
    ensures r.Ok? ==> db.orders == old(db.orders)[orderId := r.value]
    ensures r.Err? ==> db.orders == old(db.orders)
  {
    if !IsUsersOrder(db.orders, orderId, userId) {
      return Err(NotFound(OrderRecord));
    }
    if db.orders[orderId].status !in {Pending, Confirmed} {
      return Err(BadRequest(NotCancellable));
    }
    r := UpdateStatus(db, orderId, Cancelled);
  }

  /** A cancelled order can no longer change status: every later update is refused. */
  lemma CancelledIsFinal(o: Order, status: OrderStatus)
    requires o.status == Cancelled
    ensures !CanTransition(o.status, status)
  {
  }
}
