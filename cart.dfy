/**
 * The cart engine: one lazily created cart per user, whose lines are added,
 * merged, re-quantified and soft-deleted in place, and a derived view whose
 * subtotal and item count are computed on every read from the current
 * product prices.
 *
 * Each operation's change to the cart lines is a function from the old
 * lines to the new ones (`PutLine`, `SetLineQuantity`, `RemoveLine`,
 * `Cleared`); the methods check their guards, apply that change to the
 * store and return the view.
 */
module CartService {
  import opened Statuses
  import opened Entities
  import opened Pricing
  import opened Store

  datatype CartView = CartView(cartId: Id, lines: seq<CartLine>, subtotal: real, itemCount: int)

  /** The cart lines table: the rows and their row order. */
  datatype CartTable = CartTable(items: map<Id, CartItem>, ids: seq<Id>)

  // ---------------------------------------------------------------------
  // The view
  // ---------------------------------------------------------------------

  /**
   * The view `getCart` returns: every item of the cart is loaded, removed or
   * not, and the subtotal and item count are summed over all of them.
   */
  function ViewOf(ids: seq<Id>, items: map<Id, CartItem>, products: map<Id, Product>, cartId: Id): (view: CartView)
    ensures view.cartId == cartId
    ensures |view.lines| <= |ids|
  {
    var lines := CartLines(ids, items, products, cartId);
    CartView(cartId, lines, Subtotal(lines), ItemCount(lines))
  }

  /** The view restricted to the lines that have not been removed. */
  function LiveViewOf(ids: seq<Id>, items: map<Id, CartItem>, products: map<Id, Product>, cartId: Id): (view: CartView)
    ensures view.cartId == cartId
    ensures forall l :: l in view.lines ==> LoadedFrom(l, ids, items, products, cartId) && !l.item.deleted
  {
    var lines := LiveCartLines(ids, items, products, cartId);
    CartView(cartId, lines, Subtotal(lines), ItemCount(lines))
  }

  /**
   * The view of a cleared cart, as `getCart` computes it, still reports the
   * subtotal and item count the cart had before it was cleared: removed
   * lines keep their quantities and are still summed.
   */
  lemma {:induction false} ClearedViewUnchanged(ids: seq<Id>, items: map<Id, CartItem>, products: map<Id, Product>, cartId: Id)
    ensures var before := ViewOf(ids, items, products, cartId);
      var after := ViewOf(ids, Cleared(items, cartId), products, cartId);
      after.subtotal == before.subtotal && after.itemCount == before.itemCount && |after.lines| == |before.lines|
  {
    if ids != [] {
      ClearedViewUnchanged(ids[1..], items, products, cartId);
    }
  }

  /** The live view of a cleared cart is empty: no lines, nothing to pay, no items. */
  lemma ClearedLiveViewEmpty(ids: seq<Id>, items: map<Id, CartItem>, products: map<Id, Product>, cartId: Id)
    ensures var after := LiveViewOf(ids, Cleared(items, cartId), products, cartId);
      after.lines == [] && after.subtotal == 0.0 && after.itemCount == 0
  {
    ClearedCartHasNoLiveLines(ids, items, products, cartId);
  }

  /** Clearing a cleared cart changes nothing, so a repeated `clearCart` succeeds with the same lines. */
  lemma ClearedTwice(items: map<Id, CartItem>, cartId: Id)
    ensures Cleared(Cleared(items, cartId), cartId) == Cleared(items, cartId)
  {
  }

  // ---------------------------------------------------------------------
  // The live line of a product
  // ---------------------------------------------------------------------

  /**
   * The first line of cart `cartId` for `productId`, in row order, that has
   * not been removed: the lookup every cart operation starts with. In a
   * valid store there is at most one such line.
   */
  function FindLiveLine(ids: seq<Id>, items: map<Id, CartItem>, cartId: Id, productId: Id): (line: Option<Id>)
    ensures line.Some? ==> line.value in ids && IsLiveLine(items, line.value, cartId, productId)
    ensures line.None? ==> forall i :: i in ids ==> !IsLiveLine(items, i, cartId, productId)
  {
    if ids == [] then None
    else if IsLiveLine(items, ids[0], cartId, productId) then Some(ids[0])
    else FindLiveLine(ids[1..], items, cartId, productId)
  }

  /** The quantity of the live line of a product in a cart, 0 when there is none. */
  function LiveQuantity(t: CartTable, cartId: Id, productId: Id): int
  {
    match FindLiveLine(t.ids, t.items, cartId, productId)
    case Some(e) => t.items[e].quantity
    case None => 0
  }

  /** In a valid table the lookup finds the one live line there is. */
  lemma FindsTheLiveLine(ids: seq<Id>, items: map<Id, CartItem>, cartId: Id, productId: Id, e: Id)
    requires Indexes(ids, items) && LiveLinesUnique(items)
    requires IsLiveLine(items, e, cartId, productId)
    ensures FindLiveLine(ids, items, cartId, productId) == Some(e)
  {
    assert e in ids;
  }

  /** Two tables with the same live lines of (cart, product) give the same lookup. */
  lemma {:induction false} FindLiveLineSame(ids: seq<Id>, items: map<Id, CartItem>, items': map<Id, CartItem>, cartId: Id, productId: Id)
    requires forall i :: i in ids ==> (IsLiveLine(items, i, cartId, productId) <==> IsLiveLine(items', i, cartId, productId))
    ensures FindLiveLine(ids, items, cartId, productId) == FindLiveLine(ids, items', cartId, productId)
  {
    if ids != [] {
      assert ids[0] in ids;
      FindLiveLineSame(ids[1..], items, items', cartId, productId);
    }
  }

  /** A line appended behind rows none of which is a live line of the product is the one found. */
  lemma {:induction false} FindLiveLineAppended(ids: seq<Id>, items: map<Id, CartItem>, cartId: Id, productId: Id, f: Id, item: CartItem)
    requires f !in ids && item == CartItem(cartId, productId, item.quantity, false)
    requires forall i :: i in ids ==> !IsLiveLine(items, i, cartId, productId)
    ensures FindLiveLine(ids + [f], items[f := item], cartId, productId) == Some(f)
  {
    if ids == [] {
      assert ids + [f] == [f];
    } else {
      assert ids[0] in ids && ids[0] != f;
      assert (ids + [f])[1..] == ids[1..] + [f];
      FindLiveLineAppended(ids[1..], items, cartId, productId, f, item);
    }
  }

  // ---------------------------------------------------------------------
  // addItem
  // ---------------------------------------------------------------------

  /**
   * The line step of `addItem` in cart `cartId`: with a live line of the
   * product, its quantity grows by `quantity`, unless the sum exceeds
   * `stock`; without one, a new live line is appended.
   */
  function PutLine(t: CartTable, cartId: Id, productId: Id, quantity: int, stock: int, freshItemId: Id): (r: Result<CartTable>)
    ensures r.Err? ==> r.error == BadRequest(StockShort)
  {
    match FindLiveLine(t.ids, t.items, cartId, productId)
    case Some(e) =>
      var merged := t.items[e].quantity + quantity;
      if stock < merged then Err(BadRequest(StockShort))
      else Ok(CartTable(t.items[e := t.items[e].(quantity := merged)], t.ids))
    case None =>
      Ok(CartTable(t.items[freshItemId := CartItem(cartId, productId, quantity, false)], t.ids + [freshItemId]))
  }

  /**
   * `addItem` adds `quantity` to what the cart holds of the product, and it
   * is refused exactly when the sum exceeds the stock and a line existed
   * already; the new quantity is within the stock either way when
   * `quantity` itself is.
   */
  lemma PutLineAddsQuantity(t: CartTable, cartId: Id, productId: Id, quantity: int, stock: int, freshItemId: Id)
    requires Indexes(t.ids, t.items) && freshItemId !in t.items
    ensures var r := PutLine(t, cartId, productId, quantity, stock, freshItemId);
      var held := LiveQuantity(t, cartId, productId);
      && (r.Err? <==> FindLiveLine(t.ids, t.items, cartId, productId).Some? && stock < held + quantity)
      && (r.Ok? ==> LiveQuantity(r.value, cartId, productId) == held + quantity)
      && (r.Ok? && quantity <= stock ==> LiveQuantity(r.value, cartId, productId) <= stock)
  {
    var r := PutLine(t, cartId, productId, quantity, stock, freshItemId);
    match FindLiveLine(t.ids, t.items, cartId, productId)
    case Some(e) =>
      if r.Ok? {
        FindLiveLineSame(t.ids, t.items, r.value.items, cartId, productId);
      }
    case None =>
      FindLiveLineAppended(t.ids, t.items, cartId, productId, freshItemId, CartItem(cartId, productId, quantity, false));
  }

  /** The line step keeps the cart constraints of a valid store. */
  lemma PutLineKeepsCarts(carts: map<Id, Id>, products: map<Id, Product>, t: CartTable,
                          cartId: Id, productId: Id, quantity: int, stock: int, freshItemId: Id)
    requires CartsValid(carts, t.items, products) && Indexes(t.ids, t.items)
    requires cartId in carts.Values && productId in products && freshItemId !in t.items
    ensures var r := PutLine(t, cartId, productId, quantity, stock, freshItemId);
      r.Ok? ==> CartsValid(carts, r.value.items, products) && Indexes(r.value.ids, r.value.items)
  {
    match FindLiveLine(t.ids, t.items, cartId, productId)
    case Some(e) =>
      RequantifyKeepsCarts(carts, t.items, products, e, t.items[e].quantity + quantity);
    case None =>
      AppendKeepsCarts(carts, t.items, t.ids, products, freshItemId, cartId, productId, quantity);
  }

  /** Every live line holds at least one unit. */
  ghost predicate PositiveLines(items: map<Id, CartItem>)
  {
    forall i :: i in items && !items[i].deleted ==> items[i].quantity >= 1
  }

  /** With a positive `quantity` the line step keeps every live line positive. */
  lemma PutLineKeepsPositive(t: CartTable, cartId: Id, productId: Id, quantity: int, stock: int, freshItemId: Id)
    requires PositiveLines(t.items) && quantity >= 1
    ensures var r := PutLine(t, cartId, productId, quantity, stock, freshItemId);
      r.Ok? ==> PositiveLines(r.value.items)
  {
  }

  /**
   * Without that check a negative quantity passes the stock check of
   * `addItem` and becomes a live line of the cart that holds minus three
   * units, which the view then counts.
   */
  lemma PutLineAcceptsNegative(stock: int)
    requires stock >= 0
    ensures var r := PutLine(CartTable(map[], []), "cart", "product", -3, stock, "item");
      && stock >= -3
      && r.Ok? && r.value.items["item"].quantity == -3 && !r.value.items["item"].deleted
      && !PositiveLines(r.value.items)
      && ItemCount(CartLines(r.value.ids, r.value.items, map["product" := SampleProduct(stock)], "cart")) == -3
  {
    var r := PutLine(CartTable(map[], []), "cart", "product", -3, stock, "item");
    assert r.value.ids == ["item"];
    assert CartLines(r.value.ids, r.value.items, map["product" := SampleProduct(stock)], "cart")
      == [CartLine("item", CartItem("cart", "product", -3, false), SampleProduct(stock))];
  }

  /** An active product with the given stock, for the example above. */
  function SampleProduct(stock: int): Product
  {
    Product("Pen", "pen", "PEN-1", None, 10.0, None, stock, true, false, "stationery", None, false)
  }

  /** The user's cart after the lazy creation: the existing cart, or a fresh one. */
  function CartAfterLazyCreate(carts: map<Id, Id>, userId: Id, freshCartId: Id): (after: map<Id, Id>)
    ensures userId in after && after.Keys == carts.Keys + {userId}
    ensures userId in carts ==> after == carts
  {
    if userId in carts then carts else carts[userId := freshCartId]
  }

  /** Inserting a fresh key keeps every old value and adds the new one, and nothing else. */
  lemma ValuesGrow(m: map<Id, Id>, k: Id, v: Id)
    requires k !in m
    ensures m[k := v].Values == m.Values + {v}
  {
    var n := m[k := v];
    forall x | x in m.Values
      ensures x in n.Values
    {
      var u :| u in m && m[u] == x;
      assert n[u] == x;
    }
    assert n[k] == v;
  }

  /** A cart-item table that keeps the cart constraints and is indexed by its id list keeps the store valid. */
  lemma ItemsKeepValid(products: map<Id, Product>, productIds: seq<Id>, categories: map<Id, Category>,
                       carts: map<Id, Id>, items: map<Id, CartItem>, itemIds: seq<Id>,
                       orders: map<Id, Order>, orderIds: seq<Id>, payments: map<Id, Payment>, paymentIds: seq<Id>,
                       addresses: map<Id, Address>, addressIds: seq<Id>, items': map<Id, CartItem>, itemIds': seq<Id>)
    requires StoreValid(products, productIds, categories, carts, items, itemIds, orders, orderIds, payments, paymentIds, addresses, addressIds)
    requires CartsValid(carts, items', products) && Indexes(itemIds', items')
    ensures StoreValid(products, productIds, categories, carts, items', itemIds', orders, orderIds, payments, paymentIds, addresses, addressIds)
  {
  }

  /** Stores a new cart-item table and its id list, once they are known to keep the store valid. */
  method CommitLines(db: Db, items': map<Id, CartItem>, itemIds': seq<Id>)
    requires StoreValid(db.products, db.productIds, db.categories, db.carts, items', itemIds',
                        db.orders, db.orderIds, db.payments, db.paymentIds, db.addresses, db.addressIds)
    modifies db`cartItems, db`cartItemIds
    ensures db.Valid()
    ensures db.cartItems == items' && db.cartItemIds == itemIds'
  {
    db.cartItems, db.cartItemIds := items', itemIds';
  }

  /** Stores a rewritten cart-item table, once it is known to keep the store valid. */
  method CommitItems(db: Db, items': map<Id, CartItem>)
    requires StoreValid(db.products, db.productIds, db.categories, db.carts, items', db.cartItemIds,
                        db.orders, db.orderIds, db.payments, db.paymentIds, db.addresses, db.addressIds)
    modifies db`cartItems
    ensures db.Valid()
    ensures db.cartItems == items'
  {
    db.cartItems := items';
  }

  /** The user's cart id, inserting a cart with id `freshCartId` when the user has none. */
  method EnsureCart(db: Db, userId: Id, freshCartId: Id) returns (cartId: Id)
    requires db.Valid()
    requires freshCartId !in db.carts.Values
    modifies db`carts
    ensures db.Valid()
    ensures db.carts == CartAfterLazyCreate(old(db.carts), userId, freshCartId)
    ensures cartId == db.carts[userId] && cartId in db.carts.Values
    ensures userId !in old(db.carts) ==> forall i :: i in db.cartItems ==> db.cartItems[i].cartId != cartId
  {
    if userId !in db.carts {
      ValuesGrow(db.carts, userId, freshCartId);
      db.carts := db.carts[userId := freshCartId];
    }
    cartId := db.carts[userId];
  }

  /** A cart no item belongs to loads no line. */
  lemma {:induction false} NoLinesInFreshCart(ids: seq<Id>, items: map<Id, CartItem>, products: map<Id, Product>, cartId: Id)
    requires forall i :: i in items ==> items[i].cartId != cartId
    ensures CartLines(ids, items, products, cartId) == []
  {
    if ids != [] {
      NoLinesInFreshCart(ids[1..], items, products, cartId);
    }
  }

  /** `getCart`: the user's cart, created empty when there is none, and its view. */
  method GetCart(db: Db, userId: Id, freshCartId: Id) returns (view: CartView)
    requires db.Valid()
    requires freshCartId !in db.carts.Values
    modifies db`carts
    ensures db.Valid()
    ensures db.carts == CartAfterLazyCreate(old(db.carts), userId, freshCartId)
    ensures view == ViewOf(db.cartItemIds, db.cartItems, db.products, db.carts[userId])
    ensures userId !in old(db.carts) ==> view.lines == [] && view.subtotal == 0.0 && view.itemCount == 0
  {
    var cartId := EnsureCart(db, userId, freshCartId);
    if userId !in old(db.carts) {
      NoLinesInFreshCart(db.cartItemIds, db.cartItems, db.products, cartId);
    }
    view := ViewOf(db.cartItemIds, db.cartItems, db.products, cartId);
  }

  /**
   * `addItem`: checks the product (exists and not removed, active, enough
   * stock for `quantity`), creates the cart when there is none, then applies
   * the line step. `quantity` is not checked to be positive. A refused
   * request changes nothing, not even the cart creation.
   */
  method AddItem(db: Db, userId: Id, productId: Id, quantity: int, freshCartId: Id, freshItemId: Id)
    returns (r: Result<CartView>)
    requires db.Valid()
    requires freshCartId !in db.carts.Values && freshItemId !in db.cartItems
    modifies db`carts, db`cartItems, db`cartItemIds
    ensures db.Valid()
    ensures !IsLiveProduct(old(db.products), productId) ==> r == Err(NotFound(ProductRecord))
    ensures IsLiveProduct(old(db.products), productId) && !old(db.products)[productId].isActive ==>
      r == Err(BadRequest(ProductNotAvailable))
    ensures (IsLiveProduct(old(db.products), productId) && old(db.products)[productId].isActive
             && old(db.products)[productId].stock < quantity) ==> r == Err(BadRequest(StockShort))
    ensures (IsLiveProduct(old(db.products), productId) && old(db.products)[productId].isActive
             && old(db.products)[productId].stock >= quantity) ==>
      var step := PutLine(CartTable(old(db.cartItems), old(db.cartItemIds)),
                          CartAfterLazyCreate(old(db.carts), userId, freshCartId)[userId],
                          productId, quantity, old(db.products)[productId].stock, freshItemId);
      && (step.Err? ==> r == Err(step.error))
      && (step.Ok? ==> r.Ok? && CartTable(db.cartItems, db.cartItemIds) == step.value)
    ensures r.Err? ==> db.carts == old(db.carts) && db.cartItems == old(db.cartItems) && db.cartItemIds == old(db.cartItemIds)
    ensures r.Ok? ==> db.carts == CartAfterLazyCreate(old(db.carts), userId, freshCartId)
    ensures r.Ok? ==> r.value == ViewOf(db.cartItemIds, db.cartItems, db.products, db.carts[userId])
  {
    if !IsLiveProduct(db.products, productId) {
      return Err(NotFound(ProductRecord));
    }
    var product := db.products[productId];
    if !product.isActive {
      return Err(BadRequest(ProductNotAvailable));
    }
    if product.stock < quantity {
      return Err(BadRequest(StockShort));
    }
    var cartId := EnsureCart(db, userId, freshCartId);
    var table := CartTable(db.cartItems, db.cartItemIds);
    var step := PutLine(table, cartId, productId, quantity, product.stock, freshItemId);
    if step.Err? {
      // Only a merge can be refused, and a cart created just now has no line to merge into.
      assert FindLiveLine(table.ids, table.items, cartId, productId).Some?;
      assert userId in old(db.carts);
      return Err(step.error);
    }
    PutLineKeepsCarts(db.carts, db.products, table, cartId, productId, quantity, product.stock, freshItemId);
    ItemsKeepValid(db.products, db.productIds, db.categories, db.carts, db.cartItems, db.cartItemIds,
                   db.orders, db.orderIds, db.payments, db.paymentIds, db.addresses, db.addressIds, step.value.items, step.value.ids);
    CommitLines(db, step.value.items, step.value.ids);
    r := Ok(ViewOf(db.cartItemIds, db.cartItems, db.products, cartId));
  }

  /**
   * `addItem` with the positive-quantity check `updateItemQuantity` makes:
   * a quantity below one is refused, so every live line keeps at least one
   * unit.
   */
  method AddItemChecked(db: Db, userId: Id, productId: Id, quantity: int, freshCartId: Id, freshItemId: Id)
    returns (r: Result<CartView>)
    requires db.Valid()
    requires freshCartId !in db.carts.Values && freshItemId !in db.cartItems
    modifies db`carts, db`cartItems, db`cartItemIds
    ensures db.Valid()
    ensures quantity < 1 ==>
      && r == Err(BadRequest(QuantityBelowOne))
      && db.carts == old(db.carts) && db.cartItems == old(db.cartItems) && db.cartItemIds == old(db.cartItemIds)
    ensures quantity >= 1 && !IsLiveProduct(old(db.products), productId) ==> r == Err(NotFound(ProductRecord))
    ensures quantity >= 1 && IsLiveProduct(old(db.products), productId) && !old(db.products)[productId].isActive ==>
      r == Err(BadRequest(ProductNotAvailable))
    ensures (quantity >= 1 && IsLiveProduct(old(db.products), productId) && old(db.products)[productId].isActive
             && old(db.products)[productId].stock < quantity) ==> r == Err(BadRequest(StockShort))
    ensures (quantity >= 1 && IsLiveProduct(old(db.products), productId) && old(db.products)[productId].isActive
             && old(db.products)[productId].stock >= quantity) ==>
      var step := PutLine(CartTable(old(db.cartItems), old(db.cartItemIds)),
                          CartAfterLazyCreate(old(db.carts), userId, freshCartId)[userId],
                          productId, quantity, old(db.products)[productId].stock, freshItemId);
      && (step.Err? ==> r == Err(step.error))
      && (step.Ok? ==> r.Ok? && CartTable(db.cartItems, db.cartItemIds) == step.value)
    ensures r.Err? ==> db.carts == old(db.carts) && db.cartItems == old(db.cartItems) && db.cartItemIds == old(db.cartItemIds)
    ensures r.Ok? ==> db.carts == CartAfterLazyCreate(old(db.carts), userId, freshCartId)
    ensures r.Ok? ==> r.value == ViewOf(db.cartItemIds, db.cartItems, db.products, db.carts[userId])
    ensures PositiveLines(old(db.cartItems)) ==> PositiveLines(db.cartItems)
  {
    if quantity < 1 {
      return Err(BadRequest(QuantityBelowOne));
    }
    ghost var items0, ids0, carts0, stock0 := db.cartItems, db.cartItemIds, db.carts,
      if productId in db.products then db.products[productId].stock else 0;
    r := AddItem(db, userId, productId, quantity, freshCartId, freshItemId);
    if r.Ok? && PositiveLines(items0) {
      PutLineKeepsPositive(CartTable(items0, ids0), CartAfterLazyCreate(carts0, userId, freshCartId)[userId],
                           productId, quantity, stock0, freshItemId);
    }
  }

  // ---------------------------------------------------------------------
  // updateItemQuantity
  // ---------------------------------------------------------------------

  /**
   * The line step of `updateItemQuantity`: the live line of the product must
   * exist and its product's stock must cover `quantity`, which then replaces
   * the line's quantity.
   */
  function SetLineQuantity(t: CartTable, products: map<Id, Product>, cartId: Id, productId: Id, quantity: int)
    : (r: Result<CartTable>)
    requires forall i :: i in t.items ==> t.items[i].productId in products
    ensures r.Err? ==> r.error in {NotFound(CartItemRecord), BadRequest(StockShort)}
    ensures r.Ok? ==> r.value.ids == t.ids && r.value.items.Keys == t.items.Keys
  {
    match FindLiveLine(t.ids, t.items, cartId, productId)
    case None => Err(NotFound(CartItemRecord))
    case Some(e) =>
      if products[t.items[e].productId].stock < quantity then Err(BadRequest(StockShort))
      else Ok(CartTable(t.items[e := t.items[e].(quantity := quantity)], t.ids))
  }

  /**
   * After a successful update the line holds exactly `quantity` units, which
   * its product's stock covers; the update fails with not-found exactly when
   * there is no live line.
   */
  lemma SetLineQuantitySets(t: CartTable, products: map<Id, Product>, cartId: Id, productId: Id, quantity: int)
    requires forall i :: i in t.items ==> t.items[i].productId in products
    ensures var r := SetLineQuantity(t, products, cartId, productId, quantity);
      && (r == Err(NotFound(CartItemRecord)) <==> FindLiveLine(t.ids, t.items, cartId, productId).None?)
      && (r.Ok? ==> LiveQuantity(r.value, cartId, productId) == quantity <= products[productId].stock)
  {
    var r := SetLineQuantity(t, products, cartId, productId, quantity);
    if r.Ok? {
      FindLiveLineSame(t.ids, t.items, r.value.items, cartId, productId);
    }
  }

  /** Setting a line's quantity keeps the cart constraints. */
  lemma SetLineQuantityKeepsCarts(carts: map<Id, Id>, products: map<Id, Product>, t: CartTable,
                                  cartId: Id, productId: Id, quantity: int)
    requires CartsValid(carts, t.items, products)
    ensures var r := SetLineQuantity(t, products, cartId, productId, quantity);
      r.Ok? ==> CartsValid(carts, r.value.items, products)
  {
    match FindLiveLine(t.ids, t.items, cartId, productId)
    case Some(e) =>
      RequantifyKeepsCarts(carts, t.items, products, e, quantity);
    case None =>
  }

  /** `updateItemQuantity`: quantity below one, no cart, no live line, too little stock; else sets the quantity. */
  method UpdateItemQuantity(db: Db, userId: Id, productId: Id, quantity: int) returns (r: Result<CartView>)
    requires db.Valid()
    modifies db`cartItems
    ensures db.Valid()
    ensures quantity < 1 ==> r == Err(BadRequest(QuantityBelowOne))
    ensures quantity >= 1 && userId !in db.carts ==> r == Err(NotFound(CartRecord))
    ensures quantity >= 1 && userId in db.carts ==>
      var step := SetLineQuantity(CartTable(old(db.cartItems), db.cartItemIds), db.products, db.carts[userId], productId, quantity);
      && (step.Err? ==> r == Err(step.error))
      && (step.Ok? ==> r.Ok? && db.cartItems == step.value.items)
    ensures r.Err? ==> db.cartItems == old(db.cartItems)
    ensures r.Ok? ==> r.value == ViewOf(db.cartItemIds, db.cartItems, db.products, db.carts[userId])
  {
    if quantity < 1 {
      return Err(BadRequest(QuantityBelowOne));
    }
    if userId !in db.carts {
      return Err(NotFound(CartRecord));
    }
    var cartId := db.carts[userId];
    var table := CartTable(db.cartItems, db.cartItemIds);
    var step := SetLineQuantity(table, db.products, cartId, productId, quantity);
    if step.Err? {
      return Err(step.error);
    }
    SetLineQuantityKeepsCarts(db.carts, db.products, table, cartId, productId, quantity);
    ItemsKeepValid(db.products, db.productIds, db.categories, db.carts, db.cartItems, db.cartItemIds,
                   db.orders, db.orderIds, db.payments, db.paymentIds, db.addresses, db.addressIds, step.value.items, db.cartItemIds);
    CommitItems(db, step.value.items);
    r := Ok(ViewOf(db.cartItemIds, db.cartItems, db.products, cartId));
  }

  // ---------------------------------------------------------------------
  // removeItem and clearCart
  // ---------------------------------------------------------------------

  /** The line step of `removeItem`: the live line of the product must exist, and is marked removed. */
  function RemoveLine(t: CartTable, cartId: Id, productId: Id): (r: Result<CartTable>)
    ensures r.Err? ==> r.error == NotFound(CartItemRecord)
    ensures r.Ok? ==> r.value.ids == t.ids && r.value.items.Keys == t.items.Keys
  {
    match FindLiveLine(t.ids, t.items, cartId, productId)
    case None => Err(NotFound(CartItemRecord))
    case Some(e) => Ok(CartTable(t.items[e := t.items[e].(deleted := true)], t.ids))
  }

  /**
   * In a valid table, removing a product's line leaves the cart holding none
   * of it, so removing it again fails; removal fails exactly when the cart
   * holds no live line of the product.
   */
  lemma RemoveLineRemoves(t: CartTable, cartId: Id, productId: Id)
    requires Indexes(t.ids, t.items) && LiveLinesUnique(t.items)
    ensures var r := RemoveLine(t, cartId, productId);
      && (r.Err? <==> FindLiveLine(t.ids, t.items, cartId, productId).None?)
      && (r.Ok? ==> FindLiveLine(r.value.ids, r.value.items, cartId, productId).None?)
      && (r.Ok? ==> LiveQuantity(r.value, cartId, productId) == 0)
      && (r.Ok? ==> RemoveLine(r.value, cartId, productId) == Err(NotFound(CartItemRecord)))
  {
    var r := RemoveLine(t, cartId, productId);
    if r.Ok? {
      var e := FindLiveLine(t.ids, t.items, cartId, productId).value;
      forall i | i in t.ids
        ensures !IsLiveLine(r.value.items, i, cartId, productId)
      {
        assert i != e ==> r.value.items[i] == t.items[i];
      }
    }
  }

  /** Removing a line keeps the cart constraints. */
  lemma RemoveLineKeepsCarts(carts: map<Id, Id>, products: map<Id, Product>, t: CartTable, cartId: Id, productId: Id)
    requires CartsValid(carts, t.items, products)
    ensures var r := RemoveLine(t, cartId, productId);
      r.Ok? ==> CartsValid(carts, r.value.items, products)
  {
    match FindLiveLine(t.ids, t.items, cartId, productId)
    case Some(e) =>
      RemoveKeepsCarts(carts, t.items, products, e);
    case None =>
  }

  /** `removeItem`: no cart or no live line of the product fails; else that line is marked removed. */
  method RemoveItem(db: Db, userId: Id, productId: Id) returns (r: Result<CartView>)
    requires db.Valid()
    modifies db`cartItems
    ensures db.Valid()
    ensures userId !in db.carts ==> r == Err(NotFound(CartRecord))
    ensures userId in db.carts ==>
      var step := RemoveLine(CartTable(old(db.cartItems), db.cartItemIds), db.carts[userId], productId);
      && (step.Err? ==> r == Err(step.error))
      && (step.Ok? ==> r.Ok? && db.cartItems == step.value.items)
    ensures r.Err? ==> db.cartItems == old(db.cartItems)
    ensures r.Ok? ==> r.value == ViewOf(db.cartItemIds, db.cartItems, db.products, db.carts[userId])
  {
    if userId !in db.carts {
      return Err(NotFound(CartRecord));
    }
    var cartId := db.carts[userId];
    var table := CartTable(db.cartItems, db.cartItemIds);
    var step := RemoveLine(table, cartId, productId);
    if step.Err? {
      return Err(step.error);
    }
    RemoveLineKeepsCarts(db.carts, db.products, table, cartId, productId);
    ItemsKeepValid(db.products, db.productIds, db.categories, db.carts, db.cartItems, db.cartItemIds,
                   db.orders, db.orderIds, db.payments, db.paymentIds, db.addresses, db.addressIds, step.value.items, db.cartItemIds);
    CommitItems(db, step.value.items);
    r := Ok(ViewOf(db.cartItemIds, db.cartItems, db.products, cartId));
  }

  /** `clearCart`: no cart fails; else every line of the cart, removed or not, is marked removed. */
  method ClearCart(db: Db, userId: Id) returns (r: Result<CartView>)
    requires db.Valid()
    modifies db`cartItems
    ensures db.Valid()
    ensures userId !in db.carts ==> r == Err(NotFound(CartRecord)) && db.cartItems == old(db.cartItems)
    ensures userId in db.carts ==>
      && db.cartItems == Cleared(old(db.cartItems), db.carts[userId])
      && r == Ok(ViewOf(db.cartItemIds, db.cartItems, db.products, db.carts[userId]))
  {
    if userId !in db.carts {
      return Err(NotFound(CartRecord));
    }
    var cartId := db.carts[userId];
    ClearedKeepsCarts(db.carts, db.cartItems, db.products, cartId);
    ItemsKeepValid(db.products, db.productIds, db.categories, db.carts, db.cartItems, db.cartItemIds,
                   db.orders, db.orderIds, db.payments, db.paymentIds, db.addresses, db.addressIds, Cleared(db.cartItems, cartId), db.cartItemIds);
    CommitItems(db, Cleared(db.cartItems, cartId));
    r := Ok(ViewOf(db.cartItemIds, db.cartItems, db.products, cartId));
  }
}
