/**
 * The relational store behind every service, as one object whose fields are
 * the tables. Each table maps ids to records; the id lists give the row order
 * the listings use (products, orders, payments and addresses newest first, cart items
 * in the order they were added).
 *
 * `Valid()` collects the constraints the store keeps: unique SKUs and slugs,
 * references that point at existing rows, one cart per user, at most one
 * live line per (cart, product), one payment per order and at most one
 * default address per user.
 */
module Store {
  import opened Statuses
  import opened Entities

  /** The ids in `order` are distinct and are exactly the keys of `table`. */
  ghost predicate Indexes<V>(order: seq<Id>, table: map<Id, V>)
  {
    && (forall i, j :: 0 <= i < j < |order| ==> order[i] != order[j])
    && (forall id :: id in order <==> id in table)
  }

  /** Prepending a fresh id to an index of a table indexes the table with that row added. */
  lemma IndexesPrepend<V>(order: seq<Id>, table: map<Id, V>, id: Id, v: V)
    requires Indexes(order, table) && id !in table
    ensures Indexes([id] + order, table[id := v])
  {
    var ids := [id] + order;
    forall i, j | 0 <= i < j < |ids|
      ensures ids[i] != ids[j]
    {
      if i == 0 {
        assert ids[j] == order[j - 1] && ids[j] in table;
      } else {
        assert ids[i] == order[i - 1] && ids[j] == order[j - 1];
      }
    }
  }

  ghost predicate CatalogValid(products: map<Id, Product>, categories: map<Id, Category>)
  {
    && (forall p, q :: p in products && q in products && p != q ==>
          products[p].sku != products[q].sku && products[p].slug != products[q].slug)
    && (forall p :: p in products ==> products[p].categoryId in categories)
    && (forall c, d :: c in categories && d in categories && c != d ==> categories[c].slug != categories[d].slug)
    && (forall c :: c in categories && categories[c].parentId.Some? ==> categories[c].parentId.value in categories)
  }

  /** A line of cart `cartId` for `productId` that has not been removed. */
  predicate IsLiveLine(items: map<Id, CartItem>, id: Id, cartId: Id, productId: Id)
  {
    id in items && items[id].cartId == cartId && items[id].productId == productId && !items[id].deleted
  }

  /** At most one live line per (cart, product). */
  ghost predicate LiveLinesUnique(items: map<Id, CartItem>)
  {
    forall i, j ::
      (&& i in items && j in items && !items[i].deleted && !items[j].deleted
       && items[i].cartId == items[j].cartId && items[i].productId == items[j].productId)
      ==> i == j
  }

  ghost predicate CartsValid(carts: map<Id, Id>, items: map<Id, CartItem>, products: map<Id, Product>)
  {
    && (forall u, v :: u in carts && v in carts && carts[u] == carts[v] ==> u == v)
    && (forall i :: i in items ==> items[i].cartId in carts.Values && items[i].productId in products)
    && LiveLinesUnique(items)
  }

  ghost predicate PaymentsValid(payments: map<Id, Payment>, orders: map<Id, Order>)
  {
    && (forall p :: p in payments ==> payments[p].orderId in orders)
    && (forall p, q :: p in payments && q in payments && payments[p].orderId == payments[q].orderId ==> p == q)
  }

  /** At most one address of each user is marked default. */
  ghost predicate OneDefaultPerUser(addresses: map<Id, Address>)
  {
    forall a, b ::
      (&& a in addresses && b in addresses && addresses[a].isDefault && addresses[b].isDefault
       && addresses[a].userId == addresses[b].userId)
      ==> a == b
  }

  /** The constraints of the store, over the contents of its tables. */
  ghost predicate StoreValid(products: map<Id, Product>, productIds: seq<Id>, categories: map<Id, Category>,
                             carts: map<Id, Id>, cartItems: map<Id, CartItem>, cartItemIds: seq<Id>,
                             orders: map<Id, Order>, orderIds: seq<Id>, payments: map<Id, Payment>, paymentIds: seq<Id>,
                             addresses: map<Id, Address>, addressIds: seq<Id>)
  {
    && Indexes(productIds, products)
    && Indexes(cartItemIds, cartItems)
    && Indexes(orderIds, orders)
    && Indexes(paymentIds, payments)
    && Indexes(addressIds, addresses)
    && CatalogValid(products, categories)
    && CartsValid(carts, cartItems, products)
    && PaymentsValid(payments, orders)
    && OneDefaultPerUser(addresses)
  }

  class Db {
    var products: map<Id, Product>
    var productIds: seq<Id>
    var categories: map<Id, Category>
    /** The cart of each user: user id to cart id. */
    var carts: map<Id, Id>
    var cartItems: map<Id, CartItem>
    var cartItemIds: seq<Id>
    var orders: map<Id, Order>
    var orderIds: seq<Id>
    var payments: map<Id, Payment>
    var paymentIds: seq<Id>
    var addresses: map<Id, Address>
    var addressIds: seq<Id>
    var wishlist: map<Id, WishlistItem>

    ghost predicate Valid()
      reads this
    {
      StoreValid(products, productIds, categories, carts, cartItems, cartItemIds, orders, orderIds, payments, paymentIds, addresses, addressIds)
    }

    constructor ()
      ensures Valid()
      ensures products == map[] && productIds == [] && categories == map[]
      ensures carts == map[] && cartItems == map[] && cartItemIds == []
      ensures orders == map[] && orderIds == [] && payments == map[] && paymentIds == []
      ensures addresses == map[] && addressIds == [] && wishlist == map[]
    {
      products, productIds, categories := map[], [], map[];
      carts, cartItems, cartItemIds := map[], map[], [];
      orders, orderIds, payments, paymentIds := map[], [], map[], [];
      addresses, addressIds, wishlist := map[], [], map[];
    }
  }

  predicate IsLiveProduct(products: map<Id, Product>, id: Id)
  {
    id in products && !products[id].deleted
  }

  // ---------------------------------------------------------------------
  // Cart lines as the cart and order queries load them
  // ---------------------------------------------------------------------

  ghost predicate DistinctItems(lines: seq<CartLine>)
  {
    forall k, l :: 0 <= k < l < |lines| ==> lines[k].itemId != lines[l].itemId
  }

  ghost predicate NoDuplicates(ids: seq<Id>)
  {
    forall i, j :: 0 <= i < j < |ids| ==> ids[i] != ids[j]
  }

  /** A loaded line that really is item `itemId` of cart `cartId` joined with its product. */
  ghost predicate LoadedFrom(l: CartLine, ids: seq<Id>, items: map<Id, CartItem>, products: map<Id, Product>, cartId: Id)
  {
    && l.itemId in ids && l.itemId in items && l.item == items[l.itemId] && l.item.cartId == cartId
    && l.item.productId in products && l.product == products[l.item.productId]
  }

  /**
   * Every item of cart `cartId`, removed or not, joined with its product, in
   * the order of `ids`.
   */
  function CartLines(ids: seq<Id>, items: map<Id, CartItem>, products: map<Id, Product>, cartId: Id): (lines: seq<CartLine>)
    ensures |lines| <= |ids|
    ensures forall l :: l in lines ==> LoadedFrom(l, ids, items, products, cartId)
  {
    if ids == [] then []
    else
      var rest := CartLines(ids[1..], items, products, cartId);
      var id := ids[0];
      if id in items && items[id].cartId == cartId && items[id].productId in products then
        [CartLine(id, items[id], products[items[id].productId])] + rest
      else
        rest
  }

  /** Every item of the cart whose product exists is loaded. */
  lemma {:induction false} CartLinesComplete(ids: seq<Id>, items: map<Id, CartItem>, products: map<Id, Product>, cartId: Id, id: Id)
    requires id in ids && id in items && items[id].cartId == cartId && items[id].productId in products
    ensures CartLine(id, items[id], products[items[id].productId]) in CartLines(ids, items, products, cartId)
  {
    if ids[0] != id {
      CartLinesComplete(ids[1..], items, products, cartId, id);
    }
  }

  /** Distinct ids load distinct lines. */
  lemma {:induction false} CartLinesDistinct(ids: seq<Id>, items: map<Id, CartItem>, products: map<Id, Product>, cartId: Id)
    requires NoDuplicates(ids)
    ensures DistinctItems(CartLines(ids, items, products, cartId))
  {
    if ids != [] {
      var rest := CartLines(ids[1..], items, products, cartId);
      CartLinesDistinct(ids[1..], items, products, cartId);
      assert ids[0] !in ids[1..];
      forall l | l in rest
        ensures l.itemId != ids[0]
      {
        assert l.itemId in ids[1..];
      }
    }
  }

  /** The lines that have not been removed, in the same order. */
  function LiveOnly(lines: seq<CartLine>): (live: seq<CartLine>)
    ensures |live| <= |lines|
    ensures forall l :: l in live ==> l in lines && !l.item.deleted
    ensures forall l :: l in lines && !l.item.deleted ==> l in live
  {
    if lines == [] then []
    else
      var rest := LiveOnly(lines[1..]);
      if lines[0].item.deleted then rest else [lines[0]] + rest
  }

  /** Keeping the live lines keeps distinct lines distinct. */
  lemma {:induction false} LiveOnlyDistinct(lines: seq<CartLine>)
    requires DistinctItems(lines)
    ensures DistinctItems(LiveOnly(lines))
  {
    if lines != [] {
      var rest := LiveOnly(lines[1..]);
      LiveOnlyDistinct(lines[1..]);
      forall l | l in rest
        ensures l.itemId != lines[0].itemId
      {
        var k :| 0 <= k < |lines[1..]| && lines[1..][k] == l;
        assert lines[k + 1] == l;
      }
    }
  }

  /** When every line has been removed no live line is left. */
  lemma {:induction false} LiveOnlyNone(lines: seq<CartLine>)
    requires forall l :: l in lines ==> l.item.deleted
    ensures LiveOnly(lines) == []
  {
    if lines != [] {
      LiveOnlyNone(lines[1..]);
    }
  }

  /** The live lines of a cart, as order placement loads them. */
  function LiveCartLines(ids: seq<Id>, items: map<Id, CartItem>, products: map<Id, Product>, cartId: Id): seq<CartLine>
  {
    LiveOnly(CartLines(ids, items, products, cartId))
  }

  /** With at most one live line per (cart, product), a cart's live lines name distinct products. */
  lemma LiveLinesDistinctProducts(ids: seq<Id>, items: map<Id, CartItem>, products: map<Id, Product>, cartId: Id)
    requires NoDuplicates(ids) && LiveLinesUnique(items)
    ensures var lines := LiveCartLines(ids, items, products, cartId);
      forall k, l :: 0 <= k < l < |lines| ==> lines[k].item.productId != lines[l].item.productId
  {
    var all := CartLines(ids, items, products, cartId);
    var lines := LiveOnly(all);
    CartLinesDistinct(ids, items, products, cartId);
    LiveOnlyDistinct(all);
    forall k, l | 0 <= k < l < |lines|
      ensures lines[k].item.productId != lines[l].item.productId
    {
      assert lines[k] in lines && lines[l] in lines;
      assert lines[k].itemId != lines[l].itemId;
    }
  }

  /** Changing the quantity of an existing line keeps the cart constraints. */
  lemma RequantifyKeepsCarts(carts: map<Id, Id>, items: map<Id, CartItem>, products: map<Id, Product>, e: Id, q: int)
    requires CartsValid(carts, items, products) && e in items
    ensures CartsValid(carts, items[e := items[e].(quantity := q)], products)
  {
    var after := items[e := items[e].(quantity := q)];
    forall i, j | i in after && j in after && !after[i].deleted && !after[j].deleted
      && after[i].cartId == after[j].cartId && after[i].productId == after[j].productId
      ensures i == j
    {
      assert !items[i].deleted && !items[j].deleted;
    }
  }

  /** Marking an existing line removed keeps the cart constraints. */
  lemma RemoveKeepsCarts(carts: map<Id, Id>, items: map<Id, CartItem>, products: map<Id, Product>, e: Id)
    requires CartsValid(carts, items, products) && e in items
    ensures CartsValid(carts, items[e := items[e].(deleted := true)], products)
  {
    var after := items[e := items[e].(deleted := true)];
    forall i, j | i in after && j in after && !after[i].deleted && !after[j].deleted
      && after[i].cartId == after[j].cartId && after[i].productId == after[j].productId
      ensures i == j
    {
      assert i != e && j != e;
    }
  }

  /**
   * Adding a live line for a product the cart has no live line of keeps the
   * cart constraints, and appending its fresh id keeps the row order exact.
   */
  lemma AppendKeepsCarts(carts: map<Id, Id>, items: map<Id, CartItem>, ids: seq<Id>, products: map<Id, Product>,
                         f: Id, cartId: Id, productId: Id, q: int)
    requires CartsValid(carts, items, products) && Indexes(ids, items)
    requires f !in items && cartId in carts.Values && productId in products
    requires forall e :: !IsLiveLine(items, e, cartId, productId)
    ensures CartsValid(carts, items[f := CartItem(cartId, productId, q, false)], products)
    ensures Indexes(ids + [f], items[f := CartItem(cartId, productId, q, false)])
  {
    assert forall e :: e in items && items[e].cartId == cartId && items[e].productId == productId ==> items[e].deleted by {
      forall e | e in items && items[e].cartId == cartId && items[e].productId == productId
        ensures items[e].deleted
      {
        assert !IsLiveLine(items, e, cartId, productId);
      }
    }
  }

  /** Every line of a cart marked removed; the other carts' lines untouched. */
  function Cleared(items: map<Id, CartItem>, cartId: Id): (cleared: map<Id, CartItem>)
    ensures cleared.Keys == items.Keys
    ensures forall i :: i in items ==>
      cleared[i] == if items[i].cartId == cartId then items[i].(deleted := true) else items[i]
  {
    map i | i in items :: if items[i].cartId == cartId then items[i].(deleted := true) else items[i]
  }

  /** Marking lines removed keeps the cart constraints. */
  lemma ClearedKeepsCarts(carts: map<Id, Id>, items: map<Id, CartItem>, products: map<Id, Product>, cartId: Id)
    requires CartsValid(carts, items, products)
    ensures CartsValid(carts, Cleared(items, cartId), products)
  {
    var after := Cleared(items, cartId);
    forall i, j | i in after && j in after && !after[i].deleted && !after[j].deleted
      && after[i].cartId == after[j].cartId && after[i].productId == after[j].productId
      ensures i == j
    {
      assert !items[i].deleted && !items[j].deleted;
    }
  }

  /** After clearing a cart it has no live line. */
  lemma ClearedCartHasNoLiveLines(ids: seq<Id>, items: map<Id, CartItem>, products: map<Id, Product>, cartId: Id)
    ensures LiveCartLines(ids, Cleared(items, cartId), products, cartId) == []
  {
    LiveOnlyNone(CartLines(ids, Cleared(items, cartId), products, cartId));
  }

  // ---------------------------------------------------------------------
  // Stock
  // ---------------------------------------------------------------------

  /** The total quantity the lines take of product `productId`. */
  function QtyOf(lines: seq<CartLine>, productId: Id): int
  {
    if lines == [] then 0
    else
      var last := lines[|lines| - 1];
      QtyOf(lines[..|lines| - 1], productId) + (if last.item.productId == productId then last.item.quantity else 0)
  }

  /** Every product's stock lowered by the quantity the lines take of it. */
  function Debit(products: map<Id, Product>, lines: seq<CartLine>): (after: map<Id, Product>)
    ensures after.Keys == products.Keys
  {
    map p | p in products :: products[p].(stock := products[p].stock - QtyOf(lines, p))
  }

  /** Debiting stock keeps the catalog constraints and the cart references: only stock changes. */
  lemma DebitKeepsCatalog(products: map<Id, Product>, categories: map<Id, Category>, carts: map<Id, Id>,
                          items: map<Id, CartItem>, lines: seq<CartLine>)
    requires CatalogValid(products, categories) && CartsValid(carts, items, products)
    ensures CatalogValid(Debit(products, lines), categories) && CartsValid(carts, items, Debit(products, lines))
  {
    var after := Debit(products, lines);
    forall p, q | p in after && q in after && p != q
      ensures after[p].sku != after[q].sku && after[p].slug != after[q].slug
    {
      assert after[p].sku == products[p].sku && after[p].slug == products[p].slug;
      assert after[q].sku == products[q].sku && after[q].slug == products[q].slug;
    }
    forall p | p in after
      ensures after[p].categoryId in categories
    {
      assert after[p].categoryId == products[p].categoryId;
    }
  }

  /** When the lines name distinct products, each line's product loses exactly that line's quantity. */
  lemma {:induction false} QtyOfDistinct(lines: seq<CartLine>, k: nat)
    requires k < |lines|
    requires forall i, j :: 0 <= i < j < |lines| ==> lines[i].item.productId != lines[j].item.productId
    ensures QtyOf(lines, lines[k].item.productId) == lines[k].item.quantity
  {
    var n := |lines| - 1;
    var init := lines[..n];
    if k < n {
      assert init[k] == lines[k];
      QtyOfDistinct(init, k);
    } else {
      QtyOfAbsent(init, lines[k].item.productId);
    }
  }

  /** A product no line names loses nothing. */
  lemma {:induction false} QtyOfAbsent(lines: seq<CartLine>, productId: Id)
    requires forall i :: 0 <= i < |lines| ==> lines[i].item.productId != productId
    ensures QtyOf(lines, productId) == 0
  {
    if lines != [] {
      QtyOfAbsent(lines[..|lines| - 1], productId);
    }
  }

  /**
   * Debiting lines that name distinct products, each covered by its
   * product's stock, leaves every product's stock at its old value minus its
   * line's quantity, which is not negative, and every other product as it was.
   */
  lemma DebitWithinStock(products: map<Id, Product>, lines: seq<CartLine>)
    requires forall i, j :: 0 <= i < j < |lines| ==> lines[i].item.productId != lines[j].item.productId
    requires forall k :: 0 <= k < |lines| ==>
      lines[k].item.productId in products && products[lines[k].item.productId].stock >= lines[k].item.quantity
    ensures forall k :: 0 <= k < |lines| ==>
      Debit(products, lines)[lines[k].item.productId].stock == products[lines[k].item.productId].stock - lines[k].item.quantity >= 0
    ensures forall p :: p in products && (forall k :: 0 <= k < |lines| ==> lines[k].item.productId != p) ==>
      Debit(products, lines)[p] == products[p]
  {
    forall k | 0 <= k < |lines|
      ensures Debit(products, lines)[lines[k].item.productId].stock == products[lines[k].item.productId].stock - lines[k].item.quantity
    {
      QtyOfDistinct(lines, k);
    }
    forall p | p in products && (forall k :: 0 <= k < |lines| ==> lines[k].item.productId != p)
      ensures Debit(products, lines)[p] == products[p]
    {
      QtyOfAbsent(lines, p);
    }
  }
}
