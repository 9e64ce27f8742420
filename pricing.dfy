/**
 * Money arithmetic of the cart view and of order placement. Amounts are
 * exact reals (rupees), so the 18% tax and the sums carry no rounding.
 */
module Pricing {
  import opened Entities

  /** The flat tax rate applied to an order's subtotal. */
  const TaxRate: real := 0.18
  /** Shipping is free for subtotals strictly above this amount. */
  const FreeShippingAbove: real := 500.0
  /** The shipping charge at or below the threshold. */
  const FlatShipping: real := 50.0

  /** Price times quantity of one loaded cart line, at the product's current price. */
  function LineTotal(line: CartLine): real
  {
    line.product.price * (line.item.quantity as real)
  }

  /** Sum of price times quantity over the lines. */
  function Subtotal(lines: seq<CartLine>): real
  {
    if lines == [] then 0.0 else LineTotal(lines[0]) + Subtotal(lines[1..])
  }

  /** Sum of the quantities over the lines. */
  function ItemCount(lines: seq<CartLine>): int
  {
    if lines == [] then 0 else lines[0].item.quantity + ItemCount(lines[1..])
  }

  function Tax(subtotal: real): real
  {
    subtotal * TaxRate
  }

  function ShippingCost(subtotal: real): (cost: real)
    ensures cost == 0.0 <==> subtotal > FreeShippingAbove
    ensures cost == 0.0 || cost == FlatShipping
  {
    if subtotal > FreeShippingAbove then 0.0 else FlatShipping
  }

  function Total(subtotal: real): real
  {
    subtotal + Tax(subtotal) + ShippingCost(subtotal)
  }

  /** The order lines of a cart, one per cart line and in the same order, priced now. */
  function OrderItems(lines: seq<CartLine>): (items: seq<OrderItem>)
    ensures |items| == |lines|
    ensures forall k :: 0 <= k < |lines| ==>
      items[k] == OrderItem(lines[k].item.productId, lines[k].item.quantity,
                            lines[k].product.price, LineTotal(lines[k]))
  {
    seq(|lines|, k requires 0 <= k < |lines| =>
      OrderItem(lines[k].item.productId, lines[k].item.quantity, lines[k].product.price, LineTotal(lines[k])))
  }

  /** Sum of the stored line totals of some order lines. */
  function ItemsTotal(items: seq<OrderItem>): real
  {
    if items == [] then 0.0 else items[0].total + ItemsTotal(items[1..])
  }

  /** Splitting the lines splits the subtotal. */
  lemma {:induction false} SubtotalAppend(a: seq<CartLine>, b: seq<CartLine>)
    ensures Subtotal(a + b) == Subtotal(a) + Subtotal(b)
  {
    if a != [] {
      assert (a + b)[0] == a[0] && (a + b)[1..] == a[1..] + b;
      SubtotalAppend(a[1..], b);
    } else {
      assert a + b == b;
    }
  }

  /** Splitting the lines splits the item count. */
  lemma {:induction false} ItemCountAppend(a: seq<CartLine>, b: seq<CartLine>)
    ensures ItemCount(a + b) == ItemCount(a) + ItemCount(b)
  {
    if a != [] {
      assert (a + b)[0] == a[0] && (a + b)[1..] == a[1..] + b;
      ItemCountAppend(a[1..], b);
    } else {
      assert a + b == b;
    }
  }

  /** The order lines' totals add up to the subtotal the order records. */
  lemma {:induction false} OrderItemsAddUp(lines: seq<CartLine>)
    ensures ItemsTotal(OrderItems(lines)) == Subtotal(lines)
  {
    if lines != [] {
      var items := OrderItems(lines);
      assert items[1..] == OrderItems(lines[1..]);
      OrderItemsAddUp(lines[1..]);
    }
  }

  /** With non-negative prices and quantities the subtotal and item count are non-negative. */
  lemma {:induction false} SubtotalNonNegative(lines: seq<CartLine>)
    requires forall k :: 0 <= k < |lines| ==> lines[k].product.price >= 0.0 && lines[k].item.quantity >= 0
    ensures Subtotal(lines) >= 0.0 && ItemCount(lines) >= 0
  {
    if lines != [] {
      SubtotalNonNegative(lines[1..]);
    }
  }

  /**
   * The total is the subtotal plus 18% tax, plus 50 unless the subtotal is
   * strictly above 500: a subtotal of exactly 500 still pays for shipping.
   */
  lemma TotalBreakdown(subtotal: real)
    ensures Tax(subtotal) == subtotal * 18.0 / 100.0
    ensures subtotal > 500.0 ==> Total(subtotal) == subtotal * 118.0 / 100.0
    ensures subtotal <= 500.0 ==> Total(subtotal) == subtotal * 118.0 / 100.0 + 50.0
    ensures Total(500.0) == 640.0
  {
  }

  /** Worked figures: 1999 gives 2358.82, 400 gives 522, two units at 999 give 2357.64. */
  lemma WorkedTotals(p: Product, item: CartItem)
    requires p.price == 999.0 && item.quantity == 2
    ensures Tax(1999.0) == 359.82 && ShippingCost(1999.0) == 0.0 && Total(1999.0) == 2358.82
    ensures Tax(400.0) == 72.0 && ShippingCost(400.0) == 50.0 && Total(400.0) == 522.0
    ensures Subtotal([CartLine("i", item, p)]) == 1998.0
    ensures Total(Subtotal([CartLine("i", item, p)])) == 2357.64
  {
    assert Subtotal([CartLine("i", item, p)]) == 1998.0;
  }
}
