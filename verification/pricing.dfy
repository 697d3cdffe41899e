/** Discounted unit price, subtotal, 5% tax and total. The source repeats
    the same inline expressions on the checkout, cart, orders and food-card
    views; the model states that page formula once (`InlineUnitPrice`,
    `PageBill`) beside a canonical definition (`EffectivePrice`,
    `Subtotal`) and proves the two agree. Arithmetic is exact: `real`, not
    IEEE doubles. */
module Pricing {
  import opened Wrappers
  import opened Store

  const TaxRate: real := 0.05

  /** JavaScript truthiness of the optional discount: absent and `0` are
      both falsy. */
  predicate DiscountApplies(item: FoodItem) {
    item.discount.Some? && item.discount.value != 0.0
  }

  /** A discount, if present, lies in [0, 100]. */
  predicate DiscountInRange(item: FoodItem) {
    item.discount.Some? ==> 0.0 <= item.discount.value <= 100.0
  }

  /** The unit price exactly as the pages write it:
      `discount ? price - (price * discount) / 100 : price`. */
  function InlineUnitPrice(item: FoodItem): real {
    if DiscountApplies(item) then item.price - (item.price * item.discount.value) / 100.0
    else item.price
  }

  /** The canonical effective price: price × (1 − discount/100), where a
      missing discount counts as 0. */
  function EffectivePrice(item: FoodItem): (r: real)
    ensures item.discount.GetOr(0.0) == 0.0 ==> r == item.price
    ensures item.price >= 0.0 && DiscountInRange(item) ==> 0.0 <= r <= item.price
  {
    var d := item.discount.GetOr(0.0);
    assert item.price >= 0.0 && 0.0 <= d <= 100.0 ==> 0.0 <= item.price * (d / 100.0) <= item.price;
    item.price * (1.0 - d / 100.0)
  }

  /** The inline formula and the canonical one give the same price for every
      item, whatever the discount (the truthiness test only skips a
      discount of 0, which changes nothing). */
  lemma InlineMatchesEffective(item: FoodItem)
    ensures InlineUnitPrice(item) == EffectivePrice(item)
  {
  }

  /** What one line costs: effective unit price times quantity. */
  function LineTotal(line: CartLine): real {
    EffectivePrice(line.item) * line.quantity as real
  }

  /** The per-line amount the cart, checkout and orders views display:
      `itemPrice * item.quantity` with the inline unit price. */
  function InlineLineTotal(line: CartLine): (r: real)
    ensures r == LineTotal(line)
  {
    InlineMatchesEffective(line.item);
    InlineUnitPrice(line.item) * line.quantity as real
  }

  /** The canonical subtotal: the sum of the line totals. */
  function Subtotal(lines: seq<CartLine>): real {
    if |lines| == 0 then 0.0 else LineTotal(lines[0]) + Subtotal(lines[1..])
  }

  /** `cart.reduce((sum, item) => sum + itemPrice * item.quantity, acc)`:
      the left fold the pages evaluate. It adds the canonical subtotal to its
      starting value. */
  function ReduceSubtotal(lines: seq<CartLine>, acc: real): (r: real)
    ensures r == acc + Subtotal(lines)
  {
    if |lines| == 0 then acc
    else
      InlineMatchesEffective(lines[0].item);
      ReduceSubtotal(lines[1..], acc + InlineUnitPrice(lines[0].item) * lines[0].quantity as real)
  }

  /** The subtotal of two carts laid end to end is the sum of their
      subtotals, so the order of the lines does not matter piecewise. */
  lemma {:induction false} SubtotalAppend(a: seq<CartLine>, b: seq<CartLine>)
    ensures Subtotal(a + b) == Subtotal(a) + Subtotal(b)
  {
    if |a| == 0 {
      assert a + b == b;
    } else {
      assert (a + b)[0] == a[0];
      assert (a + b)[1..] == a[1..] + b;
      SubtotalAppend(a[1..], b);
    }
  }

  /** Lines with a non-negative price, a discount in range and a
      non-negative quantity never produce a negative subtotal. */
  lemma {:induction false} SubtotalNonNegative(lines: seq<CartLine>)
    requires forall i :: 0 <= i < |lines| ==>
      lines[i].item.price >= 0.0 && DiscountInRange(lines[i].item) && lines[i].quantity >= 0
    ensures Subtotal(lines) >= 0.0
  {
    if |lines| > 0 {
      var p := EffectivePrice(lines[0].item);
      assert p >= 0.0;
      assert p * lines[0].quantity as real >= 0.0;
      SubtotalNonNegative(lines[1..]);
    }
  }

  /** The bill the cart and checkout views show. */
  datatype Bill = Bill(subtotal: real, tax: real, total: real)

  /** The page computation: fold the cart from 0, tax it at 5%, add the
      tax. */
  function PageBill(cart: seq<CartLine>): (b: Bill)
    ensures b.subtotal == Subtotal(cart)
    ensures b.tax == TaxRate * Subtotal(cart)
    ensures b.total == 1.05 * Subtotal(cart)
  {
    var subtotal := ReduceSubtotal(cart, 0.0);
    var tax := subtotal * 0.05;
    Bill(subtotal, tax, subtotal + tax)
  }

  /** A worked example: an item of price 100 with a
      20% discount, added twice, costs 160 before tax, 8 in tax and 168 in
      all. */
  lemma DiscountedPairExample(item: FoodItem)
    requires item.price == 100.0 && item.discount == Some(20.0)
    ensures PageBill([CartLine(item, 2, None)]) == Bill(160.0, 8.0, 168.0)
  {
    var cart := [CartLine(item, 2, None)];
    assert cart[1..] == [];
    assert Subtotal(cart) == 160.0;
  }
}
