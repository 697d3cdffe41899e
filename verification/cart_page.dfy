/** The cart view (src/app/cart/page.tsx): the bill, the empty view and the
    minus / plus / trash buttons, which call the store by item id. */
module CartPage {
  import opened Wrappers
  import opened Store
  import Pricing

  datatype CartView =
    | Hidden                                          // no user: renders nothing
    | EmptyCart                                       // "Your Cart is Empty"
    | LineList(lines: seq<CartLine>, bill: Pricing.Bill)

  function View(st: AppState): (v: CartView)
    ensures v.Hidden? <==> st.user.None?
    ensures v.EmptyCart? <==> st.user.Some? && |st.cart| == 0
    ensures v.LineList? ==> v.lines == st.cart && v.bill.total == 1.05 * Pricing.Subtotal(st.cart)
  {
    if st.user.None? then Hidden
    else if |st.cart| == 0 then EmptyCart
    else LineList(st.cart, Pricing.PageBill(st.cart))
  }

  /** The amounts beside one line: what it costs and, for a truthy discount,
      the undiscounted amount struck through. */
  datatype LineAmounts = LineAmounts(amount: real, struckThrough: Option<real>)

  function LineDisplay(line: CartLine): (d: LineAmounts)
    ensures d.amount == Pricing.LineTotal(line)
    ensures d.struckThrough.Some? <==> Pricing.DiscountApplies(line.item)
    ensures d.struckThrough.Some? ==> d.struckThrough.value == line.item.price * line.quantity as real
  {
    LineAmounts(
      Pricing.InlineLineTotal(line),
      if Pricing.DiscountApplies(line.item) then Some(line.item.price * line.quantity as real) else None)
  }

  /** For a non-negative price, a discount in range and a non-negative
      quantity, the amount charged never exceeds the undiscounted amount. */
  lemma ChargedNotAboveUndiscounted(line: CartLine)
    requires line.item.price >= 0.0 && Pricing.DiscountInRange(line.item) && line.quantity >= 0
    ensures LineDisplay(line).amount <= line.item.price * line.quantity as real
  {
    var e := Pricing.EffectivePrice(line.item);
    var q := line.quantity as real;
    assert (line.item.price - e) * q >= 0.0;
  }

  /** The minus button: `updateQuantity(item.id, item.quantity - 1)`. At
      quantity one every line of the item goes, as with the trash button;
      above one every line sharing the id gets the clicked line's quantity
      minus one. */
  function Decrement(cart: seq<CartLine>, line: CartLine): (r: seq<CartLine>)
    ensures line.quantity <= 1 ==> r == Trash(cart, line)
    ensures line.quantity <= 1 ==> forall l :: l in r <==> l in cart && l.item.id != line.item.id
    ensures line.quantity > 1 ==>
      && |r| == |cart|
      && forall i :: 0 <= i < |cart| ==>
           && r[i].item == cart[i].item && r[i].customization == cart[i].customization
           && r[i].quantity == (if cart[i].item.id == line.item.id then line.quantity - 1 else cart[i].quantity)
  {
    UpdateQuantity(cart, line.item.id, line.quantity - 1)
  }

  /** The plus button: `updateQuantity(item.id, item.quantity + 1)`. Every
      line sharing the id gets the clicked line's quantity plus one. */
  function Increment(cart: seq<CartLine>, line: CartLine): (r: seq<CartLine>)
    ensures line.quantity >= 0 ==>
      && |r| == |cart|
      && forall i :: 0 <= i < |cart| ==>
           && r[i].item == cart[i].item && r[i].customization == cart[i].customization
           && r[i].quantity == (if cart[i].item.id == line.item.id then line.quantity + 1 else cart[i].quantity)
  {
    UpdateQuantity(cart, line.item.id, line.quantity + 1)
  }

  /** The trash button: `removeFromCart(item.id)`. */
  function Trash(cart: seq<CartLine>, line: CartLine): (r: seq<CartLine>)
    ensures forall l :: l in r <==> l in cart && l.item.id != line.item.id
  {
    RemoveFromCart(cart, line.item.id)
  }

  /** Two lines of one item with different customizations: pressing plus on
      the first (quantity 1) also sets the second from 3 down to 2. */
  lemma IncrementOverwritesSibling(item: FoodItem)
    ensures var a := CartLine(item, 1, None);
      var b := CartLine(item, 3, Some("extra spicy"));
      Increment([a, b], a) == [CartLine(item, 2, None), CartLine(item, 2, Some("extra spicy"))]
  {
  }

  /** Pressing minus on a line of quantity one removes its differently
      customized sibling too. */
  lemma DecrementRemovesSibling(item: FoodItem)
    ensures var a := CartLine(item, 1, None);
      var b := CartLine(item, 3, Some("extra spicy"));
      Decrement([a, b], a) == []
  {
  }
}
