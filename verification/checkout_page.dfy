/** The checkout view (src/app/checkout/page.tsx): page guard, payment
    validation, and order placement, which appends one order and empties
    the cart. */
module CheckoutPage {
  import opened Wrappers
  import opened Store
  import opened Routes
  import Pricing
  import OrdersPage
  import CanteenDashboard
  import CartPage

  /** The payment radio group and its text inputs. */
  datatype PaymentForm = PaymentForm(
    paymentMethod: string, upiId: string, cardNumber: string, cardName: string, cvv: string, expiry: string)

  /** The form starts on "upi" with every field empty. */
  const InitialForm: PaymentForm := PaymentForm("upi", "", "", "", "", "")

  datatype Rejection =
    | NothingRendered      // no user or an empty cart: there is no button to press
    | MissingUpiId         // "Please enter your UPI ID"
    | MissingCardDetails   // "Please fill in all card details"

  /** The page renders only with a user and a non-empty cart. */
  predicate Rendered(st: AppState) {
    st.user.Some? && |st.cart| > 0
  }

  /** The effect's `router.push` calls, in order. */
  function Redirects(st: AppState): (r: seq<Route>)
    ensures |r| == 0 <==> Rendered(st)
    ensures AuthRoute in r <==> st.user.None?
    ensures HomeRoute in r <==> |st.cart| == 0
  {
    (if st.user.None? then [AuthRoute] else []) + (if |st.cart| == 0 then [HomeRoute] else [])
  }

  /** The bill in the right-hand column. */
  function Bill(st: AppState): (b: Pricing.Bill)
    ensures b.subtotal == Pricing.Subtotal(st.cart)
    ensures b.total == 1.05 * Pricing.Subtotal(st.cart)
  {
    Pricing.PageBill(st.cart)
  }

  /** The two checks at the top of `handlePlaceOrder`; an empty string is
      falsy. Any other method, "gpay" included, passes unchecked. */
  function CheckPayment(f: PaymentForm): (r: Option<Rejection>)
    ensures r != Some(NothingRendered)
    ensures r == Some(MissingUpiId) <==> f.paymentMethod == "upi" && f.upiId == ""
    ensures r == Some(MissingCardDetails) <==>
      f.paymentMethod == "card" && (f.cardNumber == "" || f.cardName == "" || f.cvv == "" || f.expiry == "")
    ensures f.paymentMethod != "upi" && f.paymentMethod != "card" ==> r.None?
    ensures f.upiId != "" && f.cardNumber != "" && f.cardName != "" && f.cvv != "" && f.expiry != "" ==> r.None?
  {
    if f.paymentMethod == "upi" && f.upiId == "" then Some(MissingUpiId)
    else if f.paymentMethod == "card" && (f.cardNumber == "" || f.cardName == "" || f.cvv == "" || f.expiry == "")
    then Some(MissingCardDetails)
    else None
  }

  /** `Math.floor(Math.random() * 15) + 15` for a draw in [0, 1). */
  function EstimatedTime(random: real): (t: int)
    requires 0.0 <= random < 1.0
    ensures 15 <= t <= 29
  {
    (random * 15.0).Floor + 15
  }

  /** The state after pressing "Place Order", the reason it was refused, if
      it was, and the `router.push` target of a successful placement. */
  datatype Placement = Placement(state: AppState, rejection: Option<Rejection>, destination: Option<Route>)

  /** `handlePlaceOrder`. The random draw, the order id and the creation time
      come from `Math.random`, `Math.random` and `new Date()` in the source. */
  function PlaceOrder(st: AppState, f: PaymentForm, random: real, newId: string, createdAt: int): (r: Placement)
    requires 0.0 <= random < 1.0
    ensures r.rejection.Some? ==> r.state == st && r.destination.None?
    ensures r.rejection.None? ==> r.destination == Some(OrdersRoute)
    ensures r.rejection == Some(NothingRendered) <==> !Rendered(st)
    ensures r.rejection == Some(MissingUpiId) <==> Rendered(st) && f.paymentMethod == "upi" && f.upiId == ""
    ensures r.rejection == Some(MissingCardDetails) <==>
      Rendered(st) && f.paymentMethod == "card"
      && (f.cardNumber == "" || f.cardName == "" || f.cvv == "" || f.expiry == "")
    ensures Rendered(st) && f.paymentMethod == "gpay" ==> r.rejection.None?
    ensures r.rejection.None? ==>
      && |r.state.orders| == |st.orders| + 1
      && r.state.orders[..|st.orders|] == st.orders
      && r.state.cart == []
      && r.state.user == st.user
      && var o := r.state.orders[|st.orders|];
         && o.id == newId && o.createdAt == createdAt
         && o.items == st.cart && |o.items| > 0
         && o.total == 1.05 * Pricing.Subtotal(st.cart)
         && o.status == Pending
         && o.paymentMethod == f.paymentMethod
         && o.estimatedTime.Some? && 15 <= o.estimatedTime.value <= 29
         && o.customerName == st.user.value.name
    // The cart is now empty, so the page's own effect also asks for /home.
    ensures r.rejection.None? ==> Redirects(r.state) == [HomeRoute]
  {
    if !Rendered(st) then Placement(st, Some(NothingRendered), None)
    else match CheckPayment(f)
      case Some(reason) => Placement(st, Some(reason), None)
      case None =>
        var draft := OrderDraft(st.cart, Bill(st).total, Pending, f.paymentMethod,
                                Some(EstimatedTime(random)), st.user.value.name);
        var placed := st.(orders := AddOrder(st.orders, draft, newId, createdAt));
        Placement(ClearCart(placed), None, Some(OrdersRoute))
  }

  /** The form as it first appears ("upi" with an empty UPI id) is
      refused and nothing changes. */
  lemma EmptyUpiIdIsRefused(st: AppState, random: real, newId: string, createdAt: int)
    requires Rendered(st) && 0.0 <= random < 1.0
    ensures PlaceOrder(st, InitialForm, random, newId, createdAt) == Placement(st, Some(MissingUpiId), None)
  {
  }

  /** A placed order shows up last in the customer's order history. */
  lemma PlacedOrderReachesHistory(st: AppState, f: PaymentForm, random: real, newId: string, createdAt: int)
    requires 0.0 <= random < 1.0
    requires PlaceOrder(st, f, random, newId, createdAt).rejection.None?
    ensures var after := PlaceOrder(st, f, random, newId, createdAt).state;
      var name := st.user.value.name;
      OrdersPage.CustomerOrders(after.orders, name)
      == OrdersPage.CustomerOrders(st.orders, name) + [after.orders[|st.orders|]]
  {
    var after := PlaceOrder(st, f, random, newId, createdAt).state;
    var name := st.user.value.name;
    var o := after.orders[|st.orders|];
    assert after.orders == st.orders + [o];
    OrdersPage.CustomerOrdersKeepOrder(st.orders, [o], name);
    assert [o][1..] == [];
  }

  /** A placed order joins the dashboard's pending tab, and its estimate is
      shown to the customer until it completes. */
  lemma PlacedOrderIsPending(st: AppState, f: PaymentForm, random: real, newId: string, createdAt: int)
    requires 0.0 <= random < 1.0
    requires PlaceOrder(st, f, random, newId, createdAt).rejection.None?
    ensures var after := PlaceOrder(st, f, random, newId, createdAt).state;
      var o := after.orders[|st.orders|];
      && o in CanteenDashboard.Bucket(after.orders, Pending)
      && OrdersPage.ShowsEstimatedTime(o)
      && !OrdersPage.ShowsEstimatedTime(o.(status := Completed))
  {
  }

  /** The cart view and the checkout view show the same bill for the same
      cart, and both equal 1.05 times the canonical subtotal. */
  lemma CartAndCheckoutAgree(st: AppState)
    requires Rendered(st)
    ensures CartPage.View(st).LineList?
    ensures CartPage.View(st).bill == Bill(st)
    ensures Bill(st).total == 1.05 * Pricing.Subtotal(st.cart)
  {
  }
}
