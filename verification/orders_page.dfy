/** The customer's order history (src/app/orders/page.tsx). */
module OrdersPage {
  import opened Wrappers
  import opened Store
  import Seqs
  import Pricing

  /** `userOrders`: the ledger entries whose customer name equals the user's
      name exactly, in ledger order. */
  function CustomerOrders(orders: seq<Order>, name: string): (r: seq<Order>)
    ensures |r| <= |orders|
    ensures forall o :: o in r <==> o in orders && o.customerName == name
  {
    Seqs.Filter(orders, (o: Order) => o.customerName == name)
  }

  lemma CustomerOrdersKeepOrder(front: seq<Order>, back: seq<Order>, name: string)
    ensures CustomerOrders(front + back, name) == CustomerOrders(front, name) + CustomerOrders(back, name)
  {
    Seqs.FilterAppend(front, back, (o: Order) => o.customerName == name);
  }

  datatype OrdersView =
    | Hidden                          // no user: renders nothing
    | NoOrdersYet
    | OrderList(orders: seq<Order>)

  function View(st: AppState): (v: OrdersView)
    ensures v.Hidden? <==> st.user.None?
    ensures v.NoOrdersYet? <==>
      st.user.Some? && forall o :: o in st.orders ==> o.customerName != st.user.value.name
    ensures v.OrderList? ==> |v.orders| > 0 && v.orders == CustomerOrders(st.orders, st.user.value.name)
  {
    match st.user
    case None => Hidden
    case Some(u) =>
      var mine := CustomerOrders(st.orders, u.name);
      if |mine| == 0 then NoOrdersYet
      else
        assert mine[0] in mine;
        OrderList(mine)
  }

  /** The price shown beside each ordered line. */
  function LinePrice(line: CartLine): (r: real)
    ensures r == Pricing.EffectivePrice(line.item) * line.quantity as real
  {
    Pricing.InlineLineTotal(line)
  }

  /** The estimated time row: a truthy estimate of an order that is not
      completed. An estimate of 0 is falsy and hides the row; any estimate
      the checkout produces (at least 15) is shown until completion. */
  function ShowsEstimatedTime(o: Order): (shown: bool)
    ensures o.status == Completed || o.estimatedTime.None? ==> !shown
    ensures o.estimatedTime == Some(0) ==> !shown
    ensures o.estimatedTime.Some? && o.estimatedTime.value >= 15 ==> (shown <==> o.status != Completed)
  {
    o.estimatedTime.Some? && o.estimatedTime.value != 0 && o.status != Completed
  }

  datatype StatusMessage = ReadyForPickup | BeingPrepared | OrderReceived

  /** The three independent status banners of an order card. */
  function StatusMessages(status: Status): (r: seq<StatusMessage>)
    ensures |r| <= 1
    ensures |r| == 0 <==> status == Completed
  {
    (if status == Ready then [ReadyForPickup] else [])
    + (if status == Preparing then [BeingPrepared] else [])
    + (if status == Pending then [OrderReceived] else [])
  }

  /** The string a status carries in the source. */
  function StatusName(s: Status): string {
    match s
    case Pending => "pending"
    case Preparing => "preparing"
    case Ready => "ready"
    case Completed => "completed"
  }

  datatype Icon = ClockIcon | ChefHatIcon | PackageIcon | CheckCircleIcon

  /** `getStatusIcon`, which switches on any string. */
  function StatusIcon(status: string): Icon {
    if status == "pending" then ClockIcon
    else if status == "preparing" then ChefHatIcon
    else if status == "ready" then PackageIcon
    else if status == "completed" then CheckCircleIcon
    else ClockIcon
  }

  /** `getStatusColor`, which switches on any string. */
  function StatusColor(status: string): string {
    if status == "pending" then "bg-yellow-100 text-yellow-800"
    else if status == "preparing" then "bg-blue-100 text-blue-800"
    else if status == "ready" then "bg-green-100 text-green-800"
    else if status == "completed" then "bg-gray-100 text-gray-800"
    else "bg-gray-100 text-gray-800"
  }

  /** Each status gets its own icon and colour; an unknown string falls back
      to the pending icon and the completed colour. */
  lemma StatusStylesDistinct()
    ensures forall s, t :: s != t ==> StatusIcon(StatusName(s)) != StatusIcon(StatusName(t))
    ensures forall s, t :: s != t ==> StatusColor(StatusName(s)) != StatusColor(StatusName(t))
    ensures forall name :: (forall s :: name != StatusName(s)) ==>
      StatusIcon(name) == ClockIcon && StatusColor(name) == StatusColor("completed")
  {
    forall name | forall s :: name != StatusName(s)
      ensures StatusIcon(name) == ClockIcon && StatusColor(name) == StatusColor("completed")
    {
      assert name != StatusName(Pending) && name != StatusName(Preparing);
      assert name != StatusName(Ready) && name != StatusName(Completed);
    }
  }
}
