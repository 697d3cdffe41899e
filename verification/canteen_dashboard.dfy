/** The staff dashboard (src/app/canteen-dashboard/page.tsx): role guard,
    the four status tabs and the one action button per order. */
module CanteenDashboard {
  import opened Wrappers
  import opened Store
  import opened Routes
  import Seqs

  /** The dashboard renders only for a signed-in canteen user. */
  predicate Visible(user: Option<User>) {
    user.Some? && user.value.role == Canteen
  }

  /** Anyone else is sent to the sign-in page, customers included. */
  function Redirect(user: Option<User>): (r: Option<Route>)
    ensures r.None? <==> Visible(user)
    ensures r.Some? ==> r.value == AuthRoute
  {
    if Visible(user) then None else Some(AuthRoute)
  }

  /** One status tab: `orders.filter(o => o.status === status)`. */
  function Bucket(orders: seq<Order>, status: Status): (r: seq<Order>)
    ensures forall o :: o in r <==> o in orders && o.status == status
  {
    Seqs.Filter(orders, (o: Order) => o.status == status)
  }

  lemma BucketKeepsOrder(front: seq<Order>, back: seq<Order>, status: Status)
    ensures Bucket(front + back, status) == Bucket(front, status) + Bucket(back, status)
  {
    Seqs.FilterAppend(front, back, (o: Order) => o.status == status);
  }

  /** Putting an order in front of a ledger puts it in front of its own
      tab and leaves the other tabs as they were. */
  lemma BucketCons(o: Order, rest: seq<Order>, status: Status)
    ensures Bucket([o] + rest, status)
            == if o.status == status then [o] + Bucket(rest, status) else Bucket(rest, status)
  {
    assert ([o] + rest)[0] == o;
    assert ([o] + rest)[1..] == rest;
  }

  /** The same step, counted as a multiset. */
  lemma BucketMultisetCons(o: Order, rest: seq<Order>, status: Status)
    ensures multiset(Bucket([o] + rest, status))
            == (if o.status == status then multiset{o} else multiset{}) + multiset(Bucket(rest, status))
  {
    BucketCons(o, rest, status);
  }

  /** Adding one element to any one of four parts adds it to their union,
      whichever part it joins. */
  lemma MultisetRegroup(one: multiset<Order>, a: multiset<Order>, b: multiset<Order>,
                        c: multiset<Order>, d: multiset<Order>)
    ensures (one + a) + b + c + d == one + (a + b + c + d)
    ensures a + (one + b) + c + d == one + (a + b + c + d)
    ensures a + b + (one + c) + d == one + (a + b + c + d)
    ensures a + b + c + (one + d) == one + (a + b + c + d)
  {
  }

  /** The sum of the four tabs as one multiset. */
  function AllTabs(orders: seq<Order>): multiset<Order> {
    multiset(Bucket(orders, Pending)) + multiset(Bucket(orders, Preparing))
    + multiset(Bucket(orders, Ready)) + multiset(Bucket(orders, Completed))
  }

  /** The front order of a ledger appears once in the four tabs taken
      together, on top of what the rest of the ledger puts there. */
  lemma AllTabsFront(orders: seq<Order>)
    requires |orders| > 0
    ensures AllTabs(orders) == multiset{orders[0]} + AllTabs(orders[1..])
  {
    var o, rest := orders[0], orders[1..];
    assert orders == [o] + rest;
    BucketMultisetCons(o, rest, Pending);
    BucketMultisetCons(o, rest, Preparing);
    BucketMultisetCons(o, rest, Ready);
    BucketMultisetCons(o, rest, Completed);
    var one := multiset{o};
    var p, q, y, c :=
      multiset(Bucket(rest, Pending)), multiset(Bucket(rest, Preparing)),
      multiset(Bucket(rest, Ready)), multiset(Bucket(rest, Completed));
    MultisetRegroup(one, p, q, y, c);
  }

  /** The four tabs partition the ledger: together they hold every order
      exactly as often as the ledger does. */
  lemma {:induction false} BucketsPartition(orders: seq<Order>)
    ensures AllTabs(orders) == multiset(orders)
  {
    if |orders| > 0 {
      BucketsPartition(orders[1..]);
      AllTabsFront(orders);
      Seqs.MultisetFront(orders);
    }
  }

  /** Hence the tab counts add up to the ledger's length. */
  lemma BucketSizesSum(orders: seq<Order>)
    ensures |Bucket(orders, Pending)| + |Bucket(orders, Preparing)|
            + |Bucket(orders, Ready)| + |Bucket(orders, Completed)| == |orders|
  {
    BucketsPartition(orders);
    assert |multiset(orders)| == |orders|;
    assert |multiset(Bucket(orders, Pending))| == |Bucket(orders, Pending)|;
    assert |multiset(Bucket(orders, Preparing))| == |Bucket(orders, Preparing)|;
    assert |multiset(Bucket(orders, Ready))| == |Bucket(orders, Ready)|;
    assert |multiset(Bucket(orders, Completed))| == |Bucket(orders, Completed)|;
  }

  /** The single action button an order of a given status offers. */
  function NextAction(status: Status): (r: Option<Status>)
    ensures r.None? <==> status == Completed
  {
    match status
    case Pending => Some(Preparing)
    case Preparing => Some(Ready)
    case Ready => Some(Completed)
    case Completed => None
  }

  /** Position of a status along the lifecycle. */
  function Stage(status: Status): nat {
    match status
    case Pending => 0
    case Preparing => 1
    case Ready => 2
    case Completed => 3
  }

  /** Every offered action moves exactly one stage forward. */
  lemma NextActionAdvancesOneStage(status: Status)
    ensures NextAction(status).Some? ==> Stage(NextAction(status).value) == Stage(status) + 1
  {
  }

  /** The status reached by pressing the offered button `n` times. */
  function Follow(status: Status, n: nat): (r: Status)
    decreases n
    ensures Stage(r) == if Stage(status) + n <= 3 then Stage(status) + n else 3
  {
    if n == 0 then status
    else match NextAction(status)
      case None => status
      case Some(next) => Follow(next, n - 1)
  }

  /** From `pending` the buttons reach `completed` in exactly three presses,
      never visiting a status twice. */
  lemma LifecycleFromPending()
    ensures Follow(Pending, 3) == Completed
    ensures forall n :: 0 <= n < 3 ==> Follow(Pending, n) != Completed
    ensures forall m, n :: 0 <= m < n <= 3 ==> Follow(Pending, m) != Follow(Pending, n)
  {
  }

  /** `handleStatusUpdate`: hand the new status to the store. Every order
      carrying the id takes the new status and nothing else about it
      changes; every other order is left as it was. */
  function HandleStatusUpdate(orders: seq<Order>, orderId: string, newStatus: Status): (r: seq<Order>)
    ensures |r| == |orders|
    ensures forall i :: 0 <= i < |orders| ==>
      r[i] == if orders[i].id == orderId then orders[i].(status := newStatus) else orders[i]
  {
    UpdateOrderStatus(orders, orderId, newStatus)
  }

  /** Pressing the offered button on one order moves that order from its tab
      to the next one; every other order keeps its tab. */
  lemma ActionMovesOneOrder(orders: seq<Order>, k: int)
    requires IdsUnique(orders)
    requires 0 <= k < |orders| && orders[k].status != Completed
    ensures var from := orders[k].status;
      var to := NextAction(from).value;
      var r := HandleStatusUpdate(orders, orders[k].id, to);
      && r[k].status == to
      && (forall i :: 0 <= i < |orders| && i != k ==> r[i] == orders[i])
      && |Bucket(r, from)| == |Bucket(orders, from)| - 1
      && |Bucket(r, to)| == |Bucket(orders, to)| + 1
      && forall s :: s != from && s != to ==> |Bucket(r, s)| == |Bucket(orders, s)|
  {
    var from := orders[k].status;
    var to := NextAction(from).value;
    var moved := orders[k].(status := to);
    UpdateOrderStatusAt(orders, k, to);
    forall s
      ensures |Bucket(orders[k := moved], s)|
              == |Bucket(orders, s)| - (if from == s then 1 else 0) + (if to == s then 1 else 0)
    {
      Seqs.FilterUpdateLength(orders, k, moved, (o: Order) => o.status == s);
    }
  }

  /** The bell's badge appears exactly when some order is pending. */
  function ShowsPendingBadge(orders: seq<Order>): (shown: bool)
    ensures shown <==> exists i :: 0 <= i < |orders| && orders[i].status == Pending
  {
    PendingBadgeIffPendingOrder(orders);
    |Bucket(orders, Pending)| > 0
  }

  /** The pending tab is non-empty exactly when some order is pending. */
  lemma PendingBadgeIffPendingOrder(orders: seq<Order>)
    ensures |Bucket(orders, Pending)| > 0 <==> exists i :: 0 <= i < |orders| && orders[i].status == Pending
  {
    var b := Bucket(orders, Pending);
    if |b| > 0 {
      assert b[0] in b;
    } else if exists i :: 0 <= i < |orders| && orders[i].status == Pending {
      var i :| 0 <= i < |orders| && orders[i].status == Pending;
      assert orders[i] in b;
    }
  }

  /** Logging out from the dashboard clears the user only, then goes to the
      sign-in page. */
  function Logout(st: AppState): (r: Outcome)
    ensures r.state.user.None? && r.state.cart == st.cart && r.state.orders == st.orders
    ensures r.destination == AuthRoute
  {
    Outcome(SetUser(st, None), AuthRoute)
  }
}
