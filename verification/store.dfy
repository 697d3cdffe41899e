/** The application's state container: the catalog item, cart line and
    order records, and the operations that change the cart and the order
    ledger (src/lib/store.tsx). State updates are pure functions from the
    old value to the new one. */
module Store {
  import opened Wrappers
  import Seqs

  /** A menu entry. The optional `isCombo` and `customizable` flags read as
      `false` when absent, which is how the pages test them. */
  datatype FoodItem = FoodItem(
    id: string,
    name: string,
    category: string,
    price: real,
    image: string,
    rating: real,
    description: string,
    isAvailable: bool,
    discount: Option<real>,
    isCombo: bool,
    customizable: bool)

  /** A cart line: the item's fields, a quantity and an optional
      customization text. `None` and `Some("")` are different keys. */
  datatype CartLine = CartLine(item: FoodItem, quantity: int, customization: Option<string>)

  datatype Status = Pending | Preparing | Ready | Completed

  datatype Order = Order(
    id: string,
    items: seq<CartLine>,
    total: real,
    status: Status,
    paymentMethod: string,
    createdAt: int,
    estimatedTime: Option<int>,
    customerName: string)

  /** What a caller hands to `addOrder`: an order without id and timestamp. */
  datatype OrderDraft = OrderDraft(
    items: seq<CartLine>,
    total: real,
    status: Status,
    paymentMethod: string,
    estimatedTime: Option<int>,
    customerName: string)

  datatype Role = Customer | Canteen

  datatype User = User(name: string, role: Role)

  /** Everything the context provides: the signed-in user (or none), the
      cart and the order ledger. */
  datatype AppState = AppState(user: Option<User>, cart: seq<CartLine>, orders: seq<Order>)

  const InitialState: AppState := AppState(None, [], [])

  // ---------------------------------------------------------------------
  // Cart

  /** The deduplication key of `addToCart`: item id and customization. */
  predicate SameKey(line: CartLine, id: string, customization: Option<string>) {
    line.item.id == id && line.customization == customization
  }

  predicate HasLine(cart: seq<CartLine>, id: string, customization: Option<string>) {
    exists i :: 0 <= i < |cart| && SameKey(cart[i], id, customization)
  }

  /** No two lines share an (id, customization) pair. */
  ghost predicate KeysUnique(cart: seq<CartLine>) {
    forall i, j :: 0 <= i < j < |cart| ==>
      !SameKey(cart[j], cart[i].item.id, cart[i].customization)
  }

  /** Every line holds at least one unit. */
  ghost predicate QuantitiesPositive(cart: seq<CartLine>) {
    forall i :: 0 <= i < |cart| ==> cart[i].quantity >= 1
  }

  /** `addToCart(item, customization)`: bump the line with the same key, or
      append a fresh line with quantity 1. */
  function AddToCart(cart: seq<CartLine>, item: FoodItem, customization: Option<string>): (r: seq<CartLine>)
    ensures HasLine(r, item.id, customization)
    ensures HasLine(cart, item.id, customization) ==>
      && |r| == |cart|
      && forall i :: 0 <= i < |cart| ==>
           if SameKey(cart[i], item.id, customization)
           then r[i].item == cart[i].item && r[i].customization == customization
                && r[i].quantity == cart[i].quantity + 1
           else r[i] == cart[i]
    ensures !HasLine(cart, item.id, customization) ==>
      && |r| == |cart| + 1
      && r[..|cart|] == cart
      && r[|cart|].item == item && r[|cart|].quantity == 1
      && r[|cart|].customization == customization
  {
    if HasLine(cart, item.id, customization) then
      var r := seq(|cart|, i requires 0 <= i < |cart| =>
        if SameKey(cart[i], item.id, customization)
        then cart[i].(quantity := cart[i].quantity + 1)
        else cart[i]);
      assert HasLine(r, item.id, customization) by {
        var k :| 0 <= k < |cart| && SameKey(cart[k], item.id, customization);
        assert SameKey(r[k], item.id, customization);
      }
      r
    else
      var r := cart + [CartLine(item, 1, customization)];
      assert SameKey(r[|cart|], item.id, customization);
      r
  }

  /** `removeFromCart(id)`: drop every line of that item, whatever its
      customization. */
  function RemoveFromCart(cart: seq<CartLine>, id: string): (r: seq<CartLine>)
    ensures |r| <= |cart|
    ensures forall line :: line in r <==> line in cart && line.item.id != id
  {
    Seqs.Filter(cart, (line: CartLine) => line.item.id != id)
  }

  /** `updateQuantity(id, quantity)`: a non-positive quantity removes the
      item's lines, a positive one overwrites the quantity of all of them. */
  function UpdateQuantity(cart: seq<CartLine>, id: string, quantity: int): (r: seq<CartLine>)
    ensures quantity <= 0 ==> r == RemoveFromCart(cart, id)
    ensures quantity > 0 ==>
      && |r| == |cart|
      && forall i :: 0 <= i < |cart| ==>
           && r[i].item == cart[i].item
           && r[i].customization == cart[i].customization
           && r[i].quantity == (if cart[i].item.id == id then quantity else cart[i].quantity)
  {
    if quantity <= 0 then RemoveFromCart(cart, id)
    else
      seq(|cart|, i requires 0 <= i < |cart| =>
        if cart[i].item.id == id then cart[i].(quantity := quantity) else cart[i])
  }

  /** `clearCart()`: empty the cart; the user and the ledger stay. */
  function ClearCart(st: AppState): (r: AppState)
    ensures |r.cart| == 0
    ensures r.user == st.user && r.orders == st.orders
  {
    st.(cart := [])
  }

  /** `setUser(user)`: replace the signed-in user; cart and ledger stay. */
  function SetUser(st: AppState, user: Option<User>): (r: AppState)
    ensures r.user == user
    ensures r.cart == st.cart && r.orders == st.orders
  {
    st.(user := user)
  }

  // ---------------------------------------------------------------------
  // Order ledger

  /** No two orders of the ledger share an id. */
  ghost predicate IdsUnique(orders: seq<Order>) {
    forall i, j :: 0 <= i < j < |orders| ==> orders[i].id != orders[j].id
  }

  /** `addOrder(order)`: append the draft, completed with an id and a
      creation time. The source draws both from `Math.random` and
      `new Date()`; here they are parameters. */
  function AddOrder(orders: seq<Order>, draft: OrderDraft, id: string, createdAt: int): (r: seq<Order>)
    ensures |r| == |orders| + 1
    ensures r[..|orders|] == orders
    ensures var o := r[|orders|];
      && o.id == id && o.createdAt == createdAt
      && o.items == draft.items && o.total == draft.total && o.status == draft.status
      && o.paymentMethod == draft.paymentMethod && o.estimatedTime == draft.estimatedTime
      && o.customerName == draft.customerName
  {
    orders + [Order(id, draft.items, draft.total, draft.status, draft.paymentMethod,
                    createdAt, draft.estimatedTime, draft.customerName)]
  }

  /** `updateOrderStatus(orderId, status)`: overwrite the status of the
      orders with that id, with no check of the transition. */
  function UpdateOrderStatus(orders: seq<Order>, orderId: string, status: Status): (r: seq<Order>)
    ensures |r| == |orders|
    ensures forall i :: 0 <= i < |orders| ==>
      && r[i].(status := orders[i].status) == orders[i]
      && r[i].status == (if orders[i].id == orderId then status else orders[i].status)
  {
    seq(|orders|, i requires 0 <= i < |orders| =>
      if orders[i].id == orderId then orders[i].(status := status) else orders[i])
  }

  // ---------------------------------------------------------------------
  // Properties of the cart operations

  /** The application starts signed out, with an empty cart and ledger, so
      every invariant below holds from the start. */
  lemma InitialStateInvariants()
    ensures InitialState.user.None? && |InitialState.cart| == 0 && |InitialState.orders| == 0
    ensures KeysUnique(InitialState.cart) && QuantitiesPositive(InitialState.cart)
    ensures IdsUnique(InitialState.orders)
  {
  }

  /** With unique keys, an existing line is bumped by exactly one and every
      other line is left alone. */
  lemma AddExistingLine(cart: seq<CartLine>, item: FoodItem, customization: Option<string>, k: int)
    requires KeysUnique(cart)
    requires 0 <= k < |cart| && SameKey(cart[k], item.id, customization)
    ensures var r := AddToCart(cart, item, customization);
      && |r| == |cart|
      && r[k] == cart[k].(quantity := cart[k].quantity + 1)
      && forall i :: 0 <= i < |cart| && i != k ==> r[i] == cart[i]
  {
  }

  lemma AddToCartKeepsKeysUnique(cart: seq<CartLine>, item: FoodItem, customization: Option<string>)
    requires KeysUnique(cart)
    ensures KeysUnique(AddToCart(cart, item, customization))
  {
    var r := AddToCart(cart, item, customization);
    if HasLine(cart, item.id, customization) {
      forall i, j | 0 <= i < j < |r|
        ensures !SameKey(r[j], r[i].item.id, r[i].customization)
      {
        assert !SameKey(cart[j], cart[i].item.id, cart[i].customization);
      }
    } else {
      forall i, j | 0 <= i < j < |r|
        ensures !SameKey(r[j], r[i].item.id, r[i].customization)
      {
        if j == |cart| {
          assert r[i] == cart[i];
        } else {
          assert r[i] == cart[i] && r[j] == cart[j];
        }
      }
    }
  }

  lemma RemoveFromCartKeepsKeysUnique(cart: seq<CartLine>, id: string)
    requires KeysUnique(cart)
    ensures KeysUnique(RemoveFromCart(cart, id))
  {
    KeepLinesKeepsKeysUnique(cart, (line: CartLine) => line.item.id != id);
  }

  /** A cart with a line in front has unique keys exactly when the rest
      does and no line of the rest shares the front line's key. */
  lemma KeysUniqueCons(x: CartLine, rest: seq<CartLine>)
    ensures KeysUnique([x] + rest) <==>
      (forall l :: l in rest ==> !SameKey(l, x.item.id, x.customization)) && KeysUnique(rest)
  {
    var c := [x] + rest;
    if KeysUnique(c) {
      forall i, j | 0 <= i < j < |rest|
        ensures !SameKey(rest[j], rest[i].item.id, rest[i].customization)
      {
        assert rest[i] == c[i + 1] && rest[j] == c[j + 1];
      }
      forall l | l in rest
        ensures !SameKey(l, x.item.id, x.customization)
      {
        var m :| 0 <= m < |rest| && rest[m] == l;
        assert c[0] == x && c[m + 1] == l;
      }
    }
    if (forall l :: l in rest ==> !SameKey(l, x.item.id, x.customization)) && KeysUnique(rest) {
      forall i, j | 0 <= i < j < |c|
        ensures !SameKey(c[j], c[i].item.id, c[i].customization)
      {
        assert c[j] == rest[j - 1];
        if i > 0 {
          assert c[i] == rest[i - 1];
        }
      }
    }
  }

  /** Any filter of a cart with unique keys still has unique keys. */
  lemma {:induction false} KeepLinesKeepsKeysUnique(cart: seq<CartLine>, p: CartLine -> bool)
    requires KeysUnique(cart)
    ensures KeysUnique(Seqs.Filter(cart, p))
  {
    if |cart| > 0 {
      var x, rest := cart[0], cart[1..];
      assert cart == [x] + rest;
      KeysUniqueCons(x, rest);
      KeepLinesKeepsKeysUnique(rest, p);
      if p(x) {
        KeysUniqueCons(x, Seqs.Filter(rest, p));
      }
    }
  }

  lemma UpdateQuantityKeepsKeysUnique(cart: seq<CartLine>, id: string, quantity: int)
    requires KeysUnique(cart)
    ensures KeysUnique(UpdateQuantity(cart, id, quantity))
  {
    if quantity <= 0 {
      RemoveFromCartKeepsKeysUnique(cart, id);
    } else {
      var r := UpdateQuantity(cart, id, quantity);
      forall i, j | 0 <= i < j < |r|
        ensures !SameKey(r[j], r[i].item.id, r[i].customization)
      {
        assert !SameKey(cart[j], cart[i].item.id, cart[i].customization);
      }
    }
  }

  /** Every cart operation keeps each line's quantity at one or more; only
      `updateQuantity` with a non-positive quantity could break it, and it
      removes the lines instead. */
  lemma CartOperationsKeepQuantitiesPositive(
    st: AppState, item: FoodItem, customization: Option<string>, id: string, quantity: int)
    requires QuantitiesPositive(st.cart)
    ensures QuantitiesPositive(AddToCart(st.cart, item, customization))
    ensures QuantitiesPositive(RemoveFromCart(st.cart, id))
    ensures QuantitiesPositive(UpdateQuantity(st.cart, id, quantity))
    ensures QuantitiesPositive(ClearCart(st).cart)
  {
    var added := AddToCart(st.cart, item, customization);
    forall i | 0 <= i < |added|
      ensures added[i].quantity >= 1
    {
      if i < |st.cart| {
        assert added[i].quantity >= st.cart[i].quantity;
      }
    }
    var removed := RemoveFromCart(st.cart, id);
    forall i | 0 <= i < |removed|
      ensures removed[i].quantity >= 1
    {
      assert removed[i] in st.cart;
    }
    if quantity > 0 {
      var updated := UpdateQuantity(st.cart, id, quantity);
      forall i | 0 <= i < |updated|
        ensures updated[i].quantity >= 1
      {
        assert updated[i].quantity == quantity || updated[i].quantity == st.cart[i].quantity;
      }
    }
  }

  /** Adding the same (item, customization) twice to an empty cart gives one
      line of quantity two. */
  lemma AddSameKeyTwice(item: FoodItem, customization: Option<string>)
    ensures AddToCart(AddToCart([], item, customization), item, customization)
            == [CartLine(item, 2, customization)]
  {
    var once := AddToCart([], item, customization);
    assert once == [CartLine(item, 1, customization)];
    assert SameKey(once[0], item.id, customization);
  }

  /** Adding the same item with two different customizations gives two
      lines; in particular `None` (no dialog) and `Some("")` (empty dialog
      text) are kept apart. */
  lemma AddDifferentCustomizations(item: FoodItem, c1: Option<string>, c2: Option<string>)
    requires c1 != c2
    ensures AddToCart(AddToCart([], item, c1), item, c2)
            == [CartLine(item, 1, c1), CartLine(item, 1, c2)]
  {
    var once := AddToCart([], item, c1);
    assert once == [CartLine(item, 1, c1)];
    assert !HasLine(once, item.id, c2);
  }

  /** Removal keeps the surviving lines in their original order. */
  lemma RemoveFromCartKeepsOrder(front: seq<CartLine>, back: seq<CartLine>, id: string)
    ensures RemoveFromCart(front + back, id) == RemoveFromCart(front, id) + RemoveFromCart(back, id)
  {
    Seqs.FilterAppend(front, back, (line: CartLine) => line.item.id != id);
  }

  /** Removal by id takes away lines with any customization: a cart
      without that id is untouched, and a cart holding only that item, in
      whatever customizations, becomes empty. */
  lemma RemoveFromCartIgnoresCustomization(cart: seq<CartLine>, id: string)
    ensures forall line :: line in RemoveFromCart(cart, id) ==> line.item.id != id
    ensures (forall i :: 0 <= i < |cart| ==> cart[i].item.id != id) ==> RemoveFromCart(cart, id) == cart
    ensures (forall i :: 0 <= i < |cart| ==> cart[i].item.id == id) ==> RemoveFromCart(cart, id) == []
  {
    if forall i :: 0 <= i < |cart| ==> cart[i].item.id != id {
      Seqs.FilterKeepsAll(cart, (line: CartLine) => line.item.id != id);
    }
    if forall i :: 0 <= i < |cart| ==> cart[i].item.id == id {
      Seqs.FilterDropsAll(cart, (line: CartLine) => line.item.id != id);
    }
  }

  // ---------------------------------------------------------------------
  // Properties of the ledger operations

  /** Appending an order with a fresh id keeps the ledger's ids unique. */
  lemma AddOrderKeepsIdsUnique(orders: seq<Order>, draft: OrderDraft, id: string, createdAt: int)
    requires IdsUnique(orders)
    requires forall i :: 0 <= i < |orders| ==> orders[i].id != id
    ensures IdsUnique(AddOrder(orders, draft, id, createdAt))
  {
    var r := AddOrder(orders, draft, id, createdAt);
    forall i, j | 0 <= i < j < |r|
      ensures r[i].id != r[j].id
    {
      assert r[i] == orders[i];
      if j < |orders| {
        assert r[j] == orders[j];
      }
    }
  }

  lemma UpdateOrderStatusKeepsIdsUnique(orders: seq<Order>, orderId: string, status: Status)
    requires IdsUnique(orders)
    ensures IdsUnique(UpdateOrderStatus(orders, orderId, status))
  {
    var r := UpdateOrderStatus(orders, orderId, status);
    forall i, j | 0 <= i < j < |r|
      ensures r[i].id != r[j].id
    {
      assert r[i].(status := orders[i].status) == orders[i];
      assert r[j].(status := orders[j].status) == orders[j];
    }
  }

  /** With unique ids, a status update rewrites exactly one ledger entry. */
  lemma UpdateOrderStatusAt(orders: seq<Order>, k: int, status: Status)
    requires IdsUnique(orders)
    requires 0 <= k < |orders|
    ensures UpdateOrderStatus(orders, orders[k].id, status) == orders[k := orders[k].(status := status)]
  {
    var r := UpdateOrderStatus(orders, orders[k].id, status);
    var s := orders[k := orders[k].(status := status)];
    forall i | 0 <= i < |orders|
      ensures r[i] == s[i]
    {
      if i != k {
        assert orders[i].id != orders[k].id;
      }
    }
  }

  /** The store accepts any target status, including a move backwards from
      `completed` to `pending`. */
  lemma UpdateOrderStatusAllowsBackwardMove(o: Order)
    requires o.status == Completed
    ensures UpdateOrderStatus([o], o.id, Pending) == [o.(status := Pending)]
  {
    var r := UpdateOrderStatus([o], o.id, Pending);
    assert r[0] == o.(status := Pending);
  }
}
