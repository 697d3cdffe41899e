/** The navigation drawer (src/components/Sidebar.tsx): cart badge, menu
    categories and logout. */
module Sidebar {
  import opened Wrappers
  import opened Store
  import opened Routes

  /** The category names in display order. "All" is a filter, not a value an
      item carries. */
  const Categories: seq<string> := ["All", "Breakfast", "Lunch", "Dinner", "Snacks", "Juice"]

  lemma CategoriesDistinct()
    ensures |Categories| == 6
    ensures forall i, j :: 0 <= i < j < |Categories| ==> Categories[i] != Categories[j]
  {
  }

  /** A category button is highlighted when its name is the selected one. */
  predicate IsSelected(selected: string, name: string) {
    selected == name
  }

  /** Because the names are distinct, no selection highlights two buttons. */
  lemma AtMostOneSelected(selected: string)
    ensures forall i, j ::
      (0 <= i < |Categories| && 0 <= j < |Categories|
       && IsSelected(selected, Categories[i]) && IsSelected(selected, Categories[j])) ==> i == j
  {
    CategoriesDistinct();
  }

  /** `cart.reduce((sum, item) => sum + item.quantity, 0)`: the number of
      units in the cart. With every quantity at least one it is at least the
      number of lines, so it is zero only for the empty cart. */
  function CartItemsCount(cart: seq<CartLine>): (n: int)
    ensures QuantitiesPositive(cart) ==> n >= |cart|
  {
    if |cart| == 0 then 0
    else
      assert QuantitiesPositive(cart) ==> QuantitiesPositive(cart[1..]) by {
        if QuantitiesPositive(cart) {
          forall i | 0 <= i < |cart[1..]|
            ensures cart[1..][i].quantity >= 1
          {
            assert cart[1..][i] == cart[i + 1];
          }
        }
      }
      cart[0].quantity + CartItemsCount(cart[1..])
  }

  /** The left fold the source evaluates, from a running sum `acc`. */
  function ReduceCount(cart: seq<CartLine>, acc: int): (n: int)
    ensures n == acc + CartItemsCount(cart)
  {
    if |cart| == 0 then acc else ReduceCount(cart[1..], acc + cart[0].quantity)
  }

  /** Both cart buttons show the count badge when the count is positive;
      with every quantity at least one, that is exactly when the cart has a
      line. */
  function ShowsCountBadge(cart: seq<CartLine>): (shown: bool)
    ensures QuantitiesPositive(cart) ==> (shown <==> |cart| > 0)
  {
    ReduceCount(cart, 0) > 0
  }

  lemma {:induction false} CountAppend(a: seq<CartLine>, b: seq<CartLine>)
    ensures CartItemsCount(a + b) == CartItemsCount(a) + CartItemsCount(b)
  {
    if |a| == 0 {
      assert a + b == b;
    } else {
      assert (a + b)[0] == a[0];
      assert (a + b)[1..] == a[1..] + b;
      CountAppend(a[1..], b);
    }
  }

  lemma CountUpdate(cart: seq<CartLine>, k: int, line: CartLine)
    requires 0 <= k < |cart|
    ensures CartItemsCount(cart[k := line]) == CartItemsCount(cart) - cart[k].quantity + line.quantity
  {
    var pre, post := cart[..k], cart[k + 1..];
    assert cart == pre + [cart[k]] + post;
    assert cart[k := line] == pre + [line] + post;
    CountAppend(pre + [cart[k]], post);
    CountAppend(pre, [cart[k]]);
    CountAppend(pre + [line], post);
    CountAppend(pre, [line]);
    assert [line][1..] == [] && [cart[k]][1..] == [];
  }

  /** Adding any item to a cart with unique keys raises the badge count by
      exactly one, whether it bumps an existing line or appends a new one. */
  lemma AddToCartRaisesCountByOne(cart: seq<CartLine>, item: FoodItem, customization: Option<string>)
    requires KeysUnique(cart)
    ensures CartItemsCount(AddToCart(cart, item, customization)) == CartItemsCount(cart) + 1
  {
    var r := AddToCart(cart, item, customization);
    if HasLine(cart, item.id, customization) {
      var k :| 0 <= k < |cart| && SameKey(cart[k], item.id, customization);
      AddExistingLine(cart, item, customization, k);
      assert r == cart[k := cart[k].(quantity := cart[k].quantity + 1)];
      CountUpdate(cart, k, cart[k].(quantity := cart[k].quantity + 1));
    } else {
      assert r == cart + [CartLine(item, 1, customization)];
      CountAppend(cart, [CartLine(item, 1, customization)]);
      assert [CartLine(item, 1, customization)][1..] == [];
    }
  }

  /** `handleLogout`: the user is cleared, the cart and the ledger are not,
      and the browser goes to the sign-in page. */
  function Logout(st: AppState): (r: Outcome)
    ensures r.state.user.None?
    ensures r.state.cart == st.cart && r.state.orders == st.orders
    ensures r.destination == AuthRoute
  {
    Outcome(SetUser(st, None), AuthRoute)
  }
}
