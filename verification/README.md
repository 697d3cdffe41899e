# Madras Foodie canteen ordering — Dafny model

This project models the client-side order system of a college-canteen web
storefront. Customers browse a menu, build a cart, check out and follow
their orders. Canteen staff move each order through
pending → preparing → ready → completed.

All of the logic lives in one React context (`src/lib/store.tsx`) and in a
few decisions made inside the page components. The model mirrors that layout:

| module | file | models |
|---|---|---|
| `Wrappers` | wrappers.dfy | `Option`, for optional fields and `undefined`/`null` |
| `Seqs` | seqs.dfy | `Array.prototype.filter` and its laws |
| `Store` | store.dfy | item, cart line, order and user records; cart and ledger operations |
| `Pricing` | pricing.dfy | discounted unit price, subtotal, 5% tax, total |
| `Routes` | routes.dfy | navigation targets, a handler's (state, target) outcome, the signed-in guard |
| `CheckoutPage` | checkout_page.dfy | page guard, payment checks, order placement |
| `CartPage` | cart_page.dfy | cart view, bill, the minus/plus/trash buttons |
| `CanteenDashboard` | canteen_dashboard.dfy | role guard, status tabs, the action table |
| `OrdersPage` | orders_page.dfy | per-customer history and its display rules |
| `FoodCard` | food_card.dfy | card price, add button, customization dialog |
| `Sidebar` | sidebar.dfy | cart badge count, categories, logout |
| `HomePage` | home_page.dfy | category filter and add-to-cart delegation |
| `AuthPage` | auth_page.dfy | sign-in name, sign-up, role → destination |
| `RootPage` | root_page.dfy | redirect from `/` |

State is an immutable `AppState(user, cart, orders)`. Each store operation is
a pure function from the old value to the new one. Navigation is a returned
`Route` value. Prices are exact `real`s. The cart is a `seq<CartLine>` and
the ledger is a `seq<Order>`. A line's customization is an `Option<string>`:
adding a plain item gives `None`, while confirming an empty dialog gives
`Some("")`, and the store treats these as different keys.

The cart behaviour is modelled as written. `addToCart` merges lines on the pair
(id, customization). `removeFromCart` and `updateQuantity` match on the id
alone. As a result, the plus, minus and trash buttons of one line also affect
every other line of the same item (`CartPage.IncrementOverwritesSibling`,
`CartPage.DecrementRemovesSibling`). `updateOrderStatus` accepts any status,
including a move backwards. Only the dashboard's buttons keep orders moving
forward one step at a time.

With no user or an empty cart, the checkout view renders nothing, so its
"Place Order" button does not exist. `CheckoutPage.PlaceOrder` is total:
it reports that case as the rejection `NothingRendered` and leaves the
state unchanged.

The estimated preparation time is computed as
`Math.floor(Math.random() * 15) + 15` (src/app/checkout/page.tsx:60). The
comment on that line says "15-30 minutes", but the expression cannot exceed
29. The model follows the expression: `CheckoutPage.EstimatedTime` is proved
to lie in [15, 29].

## Model

| member | source | states |
|---|---|---|
| Store.AddToCart | src/lib/store.tsx:70-82 | afterwards the cart holds a line with the key; if one existed, every line with that key gains exactly one unit, the length stays the same and all other lines are unchanged; otherwise exactly one line (item, quantity 1, customization) is appended after the unchanged old lines |
| Store.AddExistingLine | src/lib/store.tsx:72-78 | when keys are unique, bumping an existing key changes only that one line, by exactly one unit |
| Store.InitialStateInvariants | src/lib/store.tsx:51-53 | the application starts signed out with an empty cart and ledger, so unique keys, positive quantities and unique order ids hold from the start |
| Store.AddToCartKeepsKeysUnique | src/lib/store.tsx:70-82 | adding keeps the (id, customization) pairs of the cart pairwise distinct |
| Store.AddSameKeyTwice | src/lib/store.tsx:72-80 | adding the same pair twice to an empty cart gives one line of quantity 2 |
| Store.AddDifferentCustomizations | src/lib/store.tsx:72-80 | the same item with two different customizations (including `None` vs `Some("")`) gives two lines |
| Store.RemoveFromCart | src/lib/store.tsx:84-86 | a line survives if and only if its id differs, whatever its customization |
| Store.RemoveFromCartKeepsOrder | src/lib/store.tsx:84-86 | removal distributes over concatenation, so the survivors keep their relative order |
| Store.RemoveFromCartIgnoresCustomization | src/lib/store.tsx:84-86 | no line with the id remains; a cart without that id is returned unchanged; a cart holding only that item, in any customizations, becomes empty |
| Store.RemoveFromCartKeepsKeysUnique | src/lib/store.tsx:84-86 | removal keeps the keys pairwise distinct |
| Store.UpdateQuantity | src/lib/store.tsx:88-96 | a quantity ≤ 0 acts exactly like removal; a positive quantity is written to every line with the id, and the length, items, customizations and other quantities stay the same |
| Store.UpdateQuantityKeepsKeysUnique | src/lib/store.tsx:88-96 | updating keeps the keys pairwise distinct |
| Store.CartOperationsKeepQuantitiesPositive | src/lib/store.tsx:70-100 | if every quantity is ≥ 1 before add, remove, update (any quantity) or clear, the same holds afterwards |
| Store.ClearCart | src/lib/store.tsx:98-100 | the cart becomes empty; the user and the ledger are kept |
| Store.SetUser | src/lib/store.tsx:36-37 | only the user changes; the cart and the ledger are kept |
| Store.AddOrder | src/lib/store.tsx:102-109 | exactly one order is appended, carrying the draft's fields plus the given id and time; earlier orders are unchanged |
| Store.AddOrderKeepsIdsUnique | src/lib/store.tsx:102-109 | with a fresh id, the ledger's ids stay pairwise distinct |
| Store.UpdateOrderStatus | src/lib/store.tsx:111-115 | the length stays the same; only the `status` field of orders with the id changes, to the requested value |
| Store.UpdateOrderStatusKeepsIdsUnique | src/lib/store.tsx:111-115 | status updates keep the ids pairwise distinct |
| Store.UpdateOrderStatusAt | src/lib/store.tsx:111-115 | with unique ids, an update rewrites exactly the one entry carrying that id |
| Store.UpdateOrderStatusAllowsBackwardMove | src/lib/store.tsx:111-115 | a completed order can be set back to pending: no transition is checked |
| Pricing.EffectivePrice | src/app/checkout/page.tsx:39-41 | with no discount or a discount of 0 the price is unchanged; for price ≥ 0 and discount in [0,100] the result lies in [0, price] |
| Pricing.InlineMatchesEffective | src/app/checkout/page.tsx:39-41 | the inline truthiness-branch formula equals price × (1 − discount/100) for every item |
| Pricing.InlineLineTotal | src/app/checkout/page.tsx:202-214 | each line amount displayed is effective price × quantity |
| Pricing.ReduceSubtotal | src/app/checkout/page.tsx:38-43 | the page's `reduce` fold, started from any value, adds the sum of the canonical line totals to that value |
| Pricing.SubtotalAppend | src/app/checkout/page.tsx:38-43 | the subtotal of two carts joined end to end is the sum of their subtotals |
| Pricing.SubtotalNonNegative | src/app/checkout/page.tsx:38-43 | with non-negative prices and quantities and discounts in range, the subtotal is ≥ 0 |
| Pricing.PageBill | src/app/checkout/page.tsx:38-46 | the bill's subtotal is the sum of the line totals, its tax is 5% of that sum and its total is 1.05 times it |
| Pricing.DiscountedPairExample | src/app/checkout/page.tsx:38-46 | an item of price 100 with a 20% discount, at quantity 2, costs 160 + 8 = 168 |
| CheckoutPage.Redirects | src/app/checkout/page.tsx:25-36 | the effect sends the visitor to /auth exactly when there is no user and to /home exactly when the cart is empty; it navigates nowhere exactly when the page renders |
| CheckoutPage.Bill | src/app/checkout/page.tsx:38-46 | the checkout total is 1.05 times the sum of the line totals |
| CheckoutPage.CheckPayment | src/app/checkout/page.tsx:50-57 | "upi" with an empty id is refused for the UPI id, "card" with any empty card field for the card details, and nothing else is refused: another method, or a form with every field filled, passes |
| CheckoutPage.EstimatedTime | src/app/checkout/page.tsx:60 | for a draw in [0,1) the estimate lies in [15, 29] |
| CheckoutPage.PlaceOrder | src/app/checkout/page.tsx:48-73 | a refusal leaves the state unchanged; the page-not-shown, missing-UPI-id and missing-card-detail refusals each occur exactly under their conditions; "gpay" is never refused; on success exactly one pending order is appended, holding the old cart (non-empty), 1.05 × subtotal, the method, an estimate in [15,29] and the user's name, and the cart becomes empty; a success navigates to /orders and a refusal navigates nowhere; after a success the page's own effect, seeing the empty cart, also asks for /home |
| CheckoutPage.EmptyUpiIdIsRefused | src/app/checkout/page.tsx:50-53 | the initial form ("upi", empty id) is refused and nothing changes |
| CheckoutPage.PlacedOrderReachesHistory | src/app/checkout/page.tsx:61-72 | after placement the customer's history is the old history followed by the new order |
| CheckoutPage.PlacedOrderIsPending | src/app/checkout/page.tsx:60-66 | a placed order is in the dashboard's pending tab, and its estimate is shown until it is completed |
| CheckoutPage.CartAndCheckoutAgree | src/app/cart/page.tsx:26-34 | the cart view and the checkout view show the same bill for the same cart |
| CartPage.View | src/app/cart/page.tsx:22-36 | nothing is rendered exactly when there is no user; the empty view is chosen exactly for a user with a cart of length 0; otherwise the lines are listed with total 1.05 × subtotal |
| CartPage.LineDisplay | src/app/cart/page.tsx:138-143 | the amount is effective price × quantity; the struck-through price × quantity is shown exactly when the discount is truthy |
| CartPage.ChargedNotAboveUndiscounted | src/app/cart/page.tsx:138-143 | for price ≥ 0, discount in [0,100] and quantity ≥ 0 the amount charged is at most price × quantity |
| CartPage.Decrement | src/app/cart/page.tsx:123 | on a line of quantity ≤ 1 the result is exactly the trash button's: every line with that id goes; otherwise the length, items and customizations stay, every line with that id gets quantity q − 1 and every other line keeps its quantity |
| CartPage.Increment | src/app/cart/page.tsx:132 | every line sharing the id, not just the clicked one, gets the clicked line's q + 1; the others are unchanged |
| CartPage.Trash | src/app/cart/page.tsx:112 | removes by id only: a line survives if and only if its id differs |
| CartPage.IncrementOverwritesSibling | src/app/cart/page.tsx:132 | pressing plus on a line of quantity 1 lowers a differently customized sibling from 3 to 2 |
| CartPage.DecrementRemovesSibling | src/app/cart/page.tsx:123 | pressing minus on a line of quantity 1 also removes its differently customized sibling |
| CanteenDashboard.Redirect | src/app/canteen-dashboard/page.tsx:17-25 | the page renders exactly for a signed-in canteen user; anyone else is sent to /auth |
| CanteenDashboard.Bucket | src/app/canteen-dashboard/page.tsx:42-45 | an order is in a tab if and only if it is in the ledger with that status |
| CanteenDashboard.BucketKeepsOrder | src/app/canteen-dashboard/page.tsx:42-45 | each tab keeps the ledger's relative order |
| CanteenDashboard.BucketsPartition | src/app/canteen-dashboard/page.tsx:42-45 | taken together, the four tabs hold each ledger entry exactly as many times as the ledger does |
| CanteenDashboard.BucketSizesSum | src/app/canteen-dashboard/page.tsx:42-45 | the four tab counts add up to the ledger length |
| CanteenDashboard.NextAction | src/app/canteen-dashboard/page.tsx:84-107 | a completed order is offered no action; every other status is offered one |
| CanteenDashboard.NextActionAdvancesOneStage | src/app/canteen-dashboard/page.tsx:84-107 | every offered action moves exactly one stage forward along pending, preparing, ready, completed |
| CanteenDashboard.Follow | src/app/canteen-dashboard/page.tsx:84-107 | pressing the offered button n times advances n stages, stopping at completed |
| CanteenDashboard.LifecycleFromPending | src/app/canteen-dashboard/page.tsx:84-107 | from pending, completed is reached in exactly 3 presses and no status is visited twice |
| CanteenDashboard.HandleStatusUpdate | src/app/canteen-dashboard/page.tsx:32-33 | the ledger keeps its length; every order with the id takes the new status with all its other fields unchanged; every other order is left exactly as it was |
| CanteenDashboard.ActionMovesOneOrder | src/app/canteen-dashboard/page.tsx:84-107 | with unique ids, pressing an order's button moves it from its tab to the next one (one fewer in the old tab, one more in the new) and leaves every other order and tab count unchanged |
| CanteenDashboard.PendingBadgeIffPendingOrder | src/app/canteen-dashboard/page.tsx:42-45 | the pending tab is non-empty exactly when some ledger entry is pending |
| CanteenDashboard.ShowsPendingBadge | src/app/canteen-dashboard/page.tsx:130 | the bell badge is shown exactly when some order of the ledger is pending |
| CanteenDashboard.Logout | src/app/canteen-dashboard/page.tsx:27-30 | logout clears the user, keeps the cart and the ledger, and navigates to /auth |
| OrdersPage.CustomerOrders | src/app/orders/page.tsx:26 | an order is listed if and only if its customer name equals the user's name exactly |
| OrdersPage.CustomerOrdersKeepOrder | src/app/orders/page.tsx:26 | the history keeps ledger order |
| OrdersPage.View | src/app/orders/page.tsx:22-58 | nothing is rendered exactly when there is no user; "No Orders Yet" is shown exactly when no order carries the user's name; otherwise a non-empty filtered list is shown |
| OrdersPage.LinePrice | src/app/orders/page.tsx:129 | each ordered line shows effective price × quantity |
| OrdersPage.ShowsEstimatedTime | src/app/orders/page.tsx:142-147 | the row is hidden for completed orders, for orders without an estimate and for an estimate of 0; an estimate of 15 or more is shown exactly until the order is completed |
| OrdersPage.StatusMessages | src/app/orders/page.tsx:156-179 | at most one status banner is shown, and none exactly for completed orders |
| OrdersPage.StatusStylesDistinct | src/app/orders/page.tsx:28-56 | the four statuses get four different icons and colours; any other string falls back to the clock icon and the grey colour |
| FoodCard.FinalPrice | src/components/FoodCard.tsx:37-39 | the card price is the effective price: equal to the price when the discount is absent or 0, and within [0, price] for a discount in [0,100] |
| FoodCard.OriginalPriceShownIffReduced | src/components/FoodCard.tsx:37-39 | for a positive price and a discount in [0,100] the original price is struck through exactly when the card price is lower than it |
| FoodCard.AddButtonLabel | src/components/FoodCard.tsx:86-89 | the label is "Out of Stock" exactly when the button is disabled |
| FoodCard.HandleAddToCart | src/components/FoodCard.tsx:23-29 | a customizable item opens the dialog and requests nothing; any other item is requested at once with no customization |
| FoodCard.HandleCustomizeAdd | src/components/FoodCard.tsx:31-35 | the item is requested with the typed text, then the dialog closes and its text resets to "" |
| FoodCard.ClickAdd | src/components/FoodCard.tsx:83-87 | clicking a disabled (unavailable) button does nothing; an enabled button runs the add handler |
| FoodCard.CustomizableAddsOnlyOnConfirm | src/components/FoodCard.tsx:23-35 | a customizable item is not requested on the first click; confirming an untouched dialog requests it with `Some("")` |
| Sidebar.CategoriesDistinct | src/components/Sidebar.tsx:21-70 | six categories, pairwise distinct |
| Sidebar.AtMostOneSelected | src/components/Sidebar.tsx:153-155 | no selection highlights two category buttons |
| Sidebar.CartItemsCount | src/components/Sidebar.tsx:77 | with every quantity ≥ 1, the item count is at least the number of lines |
| Sidebar.ReduceCount | src/components/Sidebar.tsx:77 | the source's left fold, started from any value, adds the item count to that value |
| Sidebar.ShowsCountBadge | src/components/Sidebar.tsx:139-143 | with every quantity ≥ 1, the badge on the cart buttons is shown exactly when the cart has a line |
| Sidebar.AddToCartRaisesCountByOne | src/components/Sidebar.tsx:77 | with unique keys, any add-to-cart raises the badge count by exactly one |
| Sidebar.Logout | src/components/Sidebar.tsx:72-75 | logout sets the user to none, keeps the cart and the ledger, and navigates to /auth |
| HomePage.FilteredItems | src/app/home/page.tsx:27-29 | "All" returns the catalog unchanged; any other category keeps exactly the items of that category; never longer than the catalog |
| HomePage.InitialSelectionShowsWholeMenu | src/app/home/page.tsx:15-29 | the selection starts on "All", which lists the whole catalog |
| HomePage.FilteredItemsKeepOrder | src/app/home/page.tsx:27-29 | the filtered list keeps catalog order |
| HomePage.HandleAddToCart | src/app/home/page.tsx:31-34 | the new cart is exactly the store's add-to-cart of the old cart, item and customization; afterwards the cart holds a line with the (id, customization) key; a cart with unique keys keeps them and its item count rises by exactly one; the user and the ledger are kept |
| HomePage.Deliver | src/app/home/page.tsx:77-79 | a card's request, if any, is handed to the page's add-to-cart handler; no request leaves the state alone |
| HomePage.PlainItemClickAddsUncustomizedLine | src/components/FoodCard.tsx:23-29 | clicking an available plain item on an empty cart yields the single line (item, 1, no customization) |
| Routes.SignedInGuard | src/app/home/page.tsx:17-25 | with no user the page renders nothing and redirects to /auth; with a user it stays |
| AuthPage.SignInName | src/app/auth/page.tsx:27 | the name contains no '@', is a prefix of the e-mail, is followed in the e-mail by an '@' when there is one, and is the whole e-mail otherwise |
| AuthPage.Destination | src/app/auth/page.tsx:28 | /canteen-dashboard exactly for role canteen and /home exactly for role customer |
| AuthPage.SignIn | src/app/auth/page.tsx:24-29 | the user becomes (derived name, role) and the form navigates to the role's destination; the cart and the ledger are kept |
| AuthPage.SignUp | src/app/auth/page.tsx:31-35 | the user becomes (typed name verbatim, role) and the form navigates to the role's destination; the cart and the ledger are kept |
| AuthPage.PasswordIsIgnored | src/app/auth/page.tsx:24-35 | the password never changes the user or the destination |
| AuthPage.DefaultRoleGoesHome | src/app/auth/page.tsx:22-34 | with the role left at its default, both forms produce a customer and navigate to /home |
| RootPage.RootRedirect | src/app/page.tsx:11-21 | no user leads to /auth (and only then); role canteen leads to /canteen-dashboard; role customer leads to /home |
| RootPage.RootAgreesWithAuthForms | src/app/page.tsx:11-21 | after either form, the redirect from / equals the form's own destination |
| RootPage.RootMatchesDestination | src/app/page.tsx:11-21 | for any signed-in user, / redirects to the post-sign-in destination of that user's role |

## Left out

- Persistence of the user in `localStorage` and its JSON encoding (src/lib/store.tsx:55-68): this is browser I/O, so the user is plain state.
- `Math.random` and `new Date()`: order ids, creation times and the random draw behind the estimate are parameters. The source's nine-character random ids are not guaranteed distinct. Unique ids are assumed only by the lemmas that need them: `Store.AddOrderKeepsIdsUnique` requires a fresh id, and `Store.UpdateOrderStatusAt` and `CanteenDashboard.ActionMovesOneOrder` require the whole ledger's ids to be unique.
- Toast notifications, including the "customer notified" toast when an order becomes ready: these are informational only and change no state.
- The timing of `router.push` and of React effects. A handler's navigation is a returned `Route` next to the new state (`AuthPage.SignIn`, `AuthPage.SignUp`, both logouts, `CheckoutPage.PlaceOrder`); which of two competing pushes the browser ends on is not modelled.
- Rendering, styling, icons beyond the status icon choice, images, and the open/close cosmetics of the sheet and the dialog. This includes the dialog's Cancel button, which closes the dialog without adding anything.
- `toFixed(2)` display rounding and IEEE double arithmetic: amounts are exact reals.
- The catalog data module (`@/lib/food-data`) is not part of this model. The catalog is any sequence of items.
- The `maxLength` attributes of the card inputs: they limit typing, not order placement.
- AuthPage.SignIn: the browser's form validation is not modelled. Every input is `required` and the e-mail input has `type="email"` (src/app/auth/page.tsx:66-84), so the handler never runs with an empty e-mail or password or a malformed address; the model accepts every string.
- AuthPage.SignUp: likewise, the `required` name, e-mail and password inputs and the `type="email"` check (src/app/auth/page.tsx:108-135) are not modelled; the model accepts empty and malformed input.
- AuthPage.PasswordIsIgnored: quantifies over every password, including the empty one the browser would refuse to submit.
- A NaN discount (falsy in JavaScript) is not modelled. Discounts are reals, and a discount is truthy exactly when it is present and non-zero.
- The status given to `handleStatusUpdate` is typed `any` in the source and is a `Status` here. Arbitrary strings are modelled only where the source switches on them: the status icon and colour.
- CheckoutPage.PlaceOrder requires its random draw to lie in [0, 1). That is `Math.random`'s guarantee, not something the page checks.
