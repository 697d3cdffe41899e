/** The menu page (src/app/home/page.tsx): category filter over the catalog
    and delegation of add-to-cart to the store. The catalog data module is
    not part of this model; the catalog is any sequence of items. */
module HomePage {
  import opened Wrappers
  import opened Store
  import Seqs
  import FoodCard
  import Sidebar

  const AllCategory: string := "All"

  /** The selection starts on "All". */
  const InitialCategory: string := AllCategory

  /** `filteredItems`. */
  function FilteredItems(catalog: seq<FoodItem>, selected: string): (r: seq<FoodItem>)
    ensures |r| <= |catalog|
    ensures selected == AllCategory ==> r == catalog
    ensures selected != AllCategory ==>
      forall item :: item in r <==> item in catalog && item.category == selected
  {
    if selected == AllCategory then catalog
    else Seqs.Filter(catalog, (item: FoodItem) => item.category == selected)
  }

  /** On arrival the page lists the whole catalog. */
  lemma InitialSelectionShowsWholeMenu(catalog: seq<FoodItem>)
    ensures FilteredItems(catalog, InitialCategory) == catalog
  {
  }

  /** The filter keeps catalog order. */
  lemma FilteredItemsKeepOrder(front: seq<FoodItem>, back: seq<FoodItem>, selected: string)
    ensures FilteredItems(front + back, selected)
            == FilteredItems(front, selected) + FilteredItems(back, selected)
  {
    if selected != AllCategory {
      Seqs.FilterAppend(front, back, (item: FoodItem) => item.category == selected);
    }
  }

  /** `handleAddToCart`: item and customization go to the store unchanged.
      Afterwards the cart holds a line with that key; a cart with unique keys
      keeps them, and its badge count goes up by exactly one. */
  function HandleAddToCart(st: AppState, item: FoodItem, customization: Option<string>): (r: AppState)
    ensures r.cart == AddToCart(st.cart, item, customization)
    ensures HasLine(r.cart, item.id, customization)
    ensures KeysUnique(st.cart) ==>
      KeysUnique(r.cart) && Sidebar.CartItemsCount(r.cart) == Sidebar.CartItemsCount(st.cart) + 1
    ensures r.user == st.user && r.orders == st.orders
  {
    var cart := AddToCart(st.cart, item, customization);
    assert KeysUnique(st.cart) ==>
      KeysUnique(cart) && Sidebar.CartItemsCount(cart) == Sidebar.CartItemsCount(st.cart) + 1 by {
      if KeysUnique(st.cart) {
        AddToCartKeepsKeysUnique(st.cart, item, customization);
        Sidebar.AddToCartRaisesCountByOne(st.cart, item, customization);
      }
    }
    st.(cart := cart)
  }

  /** Deliver whatever a card step requested to the store. */
  function Deliver(st: AppState, step: FoodCard.CardStep): (r: AppState)
    ensures step.request.None? ==> r == st
    ensures step.request.Some? ==>
      r == HandleAddToCart(st, step.request.value.item, step.request.value.customization)
  {
    match step.request
    case None => st
    case Some(req) => HandleAddToCart(st, req.item, req.customization)
  }

  /** Clicking an available, non-customizable item on an empty cart leaves a
      single line of quantity one with no customization. */
  lemma PlainItemClickAddsUncustomizedLine(st: AppState, item: FoodItem)
    requires |st.cart| == 0 && item.isAvailable && !item.customizable
    ensures Deliver(st, FoodCard.ClickAdd(item, FoodCard.InitialCard)).cart
            == [CartLine(item, 1, None)]
  {
  }
}
