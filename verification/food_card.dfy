/** One menu card (src/components/FoodCard.tsx): the price it shows, the add
    button and the customization dialog. */
module FoodCard {
  import opened Wrappers
  import opened Store
  import Pricing

  /** The card's own state: whether the dialog is open and the text typed in
      it. */
  datatype CardState = CardState(showCustomize: bool, customization: string)

  const InitialCard: CardState := CardState(false, "")

  /** A call of the card's `onAddToCart` callback. */
  datatype AddRequest = AddRequest(item: FoodItem, customization: Option<string>)

  /** The card's next state and the callback it fires, if any. */
  datatype CardStep = CardStep(state: CardState, request: Option<AddRequest>)

  /** `finalPrice`, the large price on the card. */
  function FinalPrice(item: FoodItem): (r: real)
    ensures r == Pricing.EffectivePrice(item)
    ensures item.discount.GetOr(0.0) == 0.0 ==> r == item.price
    ensures item.price >= 0.0 && Pricing.DiscountInRange(item) ==> 0.0 <= r <= item.price
  {
    Pricing.InlineMatchesEffective(item);
    Pricing.InlineUnitPrice(item)
  }

  /** The original price is struck through, and the "% OFF" badge shown,
      only for a truthy discount. */
  predicate ShowsOriginalPrice(item: FoodItem) {
    Pricing.DiscountApplies(item)
  }

  /** For a positive price and a discount in range, the original price is
      struck through exactly when the card's price is lower than it. */
  lemma OriginalPriceShownIffReduced(item: FoodItem)
    requires item.price > 0.0 && Pricing.DiscountInRange(item)
    ensures ShowsOriginalPrice(item) <==> FinalPrice(item) < item.price
  {
    var d := item.discount.GetOr(0.0);
    assert FinalPrice(item) == item.price - item.price * (d / 100.0);
    if ShowsOriginalPrice(item) {
      assert d / 100.0 > 0.0;
      assert item.price * (d / 100.0) > 0.0;
    }
  }

  predicate AddButtonEnabled(item: FoodItem) {
    item.isAvailable
  }

  function AddButtonLabel(item: FoodItem): (text: string)
    ensures text == "Out of Stock" <==> !AddButtonEnabled(item)
  {
    if item.isAvailable then "Add to Cart" else "Out of Stock"
  }

  /** `handleAddToCart`: a customizable item opens the dialog and adds
      nothing yet; any other item is added at once with no customization. */
  function HandleAddToCart(item: FoodItem, st: CardState): (r: CardStep)
    ensures item.customizable ==>
      r.request.None? && r.state.showCustomize && r.state.customization == st.customization
    ensures !item.customizable ==> r.request == Some(AddRequest(item, None)) && r.state == st
  {
    if item.customizable then CardStep(st.(showCustomize := true), None)
    else CardStep(st, Some(AddRequest(item, None)))
  }

  /** `handleCustomizeAdd`: add with the typed text (possibly empty), then
      close the dialog and clear the text. */
  function HandleCustomizeAdd(item: FoodItem, st: CardState): (r: CardStep)
    ensures r.request == Some(AddRequest(item, Some(st.customization)))
    ensures r.state == InitialCard
  {
    CardStep(CardState(false, ""), Some(AddRequest(item, Some(st.customization))))
  }

  /** A click on the add button: a disabled button does nothing. */
  function ClickAdd(item: FoodItem, st: CardState): (r: CardStep)
    ensures !AddButtonEnabled(item) ==> r == CardStep(st, None)
    ensures AddButtonEnabled(item) ==> r == HandleAddToCart(item, st)
  {
    if item.isAvailable then HandleAddToCart(item, st) else CardStep(st, None)
  }

  /** A customizable item needs the dialog to be confirmed; confirming with
      nothing typed still yields the key `Some("")`, never `None`. */
  lemma CustomizableAddsOnlyOnConfirm(item: FoodItem)
    requires item.isAvailable && item.customizable
    ensures ClickAdd(item, InitialCard).request.None?
    ensures ClickAdd(item, InitialCard).state.showCustomize
    ensures HandleCustomizeAdd(item, ClickAdd(item, InitialCard).state).request
            == Some(AddRequest(item, Some("")))
  {
  }
}
