/** The customer's menu card: what it shows for one item, and its add button. */
module MenuCard {
  import opened Types
  import opened Wrappers
  import opened Pricing
  import opened Render
  import Cart
  import AppContext

  /** The parts of a card that depend on the item. `discountBadge` carries
      the percentage shown and `struckPrice` the undiscounted price. */
  datatype CardView = CardView(
    shownPrice: int,
    bestSeller: Node<()>,
    todaysSpecial: Node<()>,
    discountBadge: Node<real>,
    struckPrice: Node<real>,
    addEnabled: bool,
    unavailableNote: bool)

  /** The card for an item: the rounded price the customer pays, a discount
      badge and a struck-through original price exactly when the item has a
      discount, and an add button that is disabled, with a note, exactly when
      the item is unavailable. */
  function View(item: MenuItem): (v: CardView)
    ensures v.shownPrice == Round(ItemPrice(item))
    ensures v.discountBadge.Shown? <==> HasDiscount(item.discount)
    ensures v.discountBadge.Shown? ==> v.discountBadge.e == item.discount.value
    ensures v.struckPrice.Shown? <==> HasDiscount(item.discount)
    ensures v.struckPrice.Shown? ==> v.struckPrice.e == item.price
    ensures v.bestSeller.Shown? <==> item.isBestSeller == Some(true)
    ensures v.todaysSpecial.Shown? <==> item.isTodaysSpecial == Some(true)
    ensures v.addEnabled <==> item.isAvailable
    ensures v.unavailableNote <==> !item.isAvailable
  {
    var badge := if item.discount.Some? then item.discount.value else 0.0;
    CardView(
      Round(ItemPrice(item)),
      FlagAnd(item.isBestSeller, ()),
      FlagAnd(item.isTodaysSpecial, ()),
      NumberAnd(item.discount, badge),
      NumberAnd(item.discount, item.price),
      item.isAvailable,
      !item.isAvailable)
  }

  /** The add button: the item itself goes into the cart, so the cart line
      keeps the discount the card showed. */
  function OnAdd(cart: seq<CartItem>, item: MenuItem): (r: seq<CartItem>)
    requires item.isAvailable
    ensures exists i :: 0 <= i < |r| && r[i].item.id == item.id
    ensures Cart.Contains(cart, item.id) ==> |r| == |cart|
    ensures !Cart.Contains(cart, item.id) ==> r[|r| - 1] == CartItem(item, 1)
  {
    Cart.AddToCart(cart, item)
  }

  /** A newly added item is charged at the price its card showed before rounding. */
  lemma AddedAtShownPrice(cart: seq<CartItem>, item: MenuItem)
    requires item.isAvailable && !Cart.Contains(cart, item.id)
    ensures LineTotal(OnAdd(cart, item)[|cart|]) == ItemPrice(item)
    ensures View(item).shownPrice == Round(LineTotal(OnAdd(cart, item)[|cart|]))
  {
  }

  /** A struck-through price is shown only above the price charged, for a
      positive price and a discount between 0 and 100. */
  lemma StruckPriceIsHigher(item: MenuItem)
    requires item.price > 0.0
    requires item.discount.Some? ==> 0.0 < item.discount.value <= 100.0
    ensures View(item).struckPrice.Shown? ==> ItemPrice(item) < item.price
    ensures !View(item).struckPrice.Shown? ==> ItemPrice(item) == item.price
  {
  }

  /** Items read from the store never show a bare "0" in place of the
      discount badge: the row mapping drops a zero discount. */
  lemma StoreItemsShowNoZeroBadge(row: AppContext.MenuRow)
    ensures !View(AppContext.RowToMenuItem(row)).discountBadge.NumberText?
    ensures !View(AppContext.RowToMenuItem(row)).struckPrice.NumberText?
  {
  }

  /** An item given a zero discount directly would show the text "0" where the badge goes. */
  lemma ZeroDiscountShowsZero(item: MenuItem)
    requires item.discount == Some(0.0)
    ensures View(item).discountBadge == NumberText(0.0)
    ensures View(item).shownPrice == Round(item.price)
  {
  }
}
