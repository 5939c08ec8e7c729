/** The customer's menu page: the table read from the link, the category
    tabs, the cart button, which screen shows, and checkout. */
module CustomerMenu {
  import opened Types
  import opened Wrappers
  import opened Pricing
  import opened JsText
  import Seqs
  import Cart
  import AppContext

  /** The category tabs: "all" or one category. */
  datatype Tab = All | Only(category: Category)

  /** The items listed under a tab: the available ones, of the tab's
      category unless the tab is "all", in menu order. */
  function VisibleItems(menu: seq<MenuItem>, tab: Tab): (r: seq<MenuItem>)
    ensures |r| <= |menu|
    ensures forall m :: m in r <==> m in menu && m.isAvailable && (tab.Only? ==> m.category == tab.category)
  {
    match tab
    case All => Seqs.Filter(menu, (m: MenuItem) => m.isAvailable)
    case Only(c) => Seqs.Filter(menu, (m: MenuItem) => m.category == c && m.isAvailable)
  }

  /** An item is listed under "all" exactly when it is listed under its own category's tab. */
  lemma AllTabIsUnionOfCategories(menu: seq<MenuItem>, m: MenuItem)
    ensures m in VisibleItems(menu, All) <==> m in VisibleItems(menu, Only(m.category))
  {
  }

  /** The table field's first value: the link's `table` parameter, or empty. */
  function InitialTableField(url: string): (field: string)
    ensures QueryParam(url, "table").Some? ==> field == QueryParam(url, "table").value
    ensures QueryParam(url, "table").None? ==> field == ""
  {
    QueryParam(url, "table").GetOr("")
  }

  /** A `table=` placed in the link's fragment is not read: the field starts empty. */
  lemma TableInFragmentIgnored(prefix: string, fragment: string)
    requires '?' !in prefix && '#' !in prefix
    ensures InitialTableField(prefix + "#" + fragment) == ""
  {
    QueryInFragmentIsIgnored(prefix, fragment, "table");
  }

  /** The table number checkout submits: `None` when the field is empty or
      `parseInt` gives `NaN`. No range check is made. */
  function CheckoutTable(field: string): (r: Option<int>)
    ensures r.Some? ==> exists k :: 0 <= k < |field| && '0' <= field[k] <= '9'
    ensures field != "" ==> r == ParseInt(field)
  {
    if field == "" then None else ParseInt(field)
  }

  /** Every natural number typed in full is accepted as itself, however many tables the shop has. */
  lemma CheckoutAcceptsAnyNumber(n: nat)
    ensures CheckoutTable(Decimal(n)) == Some(n)
  {
    ParseIntDecimal(n);
  }

  /** Table zero is let through. */
  lemma CheckoutAcceptsZero()
    ensures CheckoutTable("0") == Some(0)
  {
    CheckoutAcceptsAnyNumber(0);
  }

  /** A negative table is let through. */
  lemma CheckoutAcceptsNegative()
    ensures CheckoutTable("-3") == Some(-3)
  {
    ParseIntSigned(3);
    assert "-" + Decimal(3) == "-3";
  }

  /** Text after the digits is ignored; text before them is refused. */
  lemma CheckoutReadsLeadingDigits()
    ensures CheckoutTable("7b") == Some(7)
    ensures CheckoutTable("b7") == None
  {
    ParseIntIgnoresTail(7, "b");
    assert Decimal(7) + "b" == "7b";
    ParseIntRejectsLeadingText("b7");
  }

  /** The floating cart button is shown when the item count is positive;
      with positive quantities that is exactly when the cart is not empty. */
  function CartButtonShown(cart: seq<CartItem>): (shown: bool)
    ensures Cart.PositiveQuantities(cart) ==> (shown <==> cart != [])
  {
    CartItemCount(cart) > 0
  }

  /** The three screens of the page. */
  datatype Screen = Closed | Tracking(order: Order) | Menu

  /** A closed shop shows the closed screen whatever else holds; otherwise
      the tracked order is shown once it has been revealed. */
  function CurrentScreen(isOpen: bool, showOrderStatus: bool, currentOrder: Option<Order>): (s: Screen)
    ensures s == Closed <==> !isOpen
    ensures s == Menu <==> isOpen && !(showOrderStatus && currentOrder.Some?)
    ensures s.Tracking? <==> isOpen && showOrderStatus && currentOrder.Some?
    ensures s.Tracking? ==> s.order == currentOrder.value
  {
    if !isOpen then Closed
    else if showOrderStatus && currentOrder.Some? then Tracking(currentOrder.value)
    else Menu
  }

  class CustomerMenuPage {
    const app: AppContext.AppProvider
    var activeTab: Tab
    var isCartOpen: bool
    var isCheckoutOpen: bool
    var tableField: string
    var showOrderStatus: bool
    var isSubmitting: bool

    constructor (app: AppContext.AppProvider, url: string)
      ensures this.app == app
      ensures activeTab == All && !isCartOpen && !isCheckoutOpen
      ensures tableField == InitialTableField(url)
      ensures !showOrderStatus && !isSubmitting
    {
      this.app := app;
      activeTab, isCartOpen, isCheckoutOpen := All, false, false;
      tableField := InitialTableField(url);
      showOrderStatus, isSubmitting := false, false;
    }

    /** The effect run when the tracked order changes: a present order reveals the tracking screen. */
    method OnCurrentOrder()
      modifies this`showOrderStatus
      ensures showOrderStatus == (old(showOrderStatus) || app.currentOrder.Some?)
    {
      if app.currentOrder.Some? {
        showOrderStatus := true;
      }
    }

    /** The table field of the checkout dialog takes the text as typed. */
    method EditTable(raw: string)
      modifies this`tableField
      ensures tableField == raw
    {
      tableField := raw;
    }

    /** "Order more" goes back to the menu. */
    method OrderMore()
      modifies this`showOrderStatus
      ensures !showOrderStatus
    {
      showOrderStatus := false;
    }

    /** The place-order button. `header` and `itemsOk` are what the two
        store inserts return. An unusable table field stops before any
        write; otherwise the order is created, and on success the checkout
        dialog and the cart sheet close. */
    method HandleCheckout(header: Option<AppContext.OrderHeader>, itemsOk: bool) returns (placed: bool)
      modifies this`isSubmitting, this`isCheckoutOpen, this`isCartOpen
      modifies app`cart, app`currentOrder, app`writes
      ensures CheckoutTable(tableField).None? ==>
        !placed && app.writes == old(app.writes) && app.cart == old(app.cart) && app.currentOrder == old(app.currentOrder)
        && isCheckoutOpen == old(isCheckoutOpen) && isCartOpen == old(isCartOpen)
      ensures placed <==> CheckoutTable(tableField).Some? && old(app.cart) != [] && header.Some? && itemsOk
      ensures placed ==> app.currentOrder == Some(AppContext.BuildOrder(header.value, CheckoutTable(tableField).value, old(app.cart)))
      ensures placed ==> app.cart == [] && !isCheckoutOpen && !isCartOpen
      ensures !placed ==> app.cart == old(app.cart) && app.currentOrder == old(app.currentOrder)
      ensures !placed ==> isCheckoutOpen == old(isCheckoutOpen) && isCartOpen == old(isCartOpen)
      ensures CheckoutTable(tableField).Some? ==> !isSubmitting
      ensures CheckoutTable(tableField).None? ==> isSubmitting == old(isSubmitting)
    {
      var table := CheckoutTable(tableField);
      if table.None? {
        return false;
      }
      isSubmitting := true;
      var order := app.CreateOrder(table.value, header, itemsOk);
      isSubmitting := false;
      if order.Some? {
        isCheckoutOpen := false;
        isCartOpen := false;
        return true;
      }
      return false;
    }
  }
}
