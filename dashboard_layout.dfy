/** The admin layout: the navigation with its pending-order badge, and the
    open/closed switch. */
module DashboardLayout {
  import opened Types
  import opened Wrappers
  import opened Render
  import OrdersPage
  import CustomerMenu
  import AppContext

  /** The number on the Orders entry: orders labelled "pending". */
  function PendingCount(orders: seq<Order>): (n: nat)
    ensures n == OrdersPage.OrderStats(orders).pending
    ensures n <= |orders|
    ensures n == 0 <==> forall o :: o in orders ==> o.status != StatusName(Pending)
  {
    var pending := OrdersPage.WithStatus(orders, "pending");
    assert pending != [] ==> pending[0] in pending;
    |pending|
  }

  /** The badge as written, `badge && badge > 0 && <Badge/>`: a count of
      zero is a falsy number, and React prints it. */
  function BadgeAsWritten(badge: Option<int>): (r: Node<int>)
    ensures badge == Some(0) ==> r == NumberText(0.0)
    ensures r.Shown? <==> badge.Some? && badge.value > 0
  {
    match badge
    case None => Nothing
    case Some(n) => if n == 0 then NumberText(0.0) else if n > 0 then Shown(n) else Nothing
  }

  /** The badge as intended: shown, with the count, only for a positive count. */
  function NavBadge(badge: Option<int>): (r: Node<int>)
    ensures !r.NumberText?
    ensures r.Shown? <==> badge.Some? && badge.value > 0
    ensures r.Shown? ==> r.e == badge.value
  {
    if badge.Some? && badge.value > 0 then Shown(badge.value) else Nothing
  }

  /** With no pending order the Orders entry shows a stray "0". */
  lemma StrayZeroWithoutPendingOrders(orders: seq<Order>)
    requires forall o :: o in orders ==> o.status != StatusName(Pending)
    ensures BadgeAsWritten(Some(PendingCount(orders))) == NumberText(0.0)
  {
  }

  /** The smallest case: an empty order list. */
  lemma StrayZeroOnEmptyList()
    ensures BadgeAsWritten(Some(PendingCount([]))) == NumberText(0.0)
  {
    StrayZeroWithoutPendingOrders([]);
  }

  /** The intended badge agrees with the written one whenever something is
      pending, and shows nothing otherwise. */
  lemma NavBadgeCorrect(orders: seq<Order>)
    ensures PendingCount(orders) > 0 ==> NavBadge(Some(PendingCount(orders))) == BadgeAsWritten(Some(PendingCount(orders)))
    ensures PendingCount(orders) == 0 ==> NavBadge(Some(PendingCount(orders))) == Nothing
  {
  }

  datatype NavItem = NavItem(path: string, itemLabel: string, badge: Node<int>)

  /** The navigation entries as rendered: only Orders carries a badge, the
      pending count, guarded as written. */
  function NavItems(orders: seq<Order>): (items: seq<NavItem>)
    ensures |items| == 5
    ensures items[1].path == "/dashboard/orders" && items[1].badge == BadgeAsWritten(Some(PendingCount(orders)))
    ensures forall i :: 0 <= i < 5 && i != 1 ==> items[i].badge == BadgeAsWritten(None) == Nothing
  {
    [NavItem("/dashboard", "Overview", BadgeAsWritten(None)),
     NavItem("/dashboard/orders", "Orders", BadgeAsWritten(Some(PendingCount(orders)))),
     NavItem("/dashboard/menu", "Menu", BadgeAsWritten(None)),
     NavItem("/dashboard/qr-codes", "QR Codes", BadgeAsWritten(None)),
     NavItem("/dashboard/settings", "Settings", BadgeAsWritten(None))]
  }

  /** The Orders entry shows the intended badge exactly when something is
      pending; otherwise it prints the stray "0". */
  lemma OrdersEntryBadge(orders: seq<Order>)
    ensures PendingCount(orders) > 0 ==> NavItems(orders)[1].badge == NavBadge(Some(PendingCount(orders)))
    ensures PendingCount(orders) == 0 ==> NavItems(orders)[1].badge == NumberText(0.0) != NavBadge(Some(0))
  {
    NavBadgeCorrect(orders);
  }

  /** The open/closed switch flips `isOpen` and keeps every other setting. */
  function Toggled(s: ShopSettings): (r: ShopSettings)
    ensures r.isOpen != s.isOpen
    ensures r.(isOpen := s.isOpen) == s
  {
    s.(isOpen := !s.isOpen)
  }

  /** Switching twice restores the settings. */
  lemma ToggleTwice(s: ShopSettings)
    ensures Toggled(Toggled(s)) == s
  {
  }

  /** Closing the shop puts a customer menu rendered under the same provider
      on the closed screen, tracked order or not. The switch changes only
      that provider's state, so customers elsewhere are not reached. */
  lemma ClosingHidesMenu(s: ShopSettings, showOrderStatus: bool, current: Option<Order>)
    requires s.isOpen
    ensures CustomerMenu.CurrentScreen(Toggled(s).isOpen, showOrderStatus, current) == CustomerMenu.Screen.Closed
  {
  }

  method ToggleShopStatus(app: AppContext.AppProvider)
    modifies app`shopSettings
    ensures app.shopSettings == Toggled(old(app.shopSettings))
  {
    app.SetShopSettings(app.shopSettings.(isOpen := !app.shopSettings.isOpen));
  }
}
