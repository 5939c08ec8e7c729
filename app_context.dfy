/** The application provider: the state cells for the menu, the cart, the
    admin's order list, the customer's tracked order and the shop settings,
    the cart and order operations that replace them, and the change-feed
    handler. The store is not modelled: each query or insert is an input
    saying what it returned, and every write the provider sends is appended
    to `writes`. */
module AppContext {
  import opened Types
  import opened Wrappers
  import opened Pricing
  import Cart
  import opened Realtime

  /** The label `updateOrderStatus` stores: "started" is written as
      "preparing", every other status as its own name. */
  function DbStatus(s: Status): (stored: string)
    ensures s != Started ==> stored == StatusName(s)
    ensures ParseStatus(stored) == (if s == Started then None else Some(s))
  {
    if s == Started then "preparing" else StatusName(s)
  }

  /** Distinct statuses are stored under distinct labels. */
  lemma DbStatusInjective(s: Status, t: Status)
    ensures DbStatus(s) == DbStatus(t) ==> s == t
  {
  }

  /** A row of the `menu_items` table. */
  datatype MenuRow = MenuRow(
    id: string,
    name: string,
    price: real,
    description: Option<string>,
    category: Category,
    image: Option<string>,
    isAvailable: bool,
    isBestSeller: Option<bool>,
    isTodaysSpecial: Option<bool>,
    discount: Option<real>)

  /** The menu item built from a row: a missing description becomes empty, an
      empty image and a zero discount become absent. */
  function RowToMenuItem(row: MenuRow): (m: MenuItem)
    ensures m.id == row.id && m.name == row.name && m.price == row.price && m.category == row.category
    ensures m.description == row.description.GetOr("")
    ensures m.image.Some? ==> m.image.value != ""
    ensures row.image != Some("") ==> m.image == row.image
    ensures row.discount != Some(0.0) ==> m.discount == row.discount
    ensures m.isBestSeller == row.isBestSeller && m.isTodaysSpecial == row.isTodaysSpecial
    ensures m.discount.Some? <==> HasDiscount(m.discount)
    ensures HasDiscount(m.discount) <==> HasDiscount(row.discount)
    ensures ItemPrice(m) == DiscountedPrice(row.price, row.discount)
    ensures m.isAvailable == row.isAvailable
  {
    MenuItem(
      row.id, row.name, row.description.GetOr(""), row.price, row.category,
      if row.image == Some("") then None else row.image,
      if row.discount == Some(0.0) then None else row.discount,
      row.isBestSeller, row.isTodaysSpecial, row.isAvailable)
  }

  function MenuItemsOf(rows: seq<MenuRow>): (items: seq<MenuItem>)
    ensures |items| == |rows|
    ensures forall i :: 0 <= i < |rows| ==> items[i] == RowToMenuItem(rows[i])
  {
    seq(|rows|, i requires 0 <= i < |rows| => RowToMenuItem(rows[i]))
  }

  /** An order row of the initial fetch, with the result of its item lookup. */
  datatype FetchedOrder = FetchedOrder(row: OrderRow, items: Option<seq<ItemRow>>)

  function OrdersOf(fetched: seq<FetchedOrder>): (orders: seq<Order>)
    ensures |orders| == |fetched|
    ensures forall i :: 0 <= i < |fetched| ==> orders[i] == RowToOrder(fetched[i].row, fetched[i].items)
  {
    seq(|fetched|, i requires 0 <= i < |fetched| => RowToOrder(fetched[i].row, fetched[i].items))
  }

  /** What the store sends back for an inserted order row. */
  datatype OrderHeader = OrderHeader(id: string, createdAt: Timestamp, updatedAt: Timestamp)

  /** A row inserted into `order_items`. */
  datatype OrderItemRow = OrderItemRow(orderId: string, menuItemId: string, name: string, price: real, quantity: int)

  /** A write sent to the store. */
  datatype StoreWrite =
    | InsertOrder(tableNumber: int, total: real, status: string)
    | InsertOrderItems(rows: seq<OrderItemRow>)
    | UpdateStatus(orderId: string, status: string)

  /** The `order_items` rows for a cart: one per line, at the discounted unit price. */
  function ItemInsertRows(orderId: string, cart: seq<CartItem>): (rows: seq<OrderItemRow>)
    ensures |rows| == |cart|
    ensures forall i :: 0 <= i < |cart| ==>
      rows[i].orderId == orderId && rows[i].menuItemId == cart[i].item.id && rows[i].name == cart[i].item.name
      && rows[i].quantity == cart[i].quantity && rows[i].price * rows[i].quantity as real == LineTotal(cart[i])
  {
    seq(|cart|, i requires 0 <= i < |cart| =>
      OrderItemRow(orderId, cart[i].item.id, cart[i].item.name, ItemPrice(cart[i].item), cart[i].quantity))
  }

  /** The order `createOrder` returns: pending, at the requested table, with
      one snapshot per cart line and the cart's total, which is also the sum
      of its snapshots. */
  function BuildOrder(header: OrderHeader, tableNumber: int, cart: seq<CartItem>): (o: Order)
    ensures o.id == header.id && o.tableNumber == tableNumber && o.status == StatusName(Pending)
    ensures o.totalAmount == CartTotal(cart)
    ensures o.totalAmount == SnapshotTotal(o.items)
    ensures |o.items| == |cart|
    ensures forall i :: 0 <= i < |cart| ==>
      o.items[i].id == cart[i].item.id && o.items[i].name == cart[i].item.name
      && o.items[i].price == ItemPrice(cart[i].item) && o.items[i].quantity == cart[i].quantity
  {
    SnapshotTotalMatchesCart(cart);
    Order(header.id, tableNumber, Snapshots(cart), "pending", CartTotal(cart), header.createdAt, header.updatedAt)
  }

  class AppProvider {
    var menuItems: seq<MenuItem>
    var loadingMenu: bool
    var cart: seq<CartItem>
    var orders: seq<Order>
    var loadingOrders: bool
    var currentOrder: Option<Order>
    var shopSettings: ShopSettings
    /** The writes sent to the store, oldest first. */
    var writes: seq<StoreWrite>
    /** The new-order sounds played. */
    var alertsPlayed: nat

    constructor (settings: ShopSettings)
      ensures menuItems == [] && loadingMenu
      ensures cart == [] && orders == [] && loadingOrders && currentOrder == None
      ensures shopSettings == settings && writes == [] && alertsPlayed == 0
    {
      menuItems, loadingMenu := [], true;
      cart, orders, loadingOrders, currentOrder := [], [], true, None;
      shopSettings, writes, alertsPlayed := settings, [], 0;
    }

    /** The menu query: on success the rows replace the menu; either way loading ends. */
    method FetchMenuItems(result: Option<seq<MenuRow>>)
      modifies this`menuItems, this`loadingMenu
      ensures !loadingMenu
      ensures menuItems == if result.Some? then MenuItemsOf(result.value) else old(menuItems)
    {
      loadingMenu := true;
      if result.Some? {
        menuItems := MenuItemsOf(result.value);
      }
      loadingMenu := false;
    }

    /** The initial order query, each order with its item lookup. */
    method FetchOrders(result: Option<seq<FetchedOrder>>)
      modifies this`orders, this`loadingOrders
      ensures !loadingOrders
      ensures orders == if result.Some? then OrdersOf(result.value) else old(orders)
    {
      loadingOrders := true;
      if result.Some? {
        orders := OrdersOf(result.value);
      }
      loadingOrders := false;
    }

    method SetShopSettings(settings: ShopSettings)
      modifies this`shopSettings
      ensures shopSettings == settings
    {
      shopSettings := settings;
    }

    method AddToCart(item: MenuItem)
      modifies this`cart
      ensures cart == Cart.AddToCart(old(cart), item)
    {
      cart := Cart.AddToCart(cart, item);
    }

    method RemoveFromCart(itemId: string)
      modifies this`cart
      ensures cart == Cart.RemoveFromCart(old(cart), itemId)
    {
      cart := Cart.RemoveFromCart(cart, itemId);
    }

    method UpdateQuantity(itemId: string, quantity: int)
      modifies this`cart
      ensures cart == Cart.UpdateQuantity(old(cart), itemId, quantity)
    {
      if quantity <= 0 {
        RemoveFromCart(itemId);
        return;
      }
      cart := Cart.UpdateQuantity(cart, itemId, quantity);
    }

    method ClearCart()
      modifies this`cart
      ensures cart == []
    {
      cart := [];
    }

    /** `createOrder`. `header` is what the order insert returned (`None`
        when it reported an error); `itemsOk` says whether the item insert
        succeeded. Nothing is written for an empty cart; the cart and the
        tracked order change only when both inserts succeed. */
    method CreateOrder(tableNumber: int, header: Option<OrderHeader>, itemsOk: bool) returns (r: Option<Order>)
      modifies this`cart, this`currentOrder, this`writes
      ensures r.Some? <==> old(cart) != [] && header.Some? && itemsOk
      ensures old(cart) == [] ==> writes == old(writes)
      ensures old(cart) != [] && header.None? ==>
        writes == old(writes) + [InsertOrder(tableNumber, CartTotal(old(cart)), StatusName(Pending))]
      ensures old(cart) != [] && header.Some? ==>
        writes == old(writes) + [InsertOrder(tableNumber, CartTotal(old(cart)), StatusName(Pending)),
                                 InsertOrderItems(ItemInsertRows(header.value.id, old(cart)))]
      ensures r.Some? ==> r.value == BuildOrder(header.value, tableNumber, old(cart))
      ensures r.Some? ==> currentOrder == r && cart == []
      ensures r.None? ==> currentOrder == old(currentOrder) && cart == old(cart)
    {
      if |cart| == 0 {
        return None;
      }
      var totalAmount := CartTotal(cart);
      writes := writes + [InsertOrder(tableNumber, totalAmount, "pending")];
      if header.None? {
        return None;
      }
      var orderData := header.value;
      writes := writes + [InsertOrderItems(ItemInsertRows(orderData.id, cart))];
      if !itemsOk {
        return None;
      }
      var newOrder := BuildOrder(orderData, tableNumber, cart);
      currentOrder := Some(newOrder);
      ClearCart();
      return Some(newOrder);
    }

    /** `updateOrderStatus`: one write with the stored label, and no check of
        the order's present status. A failed write is only logged. */
    method UpdateOrderStatus(orderId: string, status: Status)
      modifies this`writes
      ensures writes == old(writes) + [UpdateStatus(orderId, DbStatus(status))]
    {
      var dbStatus := if status == Started then "preparing" else StatusName(status);
      writes := writes + [UpdateStatus(orderId, dbStatus)];
    }

    /** The change-feed handler. `fetched` is what the item lookup of an
        INSERT returned. One sound is played per INSERT when sound alerts are on. */
    method OnOrderChange(ev: ChangeEvent, fetched: Option<seq<ItemRow>>)
      modifies this`orders, this`currentOrder, this`alertsPlayed
      ensures Views(orders, currentOrder) == ApplyEvent(Views(old(orders), old(currentOrder)), ev, fetched)
      ensures alertsPlayed == old(alertsPlayed) + (if ev.InsertEvent? && shopSettings.soundAlerts then 1 else 0)
    {
      match ev {
        case InsertEvent(row) =>
          var order := RowToOrder(row, fetched);
          orders := ApplyInsert(orders, order);
          if shopSettings.soundAlerts {
            alertsPlayed := alertsPlayed + 1;
          }
        case UpdateEvent(row) =>
          orders := ApplyUpdate(orders, row.id, row.status, row.updatedAt);
          if currentOrder.Some? && currentOrder.value.id == row.id {
            currentOrder := PatchCurrent(currentOrder, row.id, row.status, row.updatedAt);
          }
        case DeleteEvent(id) =>
          orders := ApplyDelete(orders, id);
      }
    }
  }
}
