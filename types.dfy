/** The records the ordering flow passes around: menu items, cart lines,
    orders with their item snapshots, and the shop settings. */
module Types {
  import opened Wrappers

  /** A menu item belongs to exactly one of three categories. */
  datatype Category = Tea | Snacks | Extra

  /** The label the store and the category tabs use for a category. */
  function CategoryName(c: Category): string {
    match c
    case Tea => "tea"
    case Snacks => "snacks"
    case Extra => "extra"
  }

  /** The category a label names, if any. */
  function ParseCategory(s: string): (r: Option<Category>)
    ensures r.Some? ==> CategoryName(r.value) == s
    ensures r.None? ==> forall c: Category :: CategoryName(c) != s
  {
    if s == "tea" then Some(Tea)
    else if s == "snacks" then Some(Snacks)
    else if s == "extra" then Some(Extra)
    else None
  }

  /** Every category label is read back as its category, and "all" names no category. */
  lemma CategoryNamesRoundTrip(c: Category)
    ensures ParseCategory(CategoryName(c)) == Some(c)
    ensures ParseCategory("all") == None
  {
  }

  /** A catalogue entry. `image`, `discount` (a percentage), `isBestSeller`
      and `isTodaysSpecial` are optional; `isAvailable` is mandatory. */
  datatype MenuItem = MenuItem(
    id: string,
    name: string,
    description: string,
    price: real,
    category: Category,
    image: Option<string>,
    discount: Option<real>,
    isBestSeller: Option<bool>,
    isTodaysSpecial: Option<bool>,
    isAvailable: bool)

  /** A cart line: every field of the menu item it was added from, plus a quantity. */
  datatype CartItem = CartItem(item: MenuItem, quantity: int)

  /** A frozen copy of one ordered line: name, unit price already discounted, quantity. */
  datatype OrderItem = OrderItem(id: string, name: string, price: real, quantity: int)

  /** The store's timestamps are kept as the text it sent. */
  type Timestamp = string

  /** An order. `status` holds the label exactly as it was set or received:
      the store's label is cast to the status type without any check. */
  datatype Order = Order(
    id: string,
    tableNumber: int,
    items: seq<OrderItem>,
    status: string,
    totalAmount: real,
    createdAt: Timestamp,
    updatedAt: Timestamp)

  /** The four statuses the order type declares. */
  datatype Status = Pending | Started | Ready | Cancelled

  function StatusName(s: Status): string {
    match s
    case Pending => "pending"
    case Started => "started"
    case Ready => "ready"
    case Cancelled => "cancelled"
  }

  /** The declared status a label names, if any. */
  function ParseStatus(raw: string): (r: Option<Status>)
    ensures r.Some? ==> StatusName(r.value) == raw
    ensures r.None? ==> forall s: Status :: StatusName(s) != raw
  {
    if raw == "pending" then Some(Pending)
    else if raw == "started" then Some(Started)
    else if raw == "ready" then Some(Ready)
    else if raw == "cancelled" then Some(Cancelled)
    else None
  }

  /** Each status has its own label, and "preparing" is not one of them. */
  lemma StatusNamesDistinct(s: Status, t: Status)
    ensures ParseStatus(StatusName(s)) == Some(s)
    ensures StatusName(s) == StatusName(t) ==> s == t
    ensures ParseStatus("preparing") == None
  {
  }

  datatype ShopSettings = ShopSettings(
    shopName: string,
    description: string,
    numberOfTables: int,
    isOpen: bool,
    logoUrl: Option<string>,
    shopUrl: string,
    soundAlerts: bool,
    browserNotifications: bool)
}
