/** The admin's Orders page: the status filter, the status badge, the three
    counters and the action buttons an order offers. */
module OrdersPage {
  import opened Types
  import opened Wrappers
  import Seqs

  /** The orders whose status label is exactly `status`, in list order. */
  function WithStatus(orders: seq<Order>, status: string): (r: seq<Order>)
    ensures |r| <= |orders|
    ensures forall o :: o in r <==> o in orders && o.status == status
  {
    Seqs.Filter(orders, (o: Order) => o.status == status)
  }

  /** The list under the filter menu: every order for "all", otherwise the
      orders whose label equals the filter's value. */
  function FilterOrders(orders: seq<Order>, filter: string): (r: seq<Order>)
    ensures filter == "all" ==> r == orders
    ensures filter != "all" ==> forall o :: o in r <==> o in orders && o.status == filter
  {
    if filter == "all" then orders else WithStatus(orders, filter)
  }

  /** The badge text for a status label; anything the page does not know is "Unknown". */
  function BadgeLabel(status: string): (text: string)
    ensures text == "Unknown" <==> ParseStatus(status).None?
    ensures ParseStatus(status) == Some(Started) ==> text == "Preparing"
  {
    match ParseStatus(status)
    case Some(Pending) => "Pending"
    case Some(Started) => "Preparing"
    case Some(Ready) => "Ready"
    case Some(Cancelled) => "Cancelled"
    case None => "Unknown"
  }

  datatype Stats = Stats(pending: nat, preparing: nat, ready: nat)

  /** The three counters: orders labelled "pending", "started" and "ready". */
  function OrderStats(orders: seq<Order>): (s: Stats)
    ensures s.pending == |WithStatus(orders, StatusName(Pending))|
    ensures s.preparing == |WithStatus(orders, StatusName(Started))|
    ensures s.ready == |WithStatus(orders, StatusName(Ready))|
  {
    Stats(|WithStatus(orders, "pending")|, |WithStatus(orders, "started")|, |WithStatus(orders, "ready")|)
  }

  /** The counters never add up to more than the orders listed. */
  lemma StatsBounded(orders: seq<Order>)
    ensures OrderStats(orders).pending + OrderStats(orders).preparing + OrderStats(orders).ready <= |orders|
  {
    Seqs.ExclusiveFilterCounts(orders,
      (o: Order) => o.status == "pending", (o: Order) => o.status == "started", (o: Order) => o.status == "ready");
  }

  /** The buttons of an expanded order: start or cancel a pending order,
      mark a started one ready; nothing for ready, cancelled or unknown labels. */
  function Actions(status: string): (r: seq<Status>)
    ensures ParseStatus(status) == Some(Pending) ==> r == [Started, Cancelled]
    ensures ParseStatus(status) == Some(Started) ==> r == [Ready]
    ensures ParseStatus(status) !in {Some(Pending), Some(Started)} ==> r == []
  {
    if status != "cancelled" && status != "ready" then
      (if status == "pending" then [Started, Cancelled]
       else if status == "started" then [Ready]
       else [])
    else []
  }

  /** Ready and cancelled orders, and orders with a label the page does not
      know, offer no action: they are final on this page. */
  lemma NoActionFromFinal(status: string)
    requires ParseStatus(status) in {None, Some(Ready), Some(Cancelled)}
    ensures Actions(status) == []
  {
  }

  /** No action leads back to pending or to the status the order already has. */
  lemma ActionsMoveOn(s: Status, t: Status)
    requires t in Actions(StatusName(s))
    ensures t != Pending && t != s
  {
    StatusNamesDistinct(s, s);
  }
}
