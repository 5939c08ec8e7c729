/** How a status change travels: the admin presses an action, the provider
    writes the stored label, the change feed delivers the row back, and both
    the admin's list and the customer's tracker show what was read. The
    write maps "started" to "preparing" and nothing maps it back, so an
    order that has been started is read back under a label neither page
    knows. */
module StatusFlow {
  import opened Types
  import opened Wrappers
  import opened Realtime
  import AppContext
  import OrdersPage
  import OrderStatusCard

  /** Every action but "start" is read back as the status that was chosen. */
  lemma OtherActionsReadBack(s: Status)
    requires s != Started
    ensures ParseStatus(AppContext.DbStatus(s)) == Some(s)
    ensures OrdersPage.BadgeLabel(AppContext.DbStatus(s)) == OrderStatusCard.Config(AppContext.DbStatus(s)).text
  {
  }

  /** The two pages agree on the text of every label. */
  lemma PagesAgreeOnLabels(status: string)
    ensures OrdersPage.BadgeLabel(status) == OrderStatusCard.Config(status).text
  {
  }

  /** After the admin starts an order and the store's UPDATE comes back with
      the stored label, the admin sees it as "Unknown" with no button left to
      mark it ready, it is missing from the "Preparing" counter and filter,
      and a customer tracking it sees "Unknown" with no step reached. */
  lemma StartedOrderIsStuck(v: Views, row: OrderRow, k: int)
    requires 0 <= k < |v.orders| && v.orders[k].id == row.id
    requires row.status == AppContext.DbStatus(Started)
    ensures var after := ApplyEvent(v, UpdateEvent(row), None);
      OrdersPage.BadgeLabel(after.orders[k].status) == "Unknown"
      && OrdersPage.Actions(after.orders[k].status) == []
      && after.orders[k] !in OrdersPage.FilterOrders(after.orders, StatusName(Started))
    ensures var after := ApplyEvent(v, UpdateEvent(row), None);
      v.current.Some? && v.current.value.id == row.id ==>
        OrderStatusCard.Config(after.current.value.status).text == "Unknown"
        && OrderStatusCard.Step(after.current.value.status) == 0
  {
    StatusNamesDistinct(Started, Started);
    var after := ApplyEvent(v, UpdateEvent(row), None);
    assert after.orders[k].status == "preparing";
  }

  /** A "ready" or "cancelled" write, once read back, completes the
      tracker or takes it away. */
  lemma FinalWritesReachTracker(v: Views, row: OrderRow)
    requires v.current.Some? && v.current.value.id == row.id
    ensures var after := ApplyEvent(v, UpdateEvent(row), None);
      row.status == AppContext.DbStatus(Ready) ==>
        OrderStatusCard.Step(after.current.value.status) == 3 && OrderStatusCard.Progress(after.current.value.status) == 1.0
    ensures var after := ApplyEvent(v, UpdateEvent(row), None);
      row.status == AppContext.DbStatus(Cancelled) ==> !OrderStatusCard.TrackerShown(after.current.value.status)
  {
  }

  /** Along the actions the admin is offered, a status that is read back as
      written moves the tracker exactly one step forward; cancelling takes
      it away. */
  lemma ActionsAdvanceStep(s: Status, t: Status)
    requires t in OrdersPage.Actions(StatusName(s))
    ensures t != Cancelled ==> OrderStatusCard.Step(StatusName(t)) == OrderStatusCard.Step(StatusName(s)) + 1
    ensures t == Cancelled ==> !OrderStatusCard.TrackerShown(StatusName(t))
  {
    StatusNamesDistinct(s, s);
    StatusNamesDistinct(t, t);
  }
}
