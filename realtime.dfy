/** The order views kept in step with the store's change feed: the admin's
    order list and the customer's tracked order. Each change-feed payload is
    an input; the reducers below are what the provider hands to `setOrders`
    and `setCurrentOrder`. */
module Realtime {
  import opened Types
  import opened Wrappers
  import Seqs

  /** A row of the `orders` table as the feed or a query delivers it
      (columns `id`, `table_number`, `status`, `total`, `created_at`, `updated_at`). */
  datatype OrderRow = OrderRow(
    id: string,
    tableNumber: int,
    status: string,
    total: real,
    createdAt: Timestamp,
    updatedAt: Timestamp)

  /** A row of the `order_items` table. */
  datatype ItemRow = ItemRow(id: string, name: string, price: real, quantity: int)

  function ItemOf(row: ItemRow): OrderItem {
    OrderItem(row.id, row.name, row.price, row.quantity)
  }

  /** `(items || []).map(...)`: a failed item lookup gives an order without items. */
  function ItemsOf(rows: Option<seq<ItemRow>>): (items: seq<OrderItem>)
    ensures rows.None? ==> items == []
    ensures rows.Some? ==> |items| == |rows.value|
    ensures rows.Some? ==> forall i :: 0 <= i < |items| ==> items[i] == ItemOf(rows.value[i])
  {
    match rows
    case None => []
    case Some(rs) => seq(|rs|, i requires 0 <= i < |rs| => ItemOf(rs[i]))
  }

  /** The in-memory order built from a row. The status label is cast as it
      comes: a stored "preparing" stays "preparing". */
  function RowToOrder(row: OrderRow, items: Option<seq<ItemRow>>): (o: Order)
    ensures o.id == row.id && o.tableNumber == row.tableNumber && o.totalAmount == row.total
    ensures o.status == row.status
    ensures o.createdAt == row.createdAt && o.updatedAt == row.updatedAt
    ensures o.items == ItemsOf(items)
  {
    Order(row.id, row.tableNumber, ItemsOf(items), row.status, row.total, row.createdAt, row.updatedAt)
  }

  /** `prev.filter(o => o.id !== id)`. */
  function WithoutOrder(orders: seq<Order>, id: string): (r: seq<Order>)
    ensures forall o :: o in r <==> o in orders && o.id != id
    ensures forall i :: 0 <= i < |r| ==> r[i].id != id
    ensures (forall i :: 0 <= i < |orders| ==> orders[i].id != id) ==> r == orders
  {
    var keep := (o: Order) => o.id != id;
    if exists i :: 0 <= i < |orders| && orders[i].id == id then Seqs.Filter(orders, keep)
    else Seqs.FilterAllPass(orders, keep); Seqs.Filter(orders, keep)
  }

  /** INSERT: the new order goes to the head, replacing any entry with its id. */
  function ApplyInsert(orders: seq<Order>, order: Order): (r: seq<Order>)
    ensures |r| >= 1 && r[0] == order
    ensures r[1..] == WithoutOrder(orders, order.id)
    ensures forall i :: 0 <= i < |r| && r[i].id == order.id ==> i == 0
    ensures forall o :: o in orders && o.id != order.id ==> o in r
  {
    [order] + WithoutOrder(orders, order.id)
  }

  /** Receiving the same INSERT twice leaves the list as receiving it once. */
  lemma InsertIdempotent(orders: seq<Order>, order: Order)
    ensures ApplyInsert(ApplyInsert(orders, order), order) == ApplyInsert(orders, order)
  {
    var once := ApplyInsert(orders, order);
    var keep := (o: Order) => o.id != order.id;
    assert WithoutOrder(once, order.id) == Seqs.Filter(once, keep);
    assert once == [order] + Seqs.Filter(orders, keep);
    Seqs.FilterAppend([order], Seqs.Filter(orders, keep), keep);
    Seqs.FilterIdempotent(orders, keep);
  }

  /** No two entries of the list share an id. */
  predicate UniqueOrderIds(orders: seq<Order>) {
    forall i, j :: 0 <= i < |orders| && 0 <= j < |orders| && orders[i].id == orders[j].id ==> i == j
  }

  /** INSERT keeps ids unique. */
  lemma InsertKeepsIdsUnique(orders: seq<Order>, order: Order)
    requires UniqueOrderIds(orders)
    ensures UniqueOrderIds(ApplyInsert(orders, order))
  {
    var keep := (o: Order) => o.id != order.id;
    FilterUniqueIds(orders, keep);
    var r := ApplyInsert(orders, order);
    assert r[1..] == Seqs.Filter(orders, keep);
    forall i, j | 0 <= i < |r| && 0 <= j < |r| && r[i].id == r[j].id
      ensures i == j
    {
      if i > 0 && j > 0 {
        assert r[1..][i - 1] == r[i] && r[1..][j - 1] == r[j];
      }
    }
  }

  lemma {:induction false} FilterUniqueIds(orders: seq<Order>, keep: Order -> bool)
    requires UniqueOrderIds(orders)
    ensures UniqueOrderIds(Seqs.Filter(orders, keep))
  {
    if orders != [] {
      var rest := orders[1..];
      assert UniqueOrderIds(rest) by {
        forall i, j | 0 <= i < |rest| && 0 <= j < |rest| && rest[i].id == rest[j].id ensures i == j {
          assert orders[i + 1].id == orders[j + 1].id;
        }
      }
      FilterUniqueIds(rest, keep);
      var f := Seqs.Filter(rest, keep);
      forall k | 0 <= k < |f| ensures f[k].id != orders[0].id {
        assert f[k] in rest;
        var m :| 0 <= m < |rest| && rest[m] == f[k];
        assert orders[m + 1] == f[k];
      }
    }
  }

  /** On a list with unique ids, INSERT of a known id moves that entry, now
      replaced by the new order, to the head and keeps the others in order. */
  lemma InsertMovesToHead(orders: seq<Order>, order: Order, k: int)
    requires UniqueOrderIds(orders) && 0 <= k < |orders| && orders[k].id == order.id
    ensures ApplyInsert(orders, order) == [order] + orders[..k] + orders[k + 1..]
  {
    Seqs.FilterRemovesOne(orders, (o: Order) => o.id != order.id, k);
  }

  /** On a list with unique ids, DELETE splices out the one entry with the id. */
  lemma DeleteIsSplice(orders: seq<Order>, k: int)
    requires UniqueOrderIds(orders) && 0 <= k < |orders|
    ensures ApplyDelete(orders, orders[k].id) == orders[..k] + orders[k + 1..]
  {
    var id := orders[k].id;
    Seqs.FilterRemovesOne(orders, (o: Order) => o.id != id, k);
  }

  /** UPDATE on one order: only `status` and `updatedAt` change. */
  function Patch(o: Order, status: string, updatedAt: Timestamp): Order {
    o.(status := status, updatedAt := updatedAt)
  }

  /** UPDATE on the admin list: the entries with the event's id are patched,
      every other entry is left as it was. */
  function ApplyUpdate(orders: seq<Order>, id: string, status: string, updatedAt: Timestamp): (r: seq<Order>)
    ensures |r| == |orders|
    ensures forall i :: 0 <= i < |orders| ==>
      r[i].(status := orders[i].status, updatedAt := orders[i].updatedAt) == orders[i]
    ensures forall i :: 0 <= i < |orders| && orders[i].id == id ==> r[i].status == status && r[i].updatedAt == updatedAt
    ensures forall i :: 0 <= i < |orders| && orders[i].id != id ==> r[i] == orders[i]
  {
    seq(|orders|, i requires 0 <= i < |orders| =>
      if orders[i].id == id then Patch(orders[i], status, updatedAt) else orders[i])
  }

  /** An UPDATE whose id is not in the list changes nothing. */
  lemma UpdateUnmatched(orders: seq<Order>, id: string, status: string, updatedAt: Timestamp)
    requires forall i :: 0 <= i < |orders| ==> orders[i].id != id
    ensures ApplyUpdate(orders, id, status, updatedAt) == orders
  {
  }

  /** Receiving the same UPDATE twice leaves the list as receiving it once. */
  lemma UpdateIdempotent(orders: seq<Order>, id: string, status: string, updatedAt: Timestamp)
    ensures ApplyUpdate(ApplyUpdate(orders, id, status, updatedAt), id, status, updatedAt)
         == ApplyUpdate(orders, id, status, updatedAt)
  {
  }

  /** UPDATE on the tracked order: patched only when it is the order the event names. */
  function PatchCurrent(current: Option<Order>, id: string, status: string, updatedAt: Timestamp): (r: Option<Order>)
    ensures current.Some? && current.value.id == id ==> r == Some(Patch(current.value, status, updatedAt))
    ensures !(current.Some? && current.value.id == id) ==> r == current
  {
    if current.Some? && current.value.id == id then Some(Patch(current.value, status, updatedAt)) else current
  }

  /** DELETE: every entry with the id leaves the list; the rest keep their order. */
  function ApplyDelete(orders: seq<Order>, id: string): (r: seq<Order>)
    ensures forall i :: 0 <= i < |r| ==> r[i].id != id
    ensures forall o :: o in r <==> o in orders && o.id != id
    ensures (forall i :: 0 <= i < |orders| ==> orders[i].id != id) ==> r == orders
  {
    WithoutOrder(orders, id)
  }

  /** One payload of the change feed. A DELETE carries only the old row's id. */
  datatype ChangeEvent =
    | InsertEvent(row: OrderRow)
    | UpdateEvent(row: OrderRow)
    | DeleteEvent(id: string)

  /** The two views the feed keeps in step. */
  datatype Views = Views(orders: seq<Order>, current: Option<Order>)

  /** The effect of one payload on both views. `fetched` is the result of the
      item lookup an INSERT triggers (`None` when it returned nothing). */
  function ApplyEvent(v: Views, ev: ChangeEvent, fetched: Option<seq<ItemRow>>): (r: Views)
    ensures !ev.UpdateEvent? ==> r.current == v.current
    ensures ev.InsertEvent? ==> r.orders == ApplyInsert(v.orders, RowToOrder(ev.row, fetched))
    ensures ev.UpdateEvent? ==> r.orders == ApplyUpdate(v.orders, ev.row.id, ev.row.status, ev.row.updatedAt)
    ensures ev.UpdateEvent? ==> r.current == PatchCurrent(v.current, ev.row.id, ev.row.status, ev.row.updatedAt)
    ensures ev.DeleteEvent? ==> r.orders == ApplyDelete(v.orders, ev.id)
  {
    match ev
    case InsertEvent(row) => Views(ApplyInsert(v.orders, RowToOrder(row, fetched)), v.current)
    case UpdateEvent(row) =>
      Views(ApplyUpdate(v.orders, row.id, row.status, row.updatedAt),
            PatchCurrent(v.current, row.id, row.status, row.updatedAt))
    case DeleteEvent(id) => Views(ApplyDelete(v.orders, id), v.current)
  }

  /** Every payload can be delivered twice without changing the outcome. */
  lemma RedeliveryIdempotent(v: Views, ev: ChangeEvent, fetched: Option<seq<ItemRow>>)
    ensures ApplyEvent(ApplyEvent(v, ev, fetched), ev, fetched) == ApplyEvent(v, ev, fetched)
  {
    match ev
    case InsertEvent(row) => InsertIdempotent(v.orders, RowToOrder(row, fetched));
    case UpdateEvent(row) => UpdateIdempotent(v.orders, row.id, row.status, row.updatedAt);
    case DeleteEvent(id) =>
      var once := ApplyDelete(v.orders, id);
      assert ApplyDelete(once, id) == once;
  }

  /** After an UPDATE, the tracked order and its entry in the admin list agree
      on status and update time. */
  lemma UpdateReachesBothViews(v: Views, row: OrderRow, k: int)
    requires v.current.Some? && v.current.value.id == row.id
    requires 0 <= k < |v.orders| && v.orders[k].id == row.id
    ensures ApplyEvent(v, UpdateEvent(row), None).current.value.status == ApplyEvent(v, UpdateEvent(row), None).orders[k].status == row.status
    ensures ApplyEvent(v, UpdateEvent(row), None).current.value.updatedAt == ApplyEvent(v, UpdateEvent(row), None).orders[k].updatedAt
  {
  }
}
