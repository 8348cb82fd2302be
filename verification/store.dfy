/** PostgresStore: transactions over the two tables (go/internal/order/store.go). */
module Store {
  import opened Money
  import opened Orders
  import opened Lifecycle
  import opened Queries
  import opened DbTables
  import opened Inserts

  /** Exactly when an UPDATE of the row of w commits. */
  predicate Updatable(db: Tables, w: Order, fault: Fault) {
    (fault == NoFault || (fault.AtStatement? && fault.n != 0)) && w.id in db.orders && OrderFits(RowOf(w))
  }

  /** A missing key of a Go map of slices reads as the empty slice. */
  function Lookup(m: map<Uuid, seq<OrderItem>>, id: Uuid): seq<OrderItem> {
    if id in m then m[id] else []
  }

  function BelongsTo(db: Tables, id: Uuid): Uuid -> bool {
    k => k in db.items && db.items[k].orderId == id
  }

  /** Grouping one scan of many orders' items gives each order what scanning for it alone gives. */
  lemma GroupedScan(db: Tables, orderIds: set<Uuid>, id: Uuid)
    requires id in orderIds
    ensures Filter(BelongsTo(db, id), ItemQuery(db, orderIds)) == ItemQuery(db, {id})
  {
    FilterKeepsOrder(Unordered, BelongsTo(db, id), ItemQuery(db, orderIds));
    SortedIsUnique(Unordered, Filter(BelongsTo(db, id), ItemQuery(db, orderIds)), ItemQuery(db, {id}));
  }

  ghost predicate Grouped(db: Tables, m: map<Uuid, seq<OrderItem>>, rows: seq<Uuid>)
    requires forall k :: k in rows ==> k in db.items
  {
    forall id :: Lookup(m, id) == ScanAll(db, Filter(BelongsTo(db, id), rows))
  }

  /** Appending the next scanned row to its order's slice. */
  function GroupRow(db: Tables, m: map<Uuid, seq<OrderItem>>, k: Uuid): map<Uuid, seq<OrderItem>>
    requires k in db.items
  {
    var item := ScanItem(k, db.items[k]);
    m[item.orderId := Lookup(m, item.orderId) + [item]]
  }

  lemma GroupRowKeeps(db: Tables, m: map<Uuid, seq<OrderItem>>, rows: seq<Uuid>, k: Uuid)
    requires (forall x :: x in rows ==> x in db.items) && k in db.items
    requires Grouped(db, m, rows)
    ensures Grouped(db, GroupRow(db, m, k), rows + [k])
  {
    forall id
      ensures Lookup(GroupRow(db, m, k), id) == ScanAll(db, Filter(BelongsTo(db, id), rows + [k]))
    {
      FilterOneMore(db, rows, k, id);
      assert Lookup(m, id) == ScanAll(db, Filter(BelongsTo(db, id), rows));
    }
  }

  lemma FilterOneMore(db: Tables, rows: seq<Uuid>, k: Uuid, id: Uuid)
    requires (forall x :: x in rows ==> x in db.items) && k in db.items
    ensures ScanAll(db, Filter(BelongsTo(db, id), rows + [k])) ==
            ScanAll(db, Filter(BelongsTo(db, id), rows)) + if db.items[k].orderId == id then [ScanItem(k, db.items[k])] else []
  {
    assert (rows + [k])[..|rows|] == rows;
    var before := Filter(BelongsTo(db, id), rows);
    assert Filter(BelongsTo(db, id), rows + [k]) == if db.items[k].orderId == id then before + [k] else before;
  }

  lemma GroupedEmpty(db: Tables)
    ensures Grouped(db, map[], [])
  {
  }

  lemma GroupedIsRead(db: Tables, m: map<Uuid, seq<OrderItem>>, ids: set<Uuid>)
    requires Grouped(db, m, ItemQuery(db, ids))
    ensures forall id :: id in ids ==> Lookup(m, id) == ReadItems(db, id)
  {
    forall id | id in ids
      ensures Lookup(m, id) == ReadItems(db, id)
    {
      GroupedScan(db, ids, id);
      assert Lookup(m, id) == ScanAll(db, Filter(BelongsTo(db, id), ItemQuery(db, ids)));
    }
  }

  /** While Create runs: the first i items are filled in, the rest are as given. */
  ghost predicate Filling(o: Order, p: Order, given: seq<OrderItem>, i: nat) {
    i <= |p.items| == |o.items| == |given| && o == p.(items := o.items)
    && (forall k :: 0 <= k < i ==> o.items[k] == p.items[k])
    && (forall k :: i <= k < |given| ==> o.items[k] == given[k])
  }

  class PostgresStore {
    var db: Tables

    ghost predicate Valid()
      reads this
    {
      ForeignKey(db)
    }

    constructor ()
      ensures Valid() && db == Tables(map[], map[])
    {
      db := Tables(map[], map[]);
    }

    method Create(order: OrderEntity, persist: Instant, newId: Uuid, newItemIds: seq<Uuid>, fault: Fault)
      returns (ok: bool)
      requires Valid() && |newItemIds| == |order.items|
      modifies this, order
      ensures Valid()
      ensures ok <==> Insertable(old(db), Prepared(old(order.View()), persist, newId, newItemIds), fault)
      ensures ok ==> order.View() == Prepared(old(order.View()), persist, newId, newItemIds)
      ensures ok ==> db == Inserted(old(db), order.View())
      ensures !ok ==> db == old(db)
    {
      ghost var p := Prepared(order.View(), persist, newId, newItemIds);
      ghost var given := order.items;
      if fault == AtBegin {
        return false;
      }
      Fill(order, persist, newId, newItemIds);
      if fault == AtStatement(0) || order.id in db.orders || !OrderFits(RowOf(order.View())) {
        return false;
      }
      var tx := Written(db, order.View());
      ok, tx := InsertItems(tx, order, newItemIds, fault, p, given);
      if !ok {
        return false;
      }
      if fault == AtCommit {
        return false;
      }
      db := tx;
      InsertKeepsForeignKey(old(db), p, fault);
      ok := true;
    }

    /** The stamps and the id of an order about to be created. */
    method Fill(order: OrderEntity, persist: Instant, newId: Uuid, ghost newItemIds: seq<Uuid>)
      requires |newItemIds| == |order.items|
      modifies order
      ensures order.items == old(order.items)
      ensures Filling(order.View(), Prepared(old(order.View()), persist, newId, newItemIds), order.items, 0)
    {
      order.UpdateTimestampsOnPersist(persist, persist);
      if order.id == 0 {
        order.id := newId;
      }
    }

    /** Create's loop over the items. */
    method InsertItems(start: Tables, order: OrderEntity, newItemIds: seq<Uuid>, fault: Fault,
                       ghost p: Order, ghost given: seq<OrderItem>)
      returns (ok: bool, tx: Tables)
      requires Filling(order.View(), p, given, 0) && |newItemIds| == |order.items| && start == Staged(db, p, 0)
      requires forall i :: 0 <= i < |p.items| ==> p.items[i] == PreparedItem(p.id, given[i], newItemIds[i])
      modifies order`items
      ensures ok <==> forall i :: 0 <= i < |p.items| ==> ItemInserts(db, p, i, fault)
      ensures ok ==> order.View() == p && tx == Inserted(db, p)
    {
      tx := start;
      for i := 0 to |order.items|
        invariant Filling(order.View(), p, given, i) && tx == Staged(db, p, i)
        invariant forall k :: 0 <= k < i ==> ItemInserts(db, p, k, fault)
      {
        ok, tx := InsertItem(tx, order, i, newItemIds[i], fault, p, given);
        if !ok {
          return;
        }
      }
      assert order.items == p.items;
      ok := true;
    }

    /** One turn of Create's loop: complete the item in place and insert its row within the transaction. */
    method InsertItem(tx: Tables, order: OrderEntity, i: nat, newId: Uuid, fault: Fault,
                      ghost p: Order, ghost given: seq<OrderItem>)
      returns (ok: bool, next: Tables)
      requires i < |p.items| && Filling(order.View(), p, given, i)
      requires p.items[i] == PreparedItem(p.id, given[i], newId)
      requires tx == Staged(db, p, i)
      modifies order`items
      ensures Filling(order.View(), p, given, i + 1)
      ensures ok <==> ItemInserts(db, p, i, fault)
      ensures ok ==> next == Staged(db, p, i + 1)
    {
      var item := order.items[i];
      if item.id == 0 {
        item := item.(id := newId);
      }
      item := Subtotaled(item.(orderId := order.id));
      order.items := order.items[i := item];
      var row := ItemRowOf(order.id, item);
      StagedKeys(db, p, i);
      if fault == AtStatement(i + 1) || item.id in tx.items || !ItemFits(row) {
        return false, tx;
      }
      return true, tx.(items := tx.items[item.id := row]);
    }

    method ListItems(orderId: Uuid) returns (items: seq<OrderItem>)
      ensures items == ReadItems(db, orderId)
    {
      var rows := ItemQuery(db, {orderId});
      items := [];
      for i := 0 to |rows|
        invariant |items| == i
        invariant forall k :: 0 <= k < i ==> items[k] == ScanItem(rows[k], db.items[rows[k]])
      {
        assert rows[i] in rows;
        items := items + [ScanItem(rows[i], db.items[rows[i]])];
      }
    }

    method Get(id: Uuid, fails: bool) returns (r: Result<OrderEntity>)
      ensures fails ==> r == Err(StoreFailure)
      ensures !fails && id !in db.orders ==> r == Err(NotFound)
      ensures !fails && id in db.orders ==> r.Ok? && fresh(r.value) && r.value.View() == Read(db, id).value
    {
      if fails {
        return Err(StoreFailure);
      }
      if id !in db.orders {
        return Err(NotFound);
      }
      var order := new OrderEntity.Holding(Scan(id, db.orders[id]));
      var items := ListItems(id);
      order.items := items;
      order.RecalculateTotals();
      return Ok(order);
    }

    /** The error, if any. */
    method Update(order: OrderEntity, persist: Instant, fault: Fault) returns (error: Option<Error>)
      requires Valid()
      modifies this, order`createdAt, order`updatedAt
      ensures Valid()
      ensures error.None? <==> Updatable(old(db), Stamped(old(order.View()), persist), fault)
      ensures error.None? ==> order.View() == Stamped(old(order.View()), persist) && db == Written(old(db), order.View())
      ensures error.Some? ==> db == old(db) && (error.value == NotFound || error.value == StoreFailure)
      ensures error == Some(NotFound) <==>
              order.id !in old(db).orders && fault != AtBegin && fault != AtStatement(0)
    {
      if fault == AtBegin {
        return Some(StoreFailure);
      }
      order.UpdateTimestampsOnPersist(persist, persist);
      if fault == AtStatement(0) {
        return Some(StoreFailure);
      }
      if order.id !in db.orders {
        return Some(NotFound);
      }
      if !OrderFits(RowOf(order.View())) {
        return Some(StoreFailure);
      }
      var tx := Written(db, order.View());
      if fault == AtCommit {
        return Some(StoreFailure);
      }
      db := tx;
      error := None;
    }

    /** later is what the tables hold when this query runs. */
    method ListItemsByOrderIDs(later: Tables, orderIds: seq<Uuid>) returns (byOrder: map<Uuid, seq<OrderItem>>)
      ensures forall id :: id in orderIds ==> Lookup(byOrder, id) == ReadItems(later, id)
      ensures forall id :: id in byOrder ==> id in orderIds
    {
      byOrder := map[];
      if |orderIds| == 0 {
        return;
      }
      var ids := set id | id in orderIds;
      var rows := ItemQuery(later, ids);
      byOrder := GroupRows(later, rows);
      GroupedIsRead(later, byOrder, ids);
      forall id | id in byOrder
        ensures id in orderIds
      {
        var k :| k in rows && later.items[k].orderId == id;
      }
    }

    /** The loop over the scanned rows. */
    method GroupRows(later: Tables, rows: seq<Uuid>) returns (byOrder: map<Uuid, seq<OrderItem>>)
      requires forall k :: k in rows ==> k in later.items
      ensures Grouped(later, byOrder, rows)
      ensures forall id :: id in byOrder ==> exists k :: k in rows && later.items[k].orderId == id
    {
      byOrder := map[];
      GroupedEmpty(later);
      assert rows[..0] == [];
      for i := 0 to |rows|
        invariant Grouped(later, byOrder, rows[..i])
        invariant forall id :: id in byOrder ==> exists k :: k in rows && later.items[k].orderId == id
      {
        assert rows[i] in rows;
        GroupRowKeeps(later, byOrder, rows[..i], rows[i]);
        assert rows[..i + 1] == rows[..i] + [rows[i]];
        byOrder := GroupRow(later, byOrder, rows[i]);
      }
      assert rows[..|rows|] == rows;
    }

    method ScanOrders(rows: seq<Uuid>) returns (orders: seq<OrderEntity>)
      requires forall id :: id in rows ==> id in db.orders
      ensures |orders| == |rows|
      ensures forall k :: 0 <= k < |rows| ==>
                            fresh(orders[k]) && orders[k].View() == Scan(rows[k], db.orders[rows[k]])
      ensures forall j, k :: 0 <= j < k < |rows| ==> orders[j] != orders[k]
    {
      orders := [];
      for i := 0 to |rows|
        invariant |orders| == i
        invariant forall k :: 0 <= k < i ==> fresh(orders[k]) && orders[k].View() == Scan(rows[k], db.orders[rows[k]])
        invariant forall j, k :: 0 <= j < k < i ==> orders[j] != orders[k]
      {
        assert rows[i] in rows;
        var order := new OrderEntity.Holding(Scan(rows[i], db.orders[rows[i]]));
        orders := orders + [order];
      }
    }

    method FillItems(orders: seq<OrderEntity>, byOrder: map<Uuid, seq<OrderItem>>)
      requires forall j, k :: 0 <= j < k < |orders| ==> orders[j] != orders[k]
      modifies orders
      ensures forall k :: 0 <= k < |orders| ==>
                            orders[k].View() == Recalculated(old(orders[k].View()).(items := Lookup(byOrder, old(orders[k].id))))
    {
      for i := 0 to |orders|
        invariant forall k :: 0 <= k < i ==>
                                orders[k].View() == Recalculated(old(orders[k].View()).(items := Lookup(byOrder, old(orders[k].id))))
        invariant forall k :: i <= k < |orders| ==> unchanged(orders[k])
      {
        var order := orders[i];
        order.items := Lookup(byOrder, order.id);
        order.RecalculateTotals();
      }
    }

    /**
     The orders of a customer, sorted. No transaction spans the two queries: the items are those of the tables
     as they are later, when the second query runs.
     */
    method ListByCustomer(customer: string, fails: bool, later: Tables) returns (r: Result<seq<OrderEntity>>)
      ensures fails ==> r == Err(StoreFailure)
      ensures !fails ==> r.Ok? && |r.value| == |OrderQuery(db, customer)|
      ensures !fails ==> forall i :: 0 <= i < |r.value| ==>
                           fresh(r.value[i]) && r.value[i].View() == ReadAcross(db, later, OrderQuery(db, customer)[i])
    {
      if fails {
        return Err(StoreFailure);
      }
      var rows := OrderQuery(db, customer);
      var orders := ScanOrders(rows);
      var byOrder := ListItemsByOrderIDs(later, rows);
      FillItems(orders, byOrder);
      forall i | 0 <= i < |orders|
        ensures orders[i].View() == ReadAcross(db, later, rows[i])
      {
        assert rows[i] in rows;
      }
      return Ok(orders);
    }
  }

  /** The listed ids are the customer's, once each, by creation time and then by id. */
  lemma ListingIsExact(db: Tables, customer: string)
    ensures var ids := OrderQuery(db, customer);
            (forall i, j :: 0 <= i < j < |ids| ==>
                              ids[i] != ids[j] && db.orders[ids[i]].createdAt <= db.orders[ids[j]].createdAt
                              && (db.orders[ids[i]].createdAt == db.orders[ids[j]].createdAt ==> ids[i] < ids[j]))
            && (forall id :: id in ids <==> Read(db, id).Some? && Read(db, id).value.customerId == customer)
  {
    var ids := OrderQuery(db, customer);
    forall i, j | 0 <= i < j < |ids|
      ensures ids[i] != ids[j] && db.orders[ids[i]].createdAt <= db.orders[ids[j]].createdAt
      ensures db.orders[ids[i]].createdAt == db.orders[ids[j]].createdAt ==> ids[i] < ids[j]
    {
      assert ids[i] in ids && ids[j] in ids;
      assert Precedes(CreatedKey(db), ids[i], ids[j]);
    }
  }
}
