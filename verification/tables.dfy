/** The two tables, their column types, and what reading and writing an order means (go/internal/order/store.go). */
module DbTables {
  import opened Sums
  import opened Money
  import opened Orders
  import opened Lifecycle
  import opened Queries

  /** A row of orders; None is NULL. The id is the key of the table. */
  datatype OrderRow = OrderRow(
    customerId: string, status: OrderStatus, totalAmount: Decimal, currency: string,
    trackingNumber: Option<string>, carrier: Option<string>, createdAt: Time, updatedAt: Time,
    paidAt: Option<Time>, shippedAt: Option<Time>, completedAt: Option<Time>, cancelledAt: Option<Time>,
    cancellationReason: Option<string>, street: Option<string>, city: Option<string>, state: Option<string>,
    postalCode: Option<string>, country: Option<string>)

  datatype ItemRow = ItemRow(
    orderId: Uuid, productId: string, productName: string, quantity: int, unitPrice: Decimal, totalPrice: Decimal)

  datatype Tables = Tables(orders: map<Uuid, OrderRow>, items: map<Uuid, ItemRow>)

  /** Where the database may fail: opening a transaction, running its n-th statement, committing it. */
  datatype Fault = NoFault | AtBegin | AtStatement(n: nat) | AtCommit

  /** order_items.order_id REFERENCES orders(id) */
  predicate ForeignKey(db: Tables) {
    forall k :: k in db.items ==> db.items[k].orderId in db.orders
  }

  /** NUMERIC(10,2) */
  predicate Numeric102(x: Decimal) {
    -100000000.0 < x < 100000000.0
  }

  predicate Varchar255(s: Option<string>) {
    s.Some? ==> |s.value| <= 255
  }

  predicate OrderFits(r: OrderRow) {
    |r.customerId| <= 255 && Numeric102(r.totalAmount) && |r.currency| <= 3
    && Varchar255(r.trackingNumber) && Varchar255(r.carrier) && Varchar255(r.cancellationReason)
    && Varchar255(r.street) && Varchar255(r.city) && Varchar255(r.state) && Varchar255(r.postalCode)
    && Varchar255(r.country)
  }

  predicate ItemFits(r: ItemRow) {
    |r.productId| <= 255 && |r.productName| <= 255 && -0x8000_0000 <= r.quantity < 0x8000_0000
    && Numeric102(r.unitPrice) && Numeric102(r.totalPrice)
  }

  /** The column values written for an order. */
  function RowOf(o: Order): OrderRow {
    var a := o.shippingAddress;
    OrderRow(o.customerId, o.status, Round2(o.totalAmount), o.currency, o.trackingNumber, o.carrier,
             o.createdAt, o.updatedAt, o.paidAt, o.shippedAt, o.completedAt, o.cancelledAt, o.cancellationReason,
             if a.Some? then Some(a.value.street) else None, if a.Some? then Some(a.value.city) else None,
             if a.Some? then Some(a.value.state) else None, if a.Some? then Some(a.value.postalCode) else None,
             if a.Some? then Some(a.value.country) else None)
  }

  function ItemRowOf(orderId: Uuid, i: OrderItem): ItemRow {
    ItemRow(orderId, i.productId, i.productName, i.quantity, Round2(i.unitPrice), Round2(i.subtotal))
  }

  /** scanOrderRow: the order a row describes, its items still to be read. */
  function Scan(id: Uuid, r: OrderRow): Order {
    var address :=
      if r.street.Some? || r.city.Some? || r.state.Some? || r.postalCode.Some? || r.country.Some? then
        Some(ShippingAddress(StringValue(r.street), StringValue(r.city), StringValue(r.state),
                             StringValue(r.postalCode), StringValue(r.country)))
      else None;
    Order(id, r.customerId, r.status, [], r.totalAmount, r.currency, address, r.trackingNumber, r.carrier,
          r.createdAt, r.updatedAt, r.paidAt, r.shippedAt, r.completedAt, r.cancelledAt, r.cancellationReason)
  }

  function ScanItem(id: Uuid, r: ItemRow): OrderItem {
    Subtotaled(OrderItem(id, r.orderId, r.productId, r.productName, r.quantity, r.unitPrice, 0.0))
  }

  /** No column of the row loses anything but fractions of a cent of the total. */
  lemma RowRoundTrip(o: Order)
    ensures Scan(o.id, RowOf(o)) == o.(items := [], totalAmount := Round2(o.totalAmount))
  {
  }

  // ---------------------------------------------------------------- queries

  function Unordered(id: Uuid): Time { 0 }

  function CreatedKey(db: Tables): Uuid -> Time {
    id => if id in db.orders then db.orders[id].createdAt else 0
  }

  /** SELECT ... FROM order_items WHERE order_id = ANY(ids) ORDER BY id ASC, as ids. */
  function ItemQuery(db: Tables, orderIds: set<Uuid>): (r: seq<Uuid>)
    ensures SortedBy(Unordered, r)
    ensures forall k :: k in r <==> k in db.items && db.items[k].orderId in orderIds
  {
    OrderBy(Unordered, set k | k in db.items && db.items[k].orderId in orderIds)
  }

  /** SELECT ... FROM orders WHERE customer_id = customer ORDER BY created_at ASC, id ASC, as ids. */
  function OrderQuery(db: Tables, customer: string): (r: seq<Uuid>)
    ensures SortedBy(CreatedKey(db), r)
    ensures forall k :: k in r <==> k in db.orders && db.orders[k].customerId == customer
  {
    OrderBy(CreatedKey(db), set k | k in db.orders && db.orders[k].customerId == customer)
  }

  function ScanAll(db: Tables, ids: seq<Uuid>): (r: seq<OrderItem>)
    requires forall k :: k in ids ==> k in db.items
    ensures |r| == |ids| && forall i :: 0 <= i < |ids| ==> r[i] == ScanItem(ids[i], db.items[ids[i]])
  {
    seq(|ids|, i requires 0 <= i < |ids| => ScanItem(ids[i], db.items[ids[i]]))
  }

  /** listItems: the items of one order, by id. */
  function ReadItems(db: Tables, id: Uuid): seq<OrderItem> {
    ScanAll(db, ItemQuery(db, {id}))
  }

  /** What Get returns. */
  function Read(db: Tables, id: Uuid): Option<Order> {
    if id in db.orders then Some(Recalculated(Scan(id, db.orders[id]).(items := ReadItems(db, id)))) else None
  }

  /** An order whose row is read now and its items later. */
  function ReadAcross(db: Tables, later: Tables, id: Uuid): Order
    requires id in db.orders
  {
    Recalculated(Scan(id, db.orders[id]).(items := ReadItems(later, id)))
  }

  /** What a committed Update leaves. */
  function Written(db: Tables, o: Order): Tables {
    db.(orders := db.orders[o.id := RowOf(o)])
  }

  /** An order read back is recalculated already, so it can be written and read again unchanged. */
  lemma ReadIsNormal(db: Tables, id: Uuid)
    requires id in db.orders
    ensures var o := Read(db, id).value;
            o.id == id && o.items == ReadItems(db, id) && o.totalAmount == Total(o.items) && Recalculated(o) == o
  {
    var raw := ReadItems(db, id);
    assert SubtotaledAll(raw) == raw;
  }

  lemma WrittenKeepsItems(db: Tables, o: Order, id: Uuid)
    ensures ReadItems(Written(db, o), id) == ReadItems(db, id)
  {
    SortedIsUnique(Unordered, ItemQuery(Written(db, o), {id}), ItemQuery(db, {id}));
  }

  /** What Get sees after a write of o over a row whose items are current's: o's columns, current's items, their total. */
  function WriteBack(current: Order, o: Order): Order {
    o.(items := current.items, totalAmount := Total(current.items))
  }

  lemma ReadAfterAnyWrite(db: Tables, o: Order)
    requires o.id in db.orders
    ensures Read(Written(db, o), o.id) == Some(WriteBack(Read(db, o.id).value, o))
  {
    RowRoundTrip(o);
    WrittenKeepsItems(db, o, o.id);
    ReadIsNormal(db, o.id);
    assert SubtotaledAll(ReadItems(db, o.id)) == ReadItems(db, o.id);
  }

  /** Reading, editing everything but items and total, writing and reading again returns what was written. */
  lemma ReadAfterWrite(db: Tables, o: Order)
    requires o.id in db.orders
    requires o.items == ReadItems(db, o.id) && o.totalAmount == Total(o.items)
    ensures Read(Written(db, o), o.id) == Some(o)
  {
    ReadAfterAnyWrite(db, o);
    ReadIsNormal(db, o.id);
  }

  lemma WriteLeavesOthers(db: Tables, o: Order, id: Uuid)
    requires id != o.id
    ensures Read(Written(db, o), id) == Read(db, id)
  {
    WrittenKeepsItems(db, o, id);
  }

  /** What Get returns for every order there is. */
  function Reads(db: Tables): map<Uuid, Order> {
    map id | id in db.orders :: Read(db, id).value
  }

  lemma OneReadChanges(db: Tables, t: Tables, id: Uuid, o: Order)
    requires t.orders.Keys == db.orders.Keys + {id} && Read(t, id) == Some(o)
    requires forall k :: k in db.orders && k != id ==> Read(t, k) == Read(db, k)
    ensures Reads(t) == Reads(db)[id := o]
  {
    assert Reads(t).Keys == Reads(db)[id := o].Keys;
  }

  lemma ReadsAfterWrite(db: Tables, o: Order)
    requires o.id in db.orders && Read(Written(db, o), o.id) == Some(o)
    ensures Reads(Written(db, o)) == Reads(db)[o.id := o]
  {
    forall id | id in db.orders && id != o.id
      ensures Read(Written(db, o), id) == Read(db, id)
    {
      WriteLeavesOthers(db, o, id);
    }
    OneReadChanges(db, Written(db, o), o.id, o);
  }

  // ---------------------------------------------------------------- a store under uninterrupted calls

  /** The tables after one service call on an existing order. */
  function CallOn(db: Tables, id: Uuid, c: Call): Tables
    requires id in db.orders
  {
    var o := Read(db, id).value;
    if Accepts(o, c) then Written(db, Edited(o, c.edit)) else db
  }

  function CallsOn(db: Tables, id: Uuid, calls: seq<Call>): (r: Tables)
    requires id in db.orders
    ensures id in r.orders
  {
    if calls == [] then db else CallOn(CallsOn(db, id, calls[..|calls| - 1]), id, calls[|calls| - 1])
  }

  lemma EditKeepsItems(o: Order, e: Edit)
    requires Refusal(o, e).None?
    ensures var w := Edited(o, e); w.id == o.id && w.items == o.items && w.totalAmount == o.totalAmount
  {
  }

  lemma EditReadsBack(db: Tables, id: Uuid, e: Edit)
    requires id in db.orders && Refusal(Read(db, id).value, e).None?
    ensures Read(Written(db, Edited(Read(db, id).value, e)), id) == Some(Edited(Read(db, id).value, e))
  {
    ReadIsNormal(db, id);
    EditKeepsItems(Read(db, id).value, e);
    ReadAfterWrite(db, Edited(Read(db, id).value, e));
  }

  lemma ReadAfterCall(db: Tables, id: Uuid, c: Call)
    requires id in db.orders
    ensures Read(CallOn(db, id, c), id) == Some(Step(Read(db, id).value, c))
    ensures ReadItems(CallOn(db, id, c), id) == ReadItems(db, id)
  {
    ReadIsNormal(db, id);
    var o := Read(db, id).value;
    if Accepts(o, c) {
      var w := Edited(o, c.edit);
      EditKeepsItems(o, c.edit);
      ReadAfterWrite(db, w);
      WrittenKeepsItems(db, w, id);
    }
  }

  /** What the rows hold after any calls is what the edits do to the order first read: no column is forgotten. */
  lemma {:induction false} StoreRunsTheLifecycle(db: Tables, id: Uuid, calls: seq<Call>)
    requires id in db.orders
    ensures Read(CallsOn(db, id, calls), id) == Some(Run(Read(db, id).value, calls))
  {
    if calls != [] {
      var init := calls[..|calls| - 1];
      StoreRunsTheLifecycle(db, id, init);
      ReadAfterCall(CallsOn(db, id, init), id, calls[|calls| - 1]);
    }
  }

  /** Every Get of an order returns the same total and the same items, whatever was done to it in between. */
  lemma TotalNeverDrifts(db: Tables, id: Uuid, calls: seq<Call>)
    requires id in db.orders && db.orders[id].createdAt != 0
    ensures SameOrder(Read(db, id).value, Read(CallsOn(db, id, calls), id).value)
  {
    StoreRunsTheLifecycle(db, id, calls);
    RunKeepsOrder(Read(db, id).value, calls);
  }
}
