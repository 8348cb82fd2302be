/** What a request asks for is what is created, stored, announced and shown: field by field, from one end to the other. */
module Asked {
  import opened Sums
  import opened Money
  import opened Orders
  import opened Lifecycle
  import opened Queries
  import opened DbTables
  import opened Inserts
  import opened Store
  import opened Services
  import opened Responses
  import opened Answers

  // ---------------------------------------------------------------- creation

  function RequestLine(i: CreateItem): Decimal {
    Line(i.unitPrice, i.quantity)
  }

  function OrUsd(currency: string): string {
    if currency == "" then "USD" else currency
  }

  /** Item k as the request asks for it. */
  predicate ItemAsked(o: OrderItem, i: CreateItem, itemId: Uuid, id: Uuid) {
    o.id == itemId && o.orderId == id && o.productId == i.productId && o.productName == i.productName
    && o.quantity == i.quantity && o.unitPrice == i.unitPrice && o.subtotal == RequestLine(i)
  }

  /** The order says what the request asks for, and nothing has happened to it yet. */
  predicate OrderAsked(o: Order, r: CreateRequest, id: Uuid, itemIds: seq<Uuid>, now: Time, persist: Time)
    requires |itemIds| == |r.items|
  {
    o.id == id && o.customerId == r.customerId && o.status == Pending && o.currency == OrUsd(r.currency)
    && o.shippingAddress == r.shippingAddress && o.totalAmount == Sum(RequestLine, r.items)
    && o.trackingNumber == None && o.carrier == None && o.createdAt == now && o.updatedAt == persist
    && o.paidAt == None && o.shippedAt == None && o.completedAt == None && o.cancelledAt == None
    && o.cancellationReason == None && |o.items| == |r.items|
    && forall k :: 0 <= k < |r.items| ==> ItemAsked(o.items[k], r.items[k], itemIds[k], id)
  }

  lemma ItemAsAsked(r: CreateRequest, id: Uuid, itemIds: seq<Uuid>, now: Instant, persist: Instant, k: nat)
    requires |itemIds| == |r.items| && id != 0 && 0 !in itemIds && k < |r.items|
    ensures var o := CreatedOrder(r, id, itemIds, now, persist);
            |o.items| == |r.items| && ItemAsked(o.items[k], r.items[k], itemIds[k], id)
  {
    assert itemIds[k] in itemIds;
  }

  /** The order CreateOrder returns is the one asked for. */
  lemma CreatedAsAsked(r: CreateRequest, id: Uuid, itemIds: seq<Uuid>, now: Instant, persist: Instant)
    requires |itemIds| == |r.items| && id != 0 && 0 !in itemIds
    ensures OrderAsked(CreatedOrder(r, id, itemIds, now, persist), r, id, itemIds, now, persist)
  {
    var o := CreatedOrder(r, id, itemIds, now, persist);
    forall k | 0 <= k < |r.items|
      ensures ItemAsked(o.items[k], r.items[k], itemIds[k], id)
    {
      ItemAsAsked(r, id, itemIds, now, persist, k);
    }
    TotalAsAsked(r, id, itemIds, now);
  }

  lemma TotalAsAsked(r: CreateRequest, id: Uuid, itemIds: seq<Uuid>, now: Instant)
    requires |itemIds| == |r.items|
    ensures Placed(r, id, itemIds, now).totalAmount == Sum(RequestLine, r.items)
  {
    var wanted := RequestedItems(itemIds, r.items);
    FinalRoundingIsIdentity(wanted);
    LinesAsAsked(wanted, r.items);
  }

  lemma LineAsAsked(a: OrderItem, b: CreateItem)
    requires a.unitPrice == b.unitPrice && a.quantity == b.quantity
    ensures ItemLine(a) == RequestLine(b)
  {
  }

  lemma {:induction false} LinesAsAsked(a: seq<OrderItem>, b: seq<CreateItem>)
    requires |a| == |b|
    requires forall k :: 0 <= k < |a| ==> a[k].unitPrice == b[k].unitPrice && a[k].quantity == b[k].quantity
    ensures Sum(ItemLine, a) == Sum(RequestLine, b)
  {
    if a != [] {
      LinesAsAsked(a[..|a| - 1], b[..|b| - 1]);
      LineAsAsked(a[|a| - 1], b[|b| - 1]);
    }
  }

  /** The columns of an address, all NULL when there is none. */
  predicate AddressColumns(row: OrderRow, address: Option<ShippingAddress>) {
    match address
    case None => row.street == None && row.city == None && row.state == None && row.postalCode == None && row.country == None
    case Some(a) =>
      row.street == Some(a.street) && row.city == Some(a.city) && row.state == Some(a.state)
      && row.postalCode == Some(a.postalCode) && row.country == Some(a.country)
  }

  /** What no later call changes in the row of an order. */
  predicate RowAsCreated(row: OrderRow, r: CreateRequest, now: Time) {
    row.customerId == r.customerId && row.currency == OrUsd(r.currency) && AddressColumns(row, r.shippingAddress)
    && row.createdAt == now
  }

  /** The row of item k of a request: its price to the cent, its total from the price as given. */
  predicate ItemRowAsAsked(row: ItemRow, id: Uuid, i: CreateItem) {
    row.orderId == id && row.productId == i.productId && row.productName == i.productName && row.quantity == i.quantity
    && row.unitPrice == Round2(i.unitPrice) && row.totalPrice == RequestLine(i)
  }

  /** One order row and one item row for each line asked for, and every other row as it was. */
  ghost predicate RowsAsked(db: Tables, t: Tables, r: CreateRequest, id: Uuid, itemIds: seq<Uuid>, now: Time, persist: Time)
    requires |itemIds| == |r.items|
  {
    t.orders.Keys == db.orders.Keys + {id} && (forall x :: x in db.orders && x != id ==> t.orders[x] == db.orders[x])
    && RowAsCreated(t.orders[id], r, now) && t.orders[id].status == Pending && t.orders[id].updatedAt == persist
    && t.orders[id].totalAmount == Sum(RequestLine, r.items)
    && (forall k :: 0 <= k < |r.items| ==> itemIds[k] in t.items && ItemRowAsAsked(t.items[itemIds[k]], id, r.items[k]))
    && (forall x :: x in t.items <==> x in db.items || x in itemIds)
    && forall x :: x in db.items ==> x in t.items && t.items[x] == db.items[x]
  }

  lemma RowAsAsked(o: Order, r: CreateRequest, id: Uuid, itemIds: seq<Uuid>, now: Instant, persist: Instant)
    requires |itemIds| == |r.items| && OrderAsked(o, r, id, itemIds, now, persist)
    ensures RowAsCreated(RowOf(o), r, now) && RowOf(o).status == Pending && RowOf(o).updatedAt == persist
    ensures RowOf(o).totalAmount == Sum(RequestLine, r.items)
  {
    FinalTotalIsCents(r, id, itemIds, now);
  }

  lemma ItemRowIsAsked(o: OrderItem, i: CreateItem, itemId: Uuid, id: Uuid)
    requires ItemAsked(o, i, itemId, id)
    ensures ItemRowAsAsked(ItemRowOf(id, o), id, i)
  {
    LineIsCents(i);
  }

  lemma ItemRowsAsAsked(db: Tables, o: Order, r: CreateRequest, id: Uuid, itemIds: seq<Uuid>, now: Instant, persist: Instant,
                        fault: Fault, k: nat)
    requires |itemIds| == |r.items| && OrderAsked(o, r, id, itemIds, now, persist) && Insertable(db, o, fault) && k < |r.items|
    ensures itemIds[k] in Inserted(db, o).items && ItemRowAsAsked(Inserted(db, o).items[itemIds[k]], id, r.items[k])
  {
    InsertedRows(db, o, fault);
    assert ItemAsked(o.items[k], r.items[k], itemIds[k], id);
    ItemRowIsAsked(o.items[k], r.items[k], itemIds[k], id);
    assert Inserted(db, o).items[o.items[k].id] == ItemRowOf(o.id, o.items[k]);
  }

  lemma ItemKeysAsAsked(db: Tables, o: Order, r: CreateRequest, id: Uuid, itemIds: seq<Uuid>, now: Instant, persist: Instant,
                        fault: Fault)
    requires |itemIds| == |r.items| && OrderAsked(o, r, id, itemIds, now, persist) && Insertable(db, o, fault)
    ensures forall x :: x in Inserted(db, o).items <==> x in db.items || x in itemIds
  {
    InsertedRows(db, o, fault);
    forall x
      ensures x in itemIds <==> exists i :: 0 <= i < |o.items| && o.items[i].id == x
    {
      if x in itemIds {
        var k :| 0 <= k < |itemIds| && itemIds[k] == x;
        assert ItemAsked(o.items[k], r.items[k], itemIds[k], id);
      }
      if i :| 0 <= i < |o.items| && o.items[i].id == x {
        assert ItemAsked(o.items[i], r.items[i], itemIds[i], id);
      }
    }
  }

  /** A committed creation leaves the rows asked for. */
  lemma RowsAsAsked(db: Tables, r: CreateRequest, id: Uuid, itemIds: seq<Uuid>, now: Instant, persist: Instant, fault: Fault)
    requires |itemIds| == |r.items| && id != 0 && 0 !in itemIds
    requires Insertable(db, CreatedOrder(r, id, itemIds, now, persist), fault)
    ensures RowsAsked(db, Inserted(db, CreatedOrder(r, id, itemIds, now, persist)), r, id, itemIds, now, persist)
  {
    CreatedAsAsked(r, id, itemIds, now, persist);
    RowsOfOrder(db, CreatedOrder(r, id, itemIds, now, persist), r, id, itemIds, now, persist, fault);
  }

  lemma RowsOfOrder(db: Tables, o: Order, r: CreateRequest, id: Uuid, itemIds: seq<Uuid>, now: Instant, persist: Instant,
                    fault: Fault)
    requires |itemIds| == |r.items| && OrderAsked(o, r, id, itemIds, now, persist) && Insertable(db, o, fault)
    ensures RowsAsked(db, Inserted(db, o), r, id, itemIds, now, persist)
  {
    RowAsAsked(o, r, id, itemIds, now, persist);
    forall k | 0 <= k < |r.items|
      ensures itemIds[k] in Inserted(db, o).items && ItemRowAsAsked(Inserted(db, o).items[itemIds[k]], id, r.items[k])
    {
      ItemRowsAsAsked(db, o, r, id, itemIds, now, persist, fault, k);
    }
    ItemKeysAsAsked(db, o, r, id, itemIds, now, persist, fault);
    InsertedRows(db, o, fault);
  }

  lemma LineIsCents(i: CreateItem)
    ensures Round2(RequestLine(i)) == RequestLine(i)
  {
    LineCharacterised(i.unitPrice, i.quantity, RequestLine(i));
    RoundFixesExactly(RequestLine(i));
  }

  lemma FinalTotalIsCents(r: CreateRequest, id: Uuid, itemIds: seq<Uuid>, now: Instant)
    requires |itemIds| == |r.items|
    ensures CentExact(Sum(RequestLine, r.items)) && Round2(Sum(RequestLine, r.items)) == Sum(RequestLine, r.items)
  {
    TotalAsAsked(r, id, itemIds, now);
    FinalRoundingIsIdentity(RequestedItems(itemIds, r.items));
    RoundFixesExactly(Sum(RequestLine, r.items));
  }

  /** The created event carries the request: line by line, at the prices asked for. */
  lemma CreatedEventAsAsked(r: CreateRequest, id: Uuid, itemIds: seq<Uuid>, now: Instant, persist: Instant)
    requires |itemIds| == |r.items| && id != 0 && 0 !in itemIds
    ensures var e := CreatedEvent(CreatedOrder(r, id, itemIds, now, persist));
            e.OrderCreatedEvent? && e.orderId == id && e.customerId == r.customerId && e.currency == OrUsd(r.currency)
            && e.address == r.shippingAddress && e.totalAmount == Sum(RequestLine, r.items) && |e.items| == |r.items|
            && forall k :: 0 <= k < |r.items| ==>
                             e.items[k].productId == r.items[k].productId && e.items[k].productName == r.items[k].productName
                             && e.items[k].quantity == r.items[k].quantity && e.items[k].unitPrice == r.items[k].unitPrice
  {
    CreatedAsAsked(r, id, itemIds, now, persist);
    var o := CreatedOrder(r, id, itemIds, now, persist);
    assert forall k :: 0 <= k < |r.items| ==> ItemAsked(o.items[k], r.items[k], itemIds[k], id);
  }

  /** What Get returns has each column of the order's row, and of each of its item rows, in the field of the same name. */
  lemma ReadAsStored(db: Tables, id: Uuid)
    requires id in db.orders
    ensures var o, row := Read(db, id).value, db.orders[id];
            o.id == id && o.customerId == row.customerId && o.status == row.status && o.currency == row.currency
            && o.trackingNumber == row.trackingNumber && o.carrier == row.carrier && o.createdAt == row.createdAt
            && o.updatedAt == row.updatedAt && o.paidAt == row.paidAt && o.shippedAt == row.shippedAt
            && o.completedAt == row.completedAt && o.cancelledAt == row.cancelledAt
            && o.cancellationReason == row.cancellationReason
            && (o.shippingAddress.None? <==> AddressColumns(row, None))
            && (forall a :: AddressColumns(row, Some(a)) ==> o.shippingAddress == Some(a))
            && (forall i :: 0 <= i < |o.items| ==>
                              var k := o.items[i].id;
                              k in db.items && db.items[k].orderId == id == o.items[i].orderId
                              && o.items[i].productId == db.items[k].productId && o.items[i].productName == db.items[k].productName
                              && o.items[i].quantity == db.items[k].quantity && o.items[i].unitPrice == db.items[k].unitPrice)
            && forall k :: k in db.items && db.items[k].orderId == id ==> exists i :: 0 <= i < |o.items| && o.items[i].id == k
  {
    ReadIsNormal(db, id);
    var ids, o := ItemQuery(db, {id}), Read(db, id).value;
    forall i | 0 <= i < |o.items|
      ensures var k := o.items[i].id;
              k in db.items && db.items[k].orderId == id == o.items[i].orderId
              && o.items[i].productId == db.items[k].productId && o.items[i].productName == db.items[k].productName
              && o.items[i].quantity == db.items[k].quantity && o.items[i].unitPrice == db.items[k].unitPrice
    {
      assert ids[i] in ids && o.items[i] == ScanItem(ids[i], db.items[ids[i]]);
    }
    forall k | k in db.items && db.items[k].orderId == id
      ensures exists i :: 0 <= i < |o.items| && o.items[i].id == k
    {
      assert k in ids;
      var i :| 0 <= i < |ids| && ids[i] == k;
      assert o.items[i] == ScanItem(ids[i], db.items[ids[i]]);
    }
  }

  // ---------------------------------------------------------------- exactly what is created

  predicate AddressFits(address: Option<ShippingAddress>) {
    address.Some? ==>
      var a := address.value;
      |a.street| <= 255 && |a.city| <= 255 && |a.state| <= 255 && |a.postalCode| <= 255 && |a.country| <= 255
  }

  predicate LineFits(i: CreateItem) {
    |i.productId| <= 255 && |i.productName| <= 255 && -2_147_483_648 <= i.quantity <= 2_147_483_647
    && TotalHasTenDigits(Round2(i.unitPrice)) && TotalHasTenDigits(RequestLine(i))
  }

  /** Texts of at most 255 characters, a currency of at most 3, amounts of at most ten digits, quantities of 32 bits. */
  predicate RequestFits(r: CreateRequest) {
    |r.customerId| <= 255 && |r.currency| <= 3 && AddressFits(r.shippingAddress) && TotalHasTenDigits(Sum(RequestLine, r.items))
    && forall k :: 0 <= k < |r.items| ==> LineFits(r.items[k])
  }

  /** Neither the order's id nor an item's is taken, nor two items' the same. */
  predicate IdsAreNew(db: Tables, id: Uuid, itemIds: seq<Uuid>) {
    id !in db.orders && (forall k :: 0 <= k < |itemIds| ==> itemIds[k] !in db.items)
    && forall j, k :: 0 <= j < k < |itemIds| ==> itemIds[j] != itemIds[k]
  }

  lemma OrderRowFits(r: CreateRequest, id: Uuid, itemIds: seq<Uuid>, now: Instant, persist: Instant)
    requires |itemIds| == |r.items| && id != 0 && 0 !in itemIds
    ensures OrderFits(RowOf(CreatedOrder(r, id, itemIds, now, persist))) <==>
            |r.customerId| <= 255 && |r.currency| <= 3 && AddressFits(r.shippingAddress)
            && TotalHasTenDigits(Sum(RequestLine, r.items))
  {
    CreatedAsAsked(r, id, itemIds, now, persist);
    FinalTotalIsCents(r, id, itemIds, now);
    NumericHasTenDigits(Sum(RequestLine, r.items));
  }

  lemma ItemRowFits(r: CreateRequest, id: Uuid, itemIds: seq<Uuid>, now: Instant, persist: Instant, k: nat)
    requires |itemIds| == |r.items| && id != 0 && 0 !in itemIds && k < |r.items|
    ensures |CreatedOrder(r, id, itemIds, now, persist).items| == |r.items|
    ensures ItemFits(ItemRowOf(id, CreatedOrder(r, id, itemIds, now, persist).items[k])) <==> LineFits(r.items[k])
  {
    ItemAsAsked(r, id, itemIds, now, persist, k);
    LineIsCents(r.items[k]);
    RoundFixesExactly(r.items[k].unitPrice);
    RoundFixesExactly(RequestLine(r.items[k]));
    NumericHasTenDigits(Round2(r.items[k].unitPrice));
    NumericHasTenDigits(RequestLine(r.items[k]));
  }

  lemma ItemInsertsExactly(db: Tables, o: Order, r: CreateRequest, id: Uuid, itemIds: seq<Uuid>, now: Instant, persist: Instant,
                           fault: Fault, k: nat)
    requires |itemIds| == |r.items| && OrderAsked(o, r, id, itemIds, now, persist) && k < |r.items|
    requires ItemFits(ItemRowOf(id, o.items[k])) <==> LineFits(r.items[k])
    ensures ItemInserts(db, o, k, fault) <==>
            fault != AtStatement(k + 1) && itemIds[k] !in db.items && LineFits(r.items[k])
            && forall j :: 0 <= j < k ==> itemIds[j] != itemIds[k]
  {
    assert forall j :: 0 <= j <= k ==> ItemAsked(o.items[j], r.items[j], itemIds[j], id);
  }

  /** A creation commits if and only if the database takes all its statements, the ids are new and everything fits its column. */
  lemma InsertableExactly(db: Tables, r: CreateRequest, id: Uuid, itemIds: seq<Uuid>, now: Instant, persist: Instant, fault: Fault)
    requires |itemIds| == |r.items| && id != 0 && 0 !in itemIds
    ensures Insertable(db, CreatedOrder(r, id, itemIds, now, persist), fault) <==>
            (fault == NoFault || (fault.AtStatement? && fault.n > |r.items|)) && IdsAreNew(db, id, itemIds) && RequestFits(r)
  {
    var o := CreatedOrder(r, id, itemIds, now, persist);
    CreatedAsAsked(r, id, itemIds, now, persist);
    OrderRowFits(r, id, itemIds, now, persist);
    forall k | 0 <= k < |r.items|
      ensures ItemFits(ItemRowOf(id, o.items[k])) <==> LineFits(r.items[k])
    {
      ItemRowFits(r, id, itemIds, now, persist, k);
    }
    InsertableOrder(db, o, r, id, itemIds, now, persist, fault);
  }

  lemma InsertableOrder(db: Tables, o: Order, r: CreateRequest, id: Uuid, itemIds: seq<Uuid>, now: Instant, persist: Instant,
                        fault: Fault)
    requires |itemIds| == |r.items| && OrderAsked(o, r, id, itemIds, now, persist)
    requires OrderFits(RowOf(o)) <==> |r.customerId| <= 255 && |r.currency| <= 3 && AddressFits(r.shippingAddress)
                                      && TotalHasTenDigits(Sum(RequestLine, r.items))
    requires forall k :: 0 <= k < |r.items| ==> (ItemFits(ItemRowOf(id, o.items[k])) <==> LineFits(r.items[k]))
    ensures Insertable(db, o, fault) <==>
            (fault == NoFault || (fault.AtStatement? && fault.n > |r.items|)) && IdsAreNew(db, id, itemIds) && RequestFits(r)
  {
    forall k | 0 <= k < |r.items|
      ensures ItemInserts(db, o, k, fault) <==>
              ItemPasses(fault, k) && itemIds[k] !in db.items && LineFits(r.items[k])
              && forall j :: 0 <= j < k ==> itemIds[j] != itemIds[k]
    {
      ItemInsertsExactly(db, o, r, id, itemIds, now, persist, fault, k);
    }
    EveryStatement(fault, |r.items|);
    assert Insertable(db, o, fault) ==> forall k :: 0 <= k < |r.items| ==> ItemInserts(db, o, k, fault);
  }

  /** The database takes the row of item k. */
  predicate ItemPasses(fault: Fault, k: nat) {
    fault != AtStatement(k + 1)
  }

  /** A fault that is not met by the order row, by any of n item rows or by the commit. */
  lemma EveryStatement(fault: Fault, n: nat)
    ensures (fault == NoFault || (fault.AtStatement? && fault.n > n)) <==>
            fault != AtBegin && fault != AtStatement(0) && fault != AtCommit && forall k :: 0 <= k < n ==> ItemPasses(fault, k)
  {
    if fault.AtStatement? && 0 < fault.n <= n {
      assert !ItemPasses(fault, fault.n - 1);
    }
  }
}
