/** Creating an order in one transaction, and what is read back of it (PostgresStore.Create). */
module Inserts {
  import opened Sums
  import opened Money
  import opened Orders
  import opened Lifecycle
  import opened Queries
  import opened DbTables

  function PreparedItem(orderId: Uuid, i: OrderItem, newId: Uuid): OrderItem {
    Subtotaled(i.(id := if i.id == 0 then newId else i.id, orderId := orderId))
  }

  /** The order as Create fills it in; newId and newItemIds are what uuid.New() returns where an id is missing. */
  function Prepared(o: Order, persist: Instant, newId: Uuid, newItemIds: seq<Uuid>): Order
    requires |newItemIds| == |o.items|
  {
    var id := if o.id == 0 then newId else o.id;
    Stamped(o, persist).(
      id := id,
      items := seq(|o.items|, i requires 0 <= i < |o.items| => PreparedItem(id, o.items[i], newItemIds[i])))
  }

  /** The transaction after the order row and the first n item rows. */
  function Staged(db: Tables, p: Order, n: nat): Tables
    requires n <= |p.items|
  {
    if n == 0 then Written(db, p)
    else
      var t := Staged(db, p, n - 1);
      t.(items := t.items[p.items[n - 1].id := ItemRowOf(p.id, p.items[n - 1])])
  }

  function Inserted(db: Tables, p: Order): Tables {
    Staged(db, p, |p.items|)
  }

  ghost predicate OrderInserts(db: Tables, p: Order, fault: Fault) {
    fault != AtBegin && fault != AtStatement(0) && p.id !in db.orders && OrderFits(RowOf(p))
  }

  ghost predicate ItemInserts(db: Tables, p: Order, i: nat, fault: Fault)
    requires i < |p.items|
  {
    fault != AtStatement(i + 1) && p.items[i].id !in db.items && ItemFits(ItemRowOf(p.id, p.items[i]))
    && forall k :: 0 <= k < i ==> p.items[k].id != p.items[i].id
  }

  /** Exactly when the transaction commits. */
  ghost predicate Insertable(db: Tables, p: Order, fault: Fault) {
    OrderInserts(db, p, fault) && fault != AtCommit && forall i :: 0 <= i < |p.items| ==> ItemInserts(db, p, i, fault)
  }

  lemma {:induction false} StagedKeys(db: Tables, p: Order, n: nat)
    requires n <= |p.items|
    ensures Staged(db, p, n).orders == db.orders[p.id := RowOf(p)]
    ensures forall k :: k in Staged(db, p, n).items <==> k in db.items || exists i :: 0 <= i < n && p.items[i].id == k
  {
    if n > 0 {
      StagedKeys(db, p, n - 1);
    }
  }

  lemma {:induction false} StagedRows(db: Tables, p: Order, n: nat)
    requires n <= |p.items|
    requires forall i, j :: 0 <= i < j < n ==> p.items[i].id != p.items[j].id
    ensures forall i :: 0 <= i < n ==> p.items[i].id in Staged(db, p, n).items
                                       && Staged(db, p, n).items[p.items[i].id] == ItemRowOf(p.id, p.items[i])
    ensures forall k :: k in db.items && (forall i :: 0 <= i < n ==> p.items[i].id != k) ==>
                          k in Staged(db, p, n).items && Staged(db, p, n).items[k] == db.items[k]
  {
    if n > 0 {
      StagedRows(db, p, n - 1);
    }
  }

  lemma InsertableIsDistinct(db: Tables, p: Order, fault: Fault)
    requires Insertable(db, p, fault)
    ensures forall i, j :: 0 <= i < j < |p.items| ==> p.items[i].id != p.items[j].id
  {
    forall i, j | 0 <= i < j < |p.items|
      ensures p.items[i].id != p.items[j].id
    {
      assert ItemInserts(db, p, j, fault);
    }
  }

  /** The committed rows are the old ones, one for the order, and one for each item, pointing at the order. */
  lemma InsertedRows(db: Tables, p: Order, fault: Fault)
    requires Insertable(db, p, fault)
    ensures Inserted(db, p).orders == db.orders[p.id := RowOf(p)]
    ensures forall k :: k in Inserted(db, p).items <==> k in db.items || exists i :: 0 <= i < |p.items| && p.items[i].id == k
    ensures forall i :: 0 <= i < |p.items| ==>
                          p.items[i].id in Inserted(db, p).items
                          && Inserted(db, p).items[p.items[i].id] == ItemRowOf(p.id, p.items[i])
    ensures forall k :: k in db.items ==> k in Inserted(db, p).items && Inserted(db, p).items[k] == db.items[k]
  {
    InsertableIsDistinct(db, p, fault);
    StagedKeys(db, p, |p.items|);
    StagedRows(db, p, |p.items|);
    forall k | k in db.items
      ensures forall i :: 0 <= i < |p.items| ==> p.items[i].id != k
    {
      forall i | 0 <= i < |p.items|
        ensures p.items[i].id != k
      {
        assert ItemInserts(db, p, i, fault);
      }
    }
  }

  lemma InsertKeepsForeignKey(db: Tables, p: Order, fault: Fault)
    requires ForeignKey(db) && Insertable(db, p, fault)
    ensures ForeignKey(Inserted(db, p))
  {
    InsertedRows(db, p, fault);
    var t := Inserted(db, p);
    forall k | k in t.items
      ensures t.items[k].orderId in t.orders
    {
      if k !in db.items {
        var i :| 0 <= i < |p.items| && p.items[i].id == k;
        assert t.items[k] == ItemRowOf(p.id, p.items[i]);
      }
    }
  }

  // ---------------------------------------------------------------- reading back

  function ItemIds(items: seq<OrderItem>): seq<Uuid> {
    seq(|items|, i requires 0 <= i < |items| => items[i].id)
  }

  /** An item as its row gives it back. */
  function StoredItem(orderId: Uuid, i: OrderItem): OrderItem {
    ScanItem(i.id, ItemRowOf(orderId, i))
  }

  function StoredItems(p: Order): seq<OrderItem> {
    seq(|p.items|, i requires 0 <= i < |p.items| => StoredItem(p.id, p.items[i]))
  }

  /** The rows read back are those of the items given, in another order. */
  lemma ItemIdsReadBack(db: Tables, p: Order, fault: Fault)
    requires ForeignKey(db) && Insertable(db, p, fault)
    ensures multiset(ItemQuery(Inserted(db, p), {p.id})) == multiset(ItemIds(p.items))
  {
    InsertableIsDistinct(db, p, fault);
    var ids, scan := ItemIds(p.items), ItemQuery(Inserted(db, p), {p.id});
    forall k
      ensures k in scan <==> k in ids
    {
      ScannedItem(db, p, fault, k);
    }
    SortedIsDistinct(Unordered, scan);
    DistinctPermutation(scan, ids);
  }

  lemma ScannedItem(db: Tables, p: Order, fault: Fault, k: Uuid)
    requires ForeignKey(db) && Insertable(db, p, fault)
    ensures k in ItemQuery(Inserted(db, p), {p.id}) <==> k in ItemIds(p.items)
  {
    InsertedRows(db, p, fault);
    var t, ids := Inserted(db, p), ItemIds(p.items);
    if k in t.items && t.items[k].orderId == p.id {
      assert k !in db.items;
      var i :| 0 <= i < |p.items| && p.items[i].id == k;
      assert ids[i] == k;
    }
    if k in ids {
      var i :| 0 <= i < |ids| && ids[i] == k;
      assert t.items[p.items[i].id] == ItemRowOf(p.id, p.items[i]);
    }
  }

  function RowItem(t: Tables, k: Uuid): OrderItem {
    if k in t.items then ScanItem(k, t.items[k]) else OrderItem(0, 0, "", "", 0, 0.0, 0.0)
  }

  lemma ItemsReadBack(db: Tables, p: Order, fault: Fault)
    requires ForeignKey(db) && Insertable(db, p, fault)
    ensures multiset(ReadItems(Inserted(db, p), p.id)) == multiset(StoredItems(p))
  {
    InsertedRows(db, p, fault);
    ItemIdsReadBack(db, p, fault);
    var t := Inserted(db, p);
    MapPermuted(k => RowItem(t, k), ItemQuery(t, {p.id}), ItemIds(p.items), ReadItems(t, p.id), StoredItems(p));
  }

  /** What Get returns after Create: the order with its stored items, reordered by id, and their total. */
  lemma ReadBack(db: Tables, p: Order, fault: Fault)
    requires ForeignKey(db) && Insertable(db, p, fault)
    ensures Read(Inserted(db, p), p.id).Some?
    ensures var r := Read(Inserted(db, p), p.id).value;
            multiset(r.items) == multiset(StoredItems(p)) && r.totalAmount == Total(StoredItems(p))
            && r == p.(items := r.items, totalAmount := r.totalAmount)
  {
    var t := Inserted(db, p);
    assert t.orders == db.orders[p.id := RowOf(p)] by {
      InsertedRows(db, p, fault);
    }
    ItemsReadBack(db, p, fault);
    RowRoundTrip(p);
    TotalIgnoresOrder(ReadItems(t, p.id), StoredItems(p));
    ReadIsNormal(t, p.id);
  }

  lemma InsertLeavesOtherRows(db: Tables, p: Order, fault: Fault, id: Uuid)
    requires ForeignKey(db) && Insertable(db, p, fault) && id != p.id
    ensures ItemQuery(Inserted(db, p), {id}) == ItemQuery(db, {id})
    ensures forall k :: k in ItemQuery(db, {id}) ==> k in Inserted(db, p).items && Inserted(db, p).items[k] == db.items[k]
  {
    InsertedRows(db, p, fault);
    var t := Inserted(db, p);
    forall k
      ensures k in ItemQuery(t, {id}) <==> k in ItemQuery(db, {id})
    {
      if k in t.items && k !in db.items {
        var i :| 0 <= i < |p.items| && p.items[i].id == k;
        assert t.items[k] == ItemRowOf(p.id, p.items[i]);
      }
    }
    SortedIsUnique(Unordered, ItemQuery(t, {id}), ItemQuery(db, {id}));
  }

  /** No other order reads differently. */
  lemma InsertLeavesOthers(db: Tables, p: Order, fault: Fault, id: Uuid)
    requires ForeignKey(db) && Insertable(db, p, fault) && id != p.id
    ensures Read(Inserted(db, p), id) == Read(db, id)
  {
    InsertLeavesOtherRows(db, p, fault, id);
    assert Inserted(db, p).orders == db.orders[p.id := RowOf(p)] by {
      InsertedRows(db, p, fault);
    }
    assert ReadItems(Inserted(db, p), id) == ReadItems(db, id);
  }

  lemma ReadsAfterInsert(db: Tables, p: Order, fault: Fault)
    requires ForeignKey(db) && Insertable(db, p, fault)
    ensures Read(Inserted(db, p), p.id).Some?
    ensures Reads(Inserted(db, p)) == Reads(db)[p.id := Read(Inserted(db, p), p.id).value]
  {
    assert Inserted(db, p).orders == db.orders[p.id := RowOf(p)] by {
      InsertedRows(db, p, fault);
    }
    forall id | id in db.orders && id != p.id
      ensures Read(Inserted(db, p), id) == Read(db, id)
    {
      InsertLeavesOthers(db, p, fault, id);
    }
    OneReadChanges(db, Inserted(db, p), p.id, Read(Inserted(db, p), p.id).value);
  }

  // ---------------------------------------------------------------- how far the read total may be off

  function HalfQuantity(i: OrderItem): Decimal {
    (i.quantity / 2) as real / 100.0
  }

  function StoredLine(i: OrderItem): Decimal {
    Line(Round2(i.unitPrice), i.quantity)
  }

  ghost predicate Priced(items: seq<OrderItem>) {
    forall i :: i in items ==> 0 < i.quantity && 0.0 <= i.unitPrice
  }

  lemma StoredTotal(p: Order)
    ensures Total(StoredItems(p)) == Sum(StoredLine, p.items)
  {
    FinalRoundingIsIdentity(StoredItems(p));
    SumMapped(ItemLine, i => StoredItem(p.id, i), StoredLine, p.items, StoredItems(p));
  }

  /**
   The total read back is off by at most half the quantity of each line, in whole cents,
   and not at all when every price is whole cents.
   */
  lemma ReadBackTotalClose(p: Order)
    requires Priced(p.items)
    ensures -Sum(HalfQuantity, p.items) <= Total(StoredItems(p)) - Total(p.items) <= Sum(HalfQuantity, p.items)
  {
    StoredTotal(p);
    FinalRoundingIsIdentity(p.items);
    forall i | i in p.items
      ensures -HalfQuantity(i) <= StoredLine(i) - ItemLine(i) <= HalfQuantity(i)
    {
      StoredLineClose(i.unitPrice, i.quantity);
    }
    SumClose(StoredLine, ItemLine, HalfQuantity, p.items);
  }

  lemma ReadBackTotalExact(p: Order)
    requires CentPrices(p.items)
    ensures Total(StoredItems(p)) == Total(p.items)
  {
    StoredTotal(p);
    FinalRoundingIsIdentity(p.items);
    forall i | i in p.items
      ensures StoredLine(i) == ItemLine(i)
    {
      RoundFixesExactly(i.unitPrice);
    }
    SumSame(StoredLine, ItemLine, p.items);
  }

  /** The bound is the best possible: for all quantities there are prices that reach it. */
  lemma ReadBackBoundIsReached(p: Order)
    requires forall i :: i in p.items ==> 0 < i.quantity && i.unitPrice == 0.005
    ensures Total(StoredItems(p)) - Total(p.items) == Sum(HalfQuantity, p.items)
  {
    StoredTotal(p);
    FinalRoundingIsIdentity(p.items);
    forall i | i in p.items
      ensures StoredLine(i) == ItemLine(i) + HalfQuantity(i)
    {
      StoredLineWorstCase(i.quantity);
    }
    SumSplit(StoredLine, ItemLine, HalfQuantity, p.items);
  }

  // ---------------------------------------------------------------- total_amount against the total_price column

  function PriceColumn(db: Tables): Uuid -> Decimal {
    k => if k in db.items then db.items[k].totalPrice else 0.0
  }

  /** SUM(total_price) over the item rows of an order. */
  function PriceSum(db: Tables, id: Uuid): Decimal {
    Sum(PriceColumn(db), ItemQuery(db, {id}))
  }

  predicate ColumnsAgree(db: Tables, id: Uuid)
    requires id in db.orders
  {
    db.orders[id].totalAmount == PriceSum(db, id)
  }

  /** At creation total_amount is the sum of the total_price column, whatever the prices. */
  lemma ColumnsAgreeAtCreation(db: Tables, p: Order, fault: Fault)
    requires ForeignKey(db) && Insertable(db, p, fault)
    requires p.totalAmount == Total(p.items)
    requires forall i :: 0 <= i < |p.items| ==> p.items[i].subtotal == ItemLine(p.items[i])
    ensures p.id in Inserted(db, p).orders && ColumnsAgree(Inserted(db, p), p.id)
  {
    InsertedRows(db, p, fault);
    var t, ids := Inserted(db, p), ItemIds(p.items);
    ItemIdsReadBack(db, p, fault);
    SumPermuted(PriceColumn(t), ItemQuery(t, {p.id}), ids);
    AllInsertedPrices(p, t);
    TotalColumn(p.items);
  }

  lemma TotalColumn(items: seq<OrderItem>)
    ensures Round2(Total(items)) == Total(items) == Sum(ItemLine, items)
  {
    FinalRoundingIsIdentity(items);
    RoundFixesExactly(Total(items));
  }

  lemma AllInsertedPrices(p: Order, t: Tables)
    requires forall i :: 0 <= i < |p.items| ==> p.items[i].subtotal == ItemLine(p.items[i])
    requires forall i :: 0 <= i < |p.items| ==>
                           p.items[i].id in t.items && t.items[p.items[i].id] == ItemRowOf(p.id, p.items[i])
    ensures Sum(PriceColumn(t), ItemIds(p.items)) == Sum(ItemLine, p.items)
  {
    forall x | x in p.items
      ensures ItemLine(x) == PriceColumn(t)(x.id)
    {
      var i :| 0 <= i < |p.items| && p.items[i] == x;
      StoredLinePrice(x);
      assert t.items[x.id] == ItemRowOf(p.id, x);
    }
    SumMapped(PriceColumn(t), (i: OrderItem) => i.id, ItemLine, p.items, ItemIds(p.items));
  }

  lemma StoredLinePrice(i: OrderItem)
    ensures Round2(ItemLine(i)) == ItemLine(i)
  {
    RoundFixesExactly(ItemExact(i));
    RoundFixesExactly(ItemLine(i));
  }

  /** A write of what was read sets total_amount to the recomputed total and leaves the total_price column alone. */
  lemma CallOnColumns(db: Tables, id: Uuid, c: Call)
    requires id in db.orders
    ensures PriceSum(CallOn(db, id, c), id) == PriceSum(db, id)
    ensures CallOn(db, id, c).orders[id].totalAmount ==
            if Accepts(Read(db, id).value, c) then Read(db, id).value.totalAmount else db.orders[id].totalAmount
  {
    var o, t := Read(db, id).value, CallOn(db, id, c);
    SortedIsUnique(Unordered, ItemQuery(t, {id}), ItemQuery(db, {id}));
    SumSame(PriceColumn(t), PriceColumn(db), ItemQuery(db, {id}));
    if Accepts(o, c) {
      ReadIsNormal(db, id);
      EditKeepsItems(o, c.edit);
      TotalColumn(o.items);
    }
  }

  /**
   Over any calls the two columns keep agreeing exactly while nothing has been accepted or
   the total read agrees with total_amount to begin with.
   */
  lemma {:induction false} ColumnsAgreeIff(db: Tables, id: Uuid, calls: seq<Call>)
    requires id in db.orders && ColumnsAgree(db, id)
    ensures PriceSum(CallsOn(db, id, calls), id) == PriceSum(db, id)
    ensures CallsOn(db, id, calls).orders[id].totalAmount ==
            if AcceptedEdits(Read(db, id).value, calls) == [] then db.orders[id].totalAmount
            else Read(db, id).value.totalAmount
    ensures ColumnsAgree(CallsOn(db, id, calls), id) <==>
            AcceptedEdits(Read(db, id).value, calls) == [] || Read(db, id).value.totalAmount == db.orders[id].totalAmount
  {
    if calls != [] {
      var init := calls[..|calls| - 1];
      ColumnsAgreeIff(db, id, init);
      StoreRunsTheLifecycle(db, id, init);
      CallOnColumns(CallsOn(db, id, init), id, calls[|calls| - 1]);
      RunKeepsTotal(Read(db, id).value, init);
    }
  }

  lemma {:induction false} RunKeepsTotal(o: Order, calls: seq<Call>)
    ensures Run(o, calls).totalAmount == o.totalAmount && Run(o, calls).items == o.items && Run(o, calls).id == o.id
  {
    if calls != [] {
      RunKeepsTotal(o, calls[..|calls| - 1]);
    }
  }

  /**
   For every creation and every calls after it: total_amount is the sum of total_price if and only if no call was accepted
   or rounding the prices first, as storing them does, leaves the sum of the lines as it is.
   */
  lemma ColumnsAgreeExactly(db: Tables, p: Order, fault: Fault, calls: seq<Call>)
    requires ForeignKey(db) && Insertable(db, p, fault) && p.totalAmount == Total(p.items)
    requires forall i :: 0 <= i < |p.items| ==> p.items[i].subtotal == ItemLine(p.items[i])
    ensures p.id in Inserted(db, p).orders
    ensures ColumnsAgree(CallsOn(Inserted(db, p), p.id, calls), p.id) <==>
            AcceptedEdits(Read(Inserted(db, p), p.id).value, calls) == []
            || Sum(StoredLine, p.items) == Sum(ItemLine, p.items)
  {
    var t := Inserted(db, p);
    InsertedRows(db, p, fault);
    ColumnsAgreeAtCreation(db, p, fault);
    ReadBack(db, p, fault);
    StoredTotal(p);
    TotalColumn(p.items);
    ColumnsAgreeIff(t, p.id, calls);
  }

  /** Orders created with whole-cent prices keep total_amount == SUM(total_price) through every run. */
  lemma ColumnsAgreeOnCents(db: Tables, p: Order, fault: Fault, calls: seq<Call>)
    requires ForeignKey(db) && Insertable(db, p, fault)
    requires p.totalAmount == Total(p.items) && CentPrices(p.items)
    requires forall i :: 0 <= i < |p.items| ==> p.items[i].subtotal == ItemLine(p.items[i])
    ensures p.id in Inserted(db, p).orders
    ensures ColumnsAgree(CallsOn(Inserted(db, p), p.id, calls), p.id)
  {
    ColumnsAgreeExactly(db, p, fault, calls);
    StoredTotal(p);
    ReadBackTotalExact(p);
    TotalColumn(p.items);
  }
}
