/** The tables in every state that calls of the service lead to, with the database failing wherever it likes. */
module StoreRuns {
  import opened Sums
  import opened Money
  import opened Orders
  import opened Lifecycle
  import opened Queries
  import opened DbTables
  import opened Inserts
  import opened Store
  import opened Services
  import opened Responses

  datatype Request =
    | Creating(request: CreateRequest, id: Uuid, itemIds: seq<Uuid>, now: Instant, persist: Instant, fault: Fault)
    | Editing(id: Uuid, edit: Edit, readFails: bool, fault: Fault)
  {
    predicate GoodIds() {
      Creating? ==> |itemIds| == |request.items| && id != 0 && 0 !in itemIds
    }

    function Created(): Order
      requires Creating? && GoodIds()
    {
      CreatedOrder(request, id, itemIds, now, persist)
    }
  }

  /** What CreateOrder, UpdateOrderStatus and CancelOrder leave in the tables. */
  ghost function Served(db: Tables, q: Request): Tables
    requires q.GoodIds()
  {
    if q.Editing? then TablesAfterEdit(db, q.id, q.edit, q.readFails, q.fault)
    else if ValidRequest(q.request) && Insertable(db, q.Created(), q.fault) then Inserted(db, q.Created())
    else db
  }

  /** A call of the service leaves the tables so. */
  method Serve(service: Service, q: Request)
    requires service.store.Valid() && q.GoodIds()
    modifies service, service.store
    ensures service.store.Valid() && service.store.db == Served(old(service.store.db), q)
  {
    match q {
      case Creating(request, id, itemIds, now, persist, fault) =>
        var r := service.CreateOrder(request, id, itemIds, now, persist, fault);
      case Editing(id, UpdateStatus(req, now, persist, today), readFails, fault) =>
        var r := service.UpdateOrderStatus(id, req, now, persist, today, readFails, fault);
      case Editing(id, Cancel(reason, who, now, persist), readFails, fault) =>
        var r := service.CancelOrder(id, reason, who, now, persist, readFails, fault);
    }
  }

  predicate AllGoodIds(qs: seq<Request>) {
    forall i :: 0 <= i < |qs| ==> qs[i].GoodIds()
  }

  ghost function TablesAfter(qs: seq<Request>): Tables
    requires AllGoodIds(qs)
  {
    if qs == [] then Tables(map[], map[]) else Served(TablesAfter(qs[..|qs| - 1]), qs[|qs| - 1])
  }

  ghost predicate CentColumn(db: Tables) {
    forall k :: k in db.items ==> CentExact(db.items[k].unitPrice)
  }

  /** total_amount, the total_price column and the total read are all the same. */
  predicate Balanced(db: Tables, id: Uuid) {
    id in db.orders && ColumnsAgree(db, id) && Read(db, id).value.totalAmount == db.orders[id].totalAmount
  }

  predicate WholeCentRequest(q: Request) {
    q.Creating? ==> forall k :: 0 <= k < |q.request.items| ==> CentExact(q.request.items[k].unitPrice)
  }

  /** Rounding the prices first, as storing them does, leaves the sum of the lines as it is. */
  predicate KeepsLines(q: Request)
    requires q.Creating? && q.GoodIds()
  {
    Sum(StoredLine, q.Created().items) == Sum(ItemLine, q.Created().items)
  }

  /** The total read is the sum of total_price if keeps says so, and total_amount is one of the two. */
  predicate Tracks(db: Tables, id: Uuid, keeps: bool) {
    id in db.orders
    && (Read(db, id).value.totalAmount == PriceSum(db, id) <==> keeps)
    && (db.orders[id].totalAmount == PriceSum(db, id) || db.orders[id].totalAmount == Read(db, id).value.totalAmount)
  }

  ghost predicate Commits(db: Tables, q: Request)
    requires q.GoodIds()
  {
    q.Creating? && ValidRequest(q.request) && Insertable(db, q.Created(), q.fault)
  }

  /** The request that created an order. */
  ghost function Maker(qs: seq<Request>, id: Uuid): (r: Option<Request>)
    requires AllGoodIds(qs)
    ensures r.Some? ==> r.value in qs && r.value.Creating?
  {
    if qs == [] then None
    else
      var init, q := qs[..|qs| - 1], qs[|qs| - 1];
      if Commits(TablesAfter(init), q) && q.id == id then Some(q) else Maker(init, id)
  }

  /** The orders whose requests keep their lines. */
  ghost function Kept(qs: seq<Request>): set<Uuid>
    requires AllGoodIds(qs)
  {
    if qs == [] then {}
    else
      var init, q := qs[..|qs| - 1], qs[|qs| - 1];
      KeptAfter(TablesAfter(init), q, Kept(init))
  }

  ghost function KeptAfter(db: Tables, q: Request, kept: set<Uuid>): set<Uuid>
    requires q.GoodIds()
  {
    if !Commits(db, q) then kept else if KeepsLines(q) then kept + {q.id} else kept - {q.id}
  }

  ghost predicate AllTrack(db: Tables, kept: set<Uuid>) {
    forall id :: id in db.orders ==> Tracks(db, id, id in kept)
  }

  // ---------------------------------------------------------------- a creation

  lemma InsertKeepsCents(db: Tables, p: Order, fault: Fault)
    requires ForeignKey(db) && Insertable(db, p, fault) && CentColumn(db)
    ensures CentColumn(Inserted(db, p))
  {
    InsertedRows(db, p, fault);
    var t := Inserted(db, p);
    forall k | k in t.items
      ensures CentExact(t.items[k].unitPrice)
    {
      if k !in db.items {
        var i :| 0 <= i < |p.items| && p.items[i].id == k;
        assert t.items[k] == ItemRowOf(p.id, p.items[i]);
        RoundFixesExactly(p.items[i].unitPrice);
      }
    }
  }

  lemma InsertKeepsOthers(db: Tables, p: Order, fault: Fault, id: Uuid, keeps: bool)
    requires ForeignKey(db) && Insertable(db, p, fault) && id != p.id && Tracks(db, id, keeps)
    ensures Tracks(Inserted(db, p), id, keeps)
  {
    var t := Inserted(db, p);
    InsertLeavesOtherRows(db, p, fault, id);
    InsertLeavesOthers(db, p, fault, id);
    assert t.orders == db.orders[p.id := RowOf(p)] by {
      InsertedRows(db, p, fault);
    }
    SumSame(PriceColumn(t), PriceColumn(db), ItemQuery(db, {id}));
  }

  lemma InsertTracks(db: Tables, q: Request)
    requires q.GoodIds() && ForeignKey(db) && Commits(db, q)
    ensures Tracks(Inserted(db, q.Created()), q.id, KeepsLines(q))
  {
    var p := q.Created();
    CreatedIsNew(q.request, q.id, q.itemIds, q.now, q.persist);
    OrderTracks(db, p, q.fault);
  }

  lemma OrderTracks(db: Tables, p: Order, fault: Fault)
    requires ForeignKey(db) && Insertable(db, p, fault) && p.totalAmount == Total(p.items)
    requires forall i :: 0 <= i < |p.items| ==> p.items[i].subtotal == ItemLine(p.items[i])
    ensures Tracks(Inserted(db, p), p.id, Sum(StoredLine, p.items) == Sum(ItemLine, p.items))
  {
    ColumnsAgreeAtCreation(db, p, fault);
    TotalsOfInserted(db, p, fault);
  }

  lemma TotalsOfInserted(db: Tables, p: Order, fault: Fault)
    requires ForeignKey(db) && Insertable(db, p, fault) && p.totalAmount == Total(p.items)
    ensures p.id in Inserted(db, p).orders
    ensures Read(Inserted(db, p), p.id).value.totalAmount == Sum(StoredLine, p.items)
    ensures Inserted(db, p).orders[p.id].totalAmount == Sum(ItemLine, p.items)
  {
    InsertedRows(db, p, fault);
    ReadBack(db, p, fault);
    StoredTotal(p);
    TotalColumn(p.items);
  }

  // ---------------------------------------------------------------- an edit

  lemma EditKeepsTrack(db: Tables, q: Request, id: Uuid, keeps: bool)
    requires q.Editing? && Tracks(db, id, keeps)
    ensures Tracks(TablesAfterEdit(db, q.id, q.edit, q.readFails, q.fault), id, keeps)
  {
    var answer := Answer(db, q.id, q.edit, q.readFails, q.fault);
    if answer.Ok? {
      var w := answer.value;
      WriteKeepsPriceSum(db, w, id);
      EditKeepsItems(Read(db, q.id).value, q.edit);
      ReadIsNormal(db, q.id);
      if id == q.id {
        EditReadsBack(db, id, q.edit);
        TotalColumn(w.items);
      } else {
        WriteLeavesOthers(db, w, id);
      }
    }
  }

  lemma WriteKeepsPriceSum(db: Tables, w: Order, id: Uuid)
    ensures PriceSum(Written(db, w), id) == PriceSum(db, id)
  {
    var t := Written(db, w);
    SortedIsUnique(Unordered, ItemQuery(t, {id}), ItemQuery(db, {id}));
    SumSame(PriceColumn(t), PriceColumn(db), ItemQuery(db, {id}));
  }

  lemma EditKeepsItemRows(db: Tables, q: Request)
    requires q.Editing?
    ensures var t := TablesAfterEdit(db, q.id, q.edit, q.readFails, q.fault);
            t.items == db.items && t.orders.Keys == db.orders.Keys
  {
    var answer := Answer(db, q.id, q.edit, q.readFails, q.fault);
    if answer.Ok? {
      EditKeepsItems(Read(db, q.id).value, q.edit);
      ReadIsNormal(db, q.id);
    }
  }

  // ---------------------------------------------------------------- every state

  /** In every state every item row points at an order row, and every stored price is whole cents. */
  lemma {:induction false} EveryItemHasItsOrder(qs: seq<Request>)
    requires AllGoodIds(qs)
    ensures ForeignKey(TablesAfter(qs)) && CentColumn(TablesAfter(qs))
  {
    if qs != [] {
      var init, q := qs[..|qs| - 1], qs[|qs| - 1];
      EveryItemHasItsOrder(init);
      var db := TablesAfter(init);
      if q.Editing? {
        EditKeepsItemRows(db, q);
      } else if ValidRequest(q.request) && Insertable(db, q.Created(), q.fault) {
        InsertKeepsForeignKey(db, q.Created(), q.fault);
        InsertKeepsCents(db, q.Created(), q.fault);
      }
    }
  }

  lemma EditKeepsAll(db: Tables, q: Request, kept: set<Uuid>)
    requires q.Editing? && AllTrack(db, kept)
    ensures AllTrack(TablesAfterEdit(db, q.id, q.edit, q.readFails, q.fault), kept)
  {
    EditKeepsItemRows(db, q);
    var t := TablesAfterEdit(db, q.id, q.edit, q.readFails, q.fault);
    forall id | id in db.orders
      ensures Tracks(t, id, id in kept)
    {
      EditKeepsTrack(db, q, id, id in kept);
    }
  }

  lemma CreateKeepsAll(db: Tables, p: Order, fault: Fault, kept: set<Uuid>, more: set<Uuid>)
    requires ForeignKey(db) && Insertable(db, p, fault) && AllTrack(db, kept)
    requires Tracks(Inserted(db, p), p.id, p.id in more) && more - {p.id} == kept - {p.id}
    ensures AllTrack(Inserted(db, p), more)
  {
    forall id | id in db.orders && id != p.id
      ensures Tracks(Inserted(db, p), id, id in more)
    {
      assert id in more - {p.id} <==> id in kept - {p.id};
      InsertKeepsOthers(db, p, fault, id, id in kept);
    }
    InsertedKeys(db, p, fault);
  }

  lemma InsertedKeys(db: Tables, p: Order, fault: Fault)
    requires Insertable(db, p, fault)
    ensures Inserted(db, p).orders.Keys == db.orders.Keys + {p.id}
  {
    InsertedRows(db, p, fault);
  }

  lemma {:induction false} EveryStoreTracks(qs: seq<Request>)
    requires AllGoodIds(qs)
    ensures AllTrack(TablesAfter(qs), Kept(qs))
  {
    if qs != [] {
      var init, q := qs[..|qs| - 1], qs[|qs| - 1];
      EveryStoreTracks(init);
      EveryItemHasItsOrder(init);
      ServedTracks(TablesAfter(init), q, Kept(init));
    }
  }

  lemma ServedTracks(db: Tables, q: Request, kept: set<Uuid>)
    requires q.GoodIds() && ForeignKey(db) && AllTrack(db, kept)
    ensures AllTrack(Served(db, q), KeptAfter(db, q, kept))
  {
    if q.Editing? {
      EditKeepsAll(db, q, kept);
    } else if Commits(db, q) {
      InsertTracks(db, q);
      CreateKeepsAll(db, q.Created(), q.fault, kept, KeptAfter(db, q, kept));
    }
  }

  lemma ServedKeys(db: Tables, q: Request)
    requires q.GoodIds()
    ensures Served(db, q).orders.Keys == if Commits(db, q) then db.orders.Keys + {q.id} else db.orders.Keys
  {
    if q.Editing? {
      EditKeepsItemRows(db, q);
    } else if Commits(db, q) {
      InsertedRows(db, q.Created(), q.fault);
    }
  }

  lemma {:induction false} EveryOrderHasAMaker(qs: seq<Request>, id: Uuid)
    requires AllGoodIds(qs) && id in TablesAfter(qs).orders
    ensures Maker(qs, id).Some? && (id in Kept(qs) <==> KeepsLines(Maker(qs, id).value))
  {
    var init, q := qs[..|qs| - 1], qs[|qs| - 1];
    ServedKeys(TablesAfter(init), q);
    if !(Commits(TablesAfter(init), q) && q.id == id) {
      EveryOrderHasAMaker(init, id);
    }
  }

  /**
   In every state the tables can reach, whatever failed on the way, each order's total_amount, the sum of its items'
   total_price and the total Get returns are one and the same if and only if rounding the prices of the request
   that created it leaves the sum of its lines as it is.
   */
  lemma EveryStoreIsBalancedExactly(qs: seq<Request>, id: Uuid)
    requires AllGoodIds(qs) && id in TablesAfter(qs).orders
    ensures Maker(qs, id).Some?
    ensures Balanced(TablesAfter(qs), id) <==> KeepsLines(Maker(qs, id).value)
  {
    EveryStoreTracks(qs);
    EveryOrderHasAMaker(qs, id);
    assert Tracks(TablesAfter(qs), id, id in Kept(qs));
  }

  lemma WholeCentsKeepLines(q: Request)
    requires q.Creating? && q.GoodIds() && WholeCentRequest(q)
    ensures KeepsLines(q)
  {
    var items := q.Created().items;
    forall i | i in items
      ensures StoredLine(i) == ItemLine(i)
    {
      RoundFixesExactly(i.unitPrice);
    }
    SumSame(StoredLine, ItemLine, items);
  }

  /** So while every requested price is whole cents, every order is balanced in every state. */
  lemma EveryStoreIsBalanced(qs: seq<Request>, id: Uuid)
    requires AllGoodIds(qs) && (forall i :: 0 <= i < |qs| ==> WholeCentRequest(qs[i])) && id in TablesAfter(qs).orders
    ensures Balanced(TablesAfter(qs), id)
  {
    EveryStoreIsBalancedExactly(qs, id);
    WholeCentsKeepLines(Maker(qs, id).value);
  }

  /** Whatever the prices, what a client is shown of a stored order always adds up. */
  lemma EveryShownOrderAddsUp(qs: seq<Request>, id: Uuid)
    requires AllGoodIds(qs) && id in TablesAfter(qs).orders
    ensures var o := Read(TablesAfter(qs), id).value;
            Shown(o).totalAmount == Sum(SubtotalShown, Shown(o).items)
            && forall i :: i in o.items ==> ItemShown(i).subtotal == ItemShown(i).unitPrice * i.quantity as real
  {
    EveryItemHasItsOrder(qs);
    ReadOrderShowsItsSums(TablesAfter(qs), id);
  }

  // ---------------------------------------------------------------- reading in two queries

  lemma ServedKeepsItems(db: Tables, q: Request, id: Uuid)
    requires q.GoodIds() && ForeignKey(db) && id in db.orders
    ensures id in Served(db, q).orders && ReadItems(Served(db, q), id) == ReadItems(db, id)
  {
    ServedKeys(db, q);
    if q.Editing? {
      EditKeepsItemRows(db, q);
      SortedIsUnique(Unordered, ItemQuery(Served(db, q), {id}), ItemQuery(db, {id}));
    } else if Commits(db, q) {
      InsertLeavesOtherRows(db, q.Created(), q.fault, id);
    }
  }

  /** The items of an order never change once it is stored. */
  lemma {:induction false} ItemsNeverChange(qs: seq<Request>, more: seq<Request>, id: Uuid)
    requires AllGoodIds(qs) && AllGoodIds(qs + more) && id in TablesAfter(qs).orders
    ensures id in TablesAfter(qs + more).orders && ReadItems(TablesAfter(qs + more), id) == ReadItems(TablesAfter(qs), id)
  {
    if more == [] {
      assert qs + more == qs;
    } else {
      var all, n := qs + more, |qs + more| - 1;
      assert all[..n] == qs + more[..|more| - 1];
      ItemsNeverChange(qs, more[..|more| - 1], id);
      ItemsStayOnce(all, id);
    }
  }

  lemma ItemsStayOnce(all: seq<Request>, id: Uuid)
    requires all != [] && AllGoodIds(all) && id in TablesAfter(all[..|all| - 1]).orders
    ensures id in TablesAfter(all).orders && ReadItems(TablesAfter(all), id) == ReadItems(TablesAfter(all[..|all| - 1]), id)
  {
    EveryItemHasItsOrder(all[..|all| - 1]);
    ServedKeepsItems(TablesAfter(all[..|all| - 1]), all[|all| - 1], id);
  }

  /**
   However much is served between the two queries of Get or of ListByCustomer, the order put together
   is the one that the tables held at the first.
   */
  lemma TwoQueriesReadOneOrder(qs: seq<Request>, more: seq<Request>, id: Uuid)
    requires AllGoodIds(qs) && AllGoodIds(qs + more) && id in TablesAfter(qs).orders
    ensures Some(ReadAcross(TablesAfter(qs), TablesAfter(qs + more), id)) == Read(TablesAfter(qs), id)
  {
    ItemsNeverChange(qs, more, id);
  }

  // ---------------------------------------------------------------- a request that unbalances the tables

  /** One line of two units at half a cent. */
  const HALF_CENTS := CreateRequest("c", [CreateItem("p", "n", 2, 0.005)], None, "")

  lemma HalfCentsIsValid()
    ensures ValidRequest(HALF_CENTS)
  {
    assert !IsSpace("c"[0]) && !IsSpace("p"[0]) && !IsSpace("n"[0]);
  }

  lemma HalfCentOrder(at: Instant) returns (p: Order)
    ensures p == CreatedOrder(HALF_CENTS, 1, [2], at, at) && |p.items| == 1 && p.id == 1 && p.items[0].id == 2
    ensures p.totalAmount == 0.01 == Sum(ItemLine, p.items) && Sum(StoredLine, p.items) == 0.02
    ensures Insertable(Tables(map[], map[]), p, NoFault)
    ensures p.totalAmount == Total(p.items) && p.items[0].subtotal == ItemLine(p.items[0])
  {
    p := CreatedOrder(HALF_CENTS, 1, [2], at, at);
    HalfCentsIsValid();
    CreatedIsNew(HALF_CENTS, 1, [2], at, at);
    HalfCentLines(p.items[0]);
    OneItem(ItemLine, p.items[0]);
    OneItem(StoredLine, p.items[0]);
    assert p.items == [p.items[0]];
    TotalColumn(p.items);
    assert OrderInserts(Tables(map[], map[]), p, NoFault);
    assert ItemInserts(Tables(map[], map[]), p, 0, NoFault);
  }

  lemma OneItem(f: OrderItem -> real, i: OrderItem)
    ensures Sum(f, [i]) == f(i)
  {
    SumAppend(f, [], i);
    assert [] + [i] == [i];
  }

  lemma HalfCentLines(i: OrderItem)
    requires i.quantity == 2 && i.unitPrice == 0.005
    ensures ItemLine(i) == 0.01 && StoredLine(i) == 0.02 && Round2(i.unitPrice) == 0.01
  {
    assert Cents(0.005) == 1;
    CentsOfWhole(1);
    CentsOfWhole(2);
    assert 0.005 * 2 as real == 0.01 && 0.01 * 2 as real == 0.02;
  }

  /** A valid request and one accepted status update after which total_amount is not the sum of total_price. */
  lemma HalfCentsUnbalance(at: Instant) returns (calls: seq<Call>)
    ensures var p := CreatedOrder(HALF_CENTS, 1, [2], at, at);
            ValidRequest(HALF_CENTS) && Insertable(Tables(map[], map[]), p, NoFault)
            && var t := Inserted(Tables(map[], map[]), p);
            p.id in t.orders && |AcceptedEdits(Read(t, p.id).value, calls)| == 1
            && !ColumnsAgree(CallsOn(t, p.id, calls), p.id)
  {
    HalfCentsIsValid();
    var p := HalfCentOrder(at);
    CreatedIsNew(HALF_CENTS, 1, [2], at, at);
    calls := [To(Paid, at)];
    ReadBack(Tables(map[], map[]), p, NoFault);
    ColumnsAgreeExactly(Tables(map[], map[]), p, NoFault, calls);
    OneUpdateAccepted(Read(Inserted(Tables(map[], map[]), p), p.id).value, at);
  }

  lemma OneUpdateAccepted(o: Order, at: Instant)
    requires o.status == Pending
    ensures AcceptedEdits(o, [To(Paid, at)]) == [To(Paid, at).edit]
  {
    assert [To(Paid, at)][..0] == [];
  }
}
