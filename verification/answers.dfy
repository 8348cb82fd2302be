/** Which answer a status update or a cancel gets, told from the rows and the request alone. */
module Answers {
  import opened Money
  import opened Orders
  import opened Lifecycle
  import opened DbTables
  import opened Store
  import opened Services

  /** The changes of status there are. */
  const TRANSITIONS: set<(OrderStatus, OrderStatus)> :=
    {(Pending, Paid), (Pending, Cancelled), (Paid, Processing), (Paid, Cancelled), (Processing, Shipped),
     (Processing, Cancelled), (Shipped, Completed)}

  lemma TransitionsAreTheTable(from: OrderStatus, to: OrderStatus)
    ensures from.CanTransitionTo(to) <==> (from, to) in TRANSITIONS
  {
  }

  /** The one UPDATE of the transaction goes through, as far as the database's health goes. */
  predicate DatabaseWrites(fault: Fault) {
    fault == NoFault || (fault.AtStatement? && fault.n > 0)
  }

  predicate TotalHasTenDigits(x: Decimal) {
    -99_999_999.99 <= x <= 99_999_999.99
  }

  /** A whole-cent amount fits its column exactly when it has at most ten digits. */
  lemma NumericHasTenDigits(x: Decimal)
    requires CentExact(x)
    ensures Numeric102(x) <==> TotalHasTenDigits(x)
  {
    var n := (100.0 * x).Floor;
    assert 100.0 * x == n as real;
    assert Numeric102(x) <==> -10_000_000_000 < n < 10_000_000_000;
    assert TotalHasTenDigits(x) <==> -9_999_999_999 <= n <= 9_999_999_999;
  }

  lemma ReadTotalFits(db: Tables, id: Uuid)
    requires id in db.orders
    ensures var total := Read(db, id).value.totalAmount;
            Round2(total) == total && (Numeric102(total) <==> TotalHasTenDigits(total))
  {
    ReadIsNormal(db, id);
    FinalRoundingIsIdentity(Read(db, id).value.items);
    RoundFixesExactly(Read(db, id).value.totalAmount);
    NumericHasTenDigits(Read(db, id).value.totalAmount);
  }

  /** The columns an update or a cancel changes take their new values; the other columns are as they were. */
  predicate Recordable(db: Tables, id: Uuid, texts: seq<string>)
    requires id in db.orders
  {
    TotalHasTenDigits(Read(db, id).value.totalAmount) && forall i :: 0 <= i < |texts| ==> |texts[i]| <= 255
  }

  lemma UpdateIsRecordable(db: Tables, id: Uuid, req: UpdateRequest, now: Instant, persist: Instant, today: Instant, fault: Fault)
    requires id in db.orders && OrderFits(db.orders[id]) && req.status.Some? && (db.orders[id].status, req.status.value) in TRANSITIONS
    ensures Refusal(Read(db, id).value, UpdateStatus(req, now, persist, today)).None?
    ensures Updatable(db, Edited(Read(db, id).value, UpdateStatus(req, now, persist, today)), fault) <==>
            DatabaseWrites(fault)
            && Recordable(db, id, if req.status.value == Shipped then [req.trackingNumber, req.carrier] else [])
  {
    ReadTotalFits(db, id);
    var o := Read(db, id).value;
    ReadKeepsColumns(db, id);
    UpdatedColumns(o, UpdateStatus(req, now, persist, today));
    EditedRowFits(o, Edited(o, UpdateStatus(req, now, persist, today)));
    if req.status.value == Shipped {
      assert [req.trackingNumber, req.carrier][0] == req.trackingNumber;
      assert [req.trackingNumber, req.carrier][1] == req.carrier;
    }
  }

  /** The texts of an order all fit their columns. */
  predicate TextsFit(o: Order) {
    |o.customerId| <= 255 && |o.currency| <= 3 && Varchar255(o.trackingNumber) && Varchar255(o.carrier)
    && Varchar255(o.cancellationReason)
    && (o.shippingAddress.Some? ==>
          var a := o.shippingAddress.value;
          |a.street| <= 255 && |a.city| <= 255 && |a.state| <= 255 && |a.postalCode| <= 255 && |a.country| <= 255)
  }

  lemma ReadKeepsColumns(db: Tables, id: Uuid)
    requires id in db.orders && OrderFits(db.orders[id])
    ensures TextsFit(Read(db, id).value) && Read(db, id).value.status == db.orders[id].status && Read(db, id).value.id == id
  {
  }

  lemma UpdatedColumns(o: Order, e: Edit)
    requires e.UpdateStatus? && Refusal(o, e).None?
    ensures var w, shipped := Edited(o, e), e.req.status == Some(Shipped);
            w.id == o.id && w.totalAmount == o.totalAmount && w.customerId == o.customerId && w.currency == o.currency
            && w.shippingAddress == o.shippingAddress && w.cancellationReason == o.cancellationReason
            && w.trackingNumber == (if shipped then StringPtr(e.req.trackingNumber) else o.trackingNumber)
            && w.carrier == (if shipped then StringPtr(e.req.carrier) else o.carrier)
  {
  }

  lemma EditedRowFits(o: Order, w: Order)
    requires TextsFit(o) && w.customerId == o.customerId && w.currency == o.currency && w.shippingAddress == o.shippingAddress
    requires Round2(w.totalAmount) == w.totalAmount
    ensures OrderFits(RowOf(w)) <==>
            Numeric102(w.totalAmount) && Varchar255(w.trackingNumber) && Varchar255(w.carrier) && Varchar255(w.cancellationReason)
  {
  }

  /**
   A status update is answered Invalid exactly when it names none of the six statuses; else NotFound exactly when the
   order was looked for and has no row; else, on a row that was read, InvalidTransition exactly when the table has no
   change from the row's status to the one asked for, naming the two in that order; else StoreFailure exactly when
   the database or a column would not take it. An update that is refused leaves the tables as they were.
   */
  lemma UpdateAnswers(db: Tables, id: Uuid, req: UpdateRequest, now: Instant, persist: Instant, today: Instant,
                      readFails: bool, fault: Fault)
    requires id in db.orders ==> OrderFits(db.orders[id])
    ensures var e := UpdateStatus(req, now, persist, today);
            var r, t := Answer(db, id, e, readFails, fault), TablesAfterEdit(db, id, e, readFails, fault);
            var looked := req.status.Some? && !readFails;
            var change := looked && id in db.orders && (db.orders[id].status, req.status.value) in TRANSITIONS;
            (r == Err(Invalid) <==> req.status.None?)
            && (r == Err(NotFound) <==> looked && id !in db.orders)
            && (r.Err? && r.error.InvalidTransition? <==> looked && id in db.orders && !change)
            && (r.Err? && r.error.InvalidTransition? ==>
                  id in t.orders && Read(t, id).value.status == r.error.from && r.error.to == req.status.value
                  && (r.error.from, r.error.to) !in TRANSITIONS)
            && (r == Err(StoreFailure) <==>
                  (req.status.Some? && readFails)
                  || (change && !(DatabaseWrites(fault)
                                  && Recordable(db, id, if req.status.value == Shipped then [req.trackingNumber, req.carrier] else []))))
            && (r.Err? ==> !r.error.CancelNotAllowed? && t == db)
            && (r.Ok? ==> change && id in t.orders && t.orders[id].status == req.status.value)
  {
    if id in db.orders && req.status.Some? {
      TransitionsAreTheTable(db.orders[id].status, req.status.value);
      if (db.orders[id].status, req.status.value) in TRANSITIONS {
        UpdateIsRecordable(db, id, req, now, persist, today, fault);
      }
    }
  }

  lemma CancelIsRecordable(db: Tables, id: Uuid, reason: string, who: string, now: Instant, persist: Instant, fault: Fault)
    requires id in db.orders && OrderFits(db.orders[id]) && db.orders[id].status != Shipped && db.orders[id].status != Completed
    ensures Refusal(Read(db, id).value, Cancel(reason, who, now, persist)).None?
    ensures Updatable(db, Edited(Read(db, id).value, Cancel(reason, who, now, persist)), fault) <==>
            DatabaseWrites(fault) && Recordable(db, id, [reason])
  {
    ReadTotalFits(db, id);
    var o := Read(db, id).value;
    var w := Edited(o, Cancel(reason, who, now, persist));
    ReadKeepsColumns(db, id);
    EditedRowFits(o, w);
    assert w.id == id && w.totalAmount == o.totalAmount && w.trackingNumber == o.trackingNumber && w.carrier == o.carrier;
    assert [reason][0] == reason;
  }

  /** The same for a cancel, which only a SHIPPED or COMPLETED order refuses, naming the status it is in. */
  lemma CancelAnswers(db: Tables, id: Uuid, reason: string, who: string, now: Instant, persist: Instant, readFails: bool,
                      fault: Fault)
    requires id in db.orders ==> OrderFits(db.orders[id])
    ensures var e := Cancel(reason, who, now, persist);
            var r, t := Answer(db, id, e, readFails, fault), TablesAfterEdit(db, id, e, readFails, fault);
            var late := !readFails && id in db.orders && (db.orders[id].status == Shipped || db.orders[id].status == Completed);
            (r == Err(NotFound) <==> !readFails && id !in db.orders)
            && (r.Err? && r.error.CancelNotAllowed? <==> late)
            && (r.Err? && r.error.CancelNotAllowed? ==> id in t.orders && Read(t, id).value.status == r.error.status)
            && (r == Err(StoreFailure) <==>
                  readFails || (id in db.orders && !late && !(DatabaseWrites(fault) && Recordable(db, id, [reason]))))
            && (r.Err? ==> !r.error.InvalidTransition? && !r.error.Invalid? && t == db)
            && (r.Ok? ==> id in t.orders && t.orders[id].status == Cancelled)
  {
    if id in db.orders && db.orders[id].status != Shipped && db.orders[id].status != Completed {
      CancelIsRecordable(db, id, reason, who, now, persist, fault);
    }
  }
}
