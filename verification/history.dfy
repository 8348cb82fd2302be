/** What was done to an order is what its row holds and what a client is shown of it, and what its events say. */
module History {
  import opened Sums
  import opened Money
  import opened Orders
  import opened Lifecycle
  import opened DbTables
  import opened Inserts
  import opened Store
  import opened Services
  import opened Responses
  import opened Asked

  // ---------------------------------------------------------------- what accepted edits leave

  predicate MovesTo(e: Edit, s: OrderStatus) {
    e.UpdateStatus? && e.req.status == Some(s)
  }

  /** A stamp is the reading of the edit that moved the order to the status, or missing when none did. */
  predicate StampOf(es: seq<Edit>, s: OrderStatus, stamp: Option<Time>) {
    (forall k :: 0 <= k < |es| && MovesTo(es[k], s) ==> stamp == Some(es[k].now))
    && ((forall k :: 0 <= k < |es| ==> !MovesTo(es[k], s)) ==> stamp == None)
  }

  predicate TextAsAsked(text: Option<string>, asked: string) {
    if asked == "" then text == None else text == Some(asked)
  }

  /** Tracking number and carrier are those of the edit that shipped the order. */
  predicate ShippingOf(es: seq<Edit>, tracking: Option<string>, carrier: Option<string>) {
    (forall k :: 0 <= k < |es| && MovesTo(es[k], Shipped) ==>
                   TextAsAsked(tracking, es[k].req.trackingNumber) && TextAsAsked(carrier, es[k].req.carrier))
    && ((forall k :: 0 <= k < |es| ==> !MovesTo(es[k], Shipped)) ==> tracking == None && carrier == None)
  }

  predicate IsLastCancel(es: seq<Edit>, k: nat) {
    k < |es| && es[k].Cancel? && forall j :: k < j < |es| ==> !es[j].Cancel?
  }

  /** Cancellation time and reason are those of the last cancel. */
  predicate CancellationOf(es: seq<Edit>, cancelled: Option<Time>, reason: Option<string>) {
    (forall k :: 0 <= k < |es| && IsLastCancel(es, k) ==> cancelled == Some(es[k].now) && TextAsAsked(reason, es[k].reason))
    && ((forall k :: 0 <= k < |es| ==> !es[k].Cancel?) ==> cancelled == None && reason == None)
  }

  /** What the edits accepted of an order since its creation, last written at born, leave of what may change. */
  predicate Says(es: seq<Edit>, born: Time, status: OrderStatus, tracking: Option<string>, carrier: Option<string>,
                 reason: Option<string>, paid: Option<Time>, shipped: Option<Time>, completed: Option<Time>,
                 cancelled: Option<Time>, updated: Time) {
    status == (if es == [] then Pending else Target(es[|es| - 1]))
    && updated == (if es == [] then born else es[|es| - 1].persist)
    && StampOf(es, Paid, paid) && StampOf(es, Shipped, shipped) && StampOf(es, Completed, completed)
    && ShippingOf(es, tracking, carrier) && CancellationOf(es, cancelled, reason)
  }

  predicate OrderSays(o: Order, es: seq<Edit>, born: Time) {
    Says(es, born, o.status, o.trackingNumber, o.carrier, o.cancellationReason, o.paidAt, o.shippedAt, o.completedAt,
         o.cancelledAt, o.updatedAt)
  }

  lemma StampMoves(es: seq<Edit>, e: Edit, s: OrderStatus, before: Option<Time>, after: Option<Time>)
    requires StampOf(es, s, before)
    requires if MovesTo(e, s) then before == None && after == Some(e.now) else after == before
    ensures StampOf(es + [e], s, after)
  {
    var more := es + [e];
    assert more[|es|] == e && forall k :: 0 <= k < |es| ==> more[k] == es[k];
  }

  lemma ShippingMoves(es: seq<Edit>, e: Edit, o: Order, w: Order)
    requires ShippingOf(es, o.trackingNumber, o.carrier)
    requires if MovesTo(e, Shipped) then
               (forall k :: 0 <= k < |es| ==> !MovesTo(es[k], Shipped))
               && TextAsAsked(w.trackingNumber, e.req.trackingNumber) && TextAsAsked(w.carrier, e.req.carrier)
             else w.trackingNumber == o.trackingNumber && w.carrier == o.carrier
    ensures ShippingOf(es + [e], w.trackingNumber, w.carrier)
  {
    var more := es + [e];
    assert more[|es|] == e && forall k :: 0 <= k < |es| ==> more[k] == es[k];
  }

  lemma CancellationMoves(es: seq<Edit>, e: Edit, o: Order, w: Order)
    requires CancellationOf(es, o.cancelledAt, o.cancellationReason)
    requires if e.Cancel? then w.cancelledAt == Some(e.now) && TextAsAsked(w.cancellationReason, e.reason)
             else w.cancelledAt == o.cancelledAt && w.cancellationReason == o.cancellationReason
    ensures CancellationOf(es + [e], w.cancelledAt, w.cancellationReason)
  {
    var more := es + [e];
    assert more[|es|] == e && forall k :: 0 <= k < |es| ==> more[k] == es[k];
    forall k | 0 <= k < |more| && IsLastCancel(more, k)
      ensures w.cancelledAt == Some(more[k].now) && TextAsAsked(w.cancellationReason, more[k].reason)
    {
      if !e.Cancel? {
        assert IsLastCancel(es, k);
      }
    }
  }

  lemma EditedStamps(o: Order, e: Edit)
    requires Refusal(o, e).None? && Shaped(o)
    ensures var w := Edited(o, e);
            (if MovesTo(e, Paid) then o.paidAt == None && w.paidAt == Some(e.now) else w.paidAt == o.paidAt)
            && (if MovesTo(e, Shipped) then o.shippedAt == None && w.shippedAt == Some(e.now) else w.shippedAt == o.shippedAt)
            && (if MovesTo(e, Completed) then o.completedAt == None && w.completedAt == Some(e.now)
                else w.completedAt == o.completedAt)
            && w.updatedAt == e.persist
  {
  }

  lemma EditedTexts(o: Order, e: Edit)
    requires Refusal(o, e).None?
    ensures var w := Edited(o, e);
            (if MovesTo(e, Shipped) then
               TextAsAsked(w.trackingNumber, e.req.trackingNumber) && TextAsAsked(w.carrier, e.req.carrier)
             else w.trackingNumber == o.trackingNumber && w.carrier == o.carrier)
            && (if e.Cancel? then w.cancelledAt == Some(e.now) && TextAsAsked(w.cancellationReason, e.reason)
                else w.cancelledAt == o.cancelledAt && w.cancellationReason == o.cancellationReason)
  {
  }

  lemma EditSays(o: Order, es: seq<Edit>, born: Time, e: Edit)
    requires OrderSays(o, es, born) && Shaped(o) && Refusal(o, e).None?
    ensures OrderSays(Edited(o, e), es + [e], born)
  {
    var w := Edited(o, e);
    EditedHasTarget(o, e);
    EditedStamps(o, e);
    EditedTexts(o, e);
    StampMoves(es, e, Paid, o.paidAt, w.paidAt);
    StampMoves(es, e, Shipped, o.shippedAt, w.shippedAt);
    StampMoves(es, e, Completed, o.completedAt, w.completedAt);
    ShippingMoves(es, e, o, w);
    CancellationMoves(es, e, o, w);
  }

  lemma {:induction false} RunSays(o: Order, calls: seq<Call>)
    requires IsNew(o)
    ensures OrderSays(Run(o, calls), AcceptedEdits(o, calls), o.updatedAt)
  {
    if calls != [] {
      var init, last := calls[..|calls| - 1], calls[|calls| - 1];
      RunSays(o, init);
      RunIsShaped(o, init);
      if Accepts(Run(o, init), last) {
        EditSays(Run(o, init), AcceptedEdits(o, init), o.updatedAt, last.edit);
      } else {
        assert AcceptedEdits(o, calls) == AcceptedEdits(o, init);
      }
    }
  }

  // ---------------------------------------------------------------- the row

  predicate RowSays(row: OrderRow, es: seq<Edit>, born: Time) {
    Says(es, born, row.status, row.trackingNumber, row.carrier, row.cancellationReason, row.paidAt, row.shippedAt,
         row.completedAt, row.cancelledAt, row.updatedAt)
  }

  /** Calls leave item rows alone, and the order's row alone or as the last accepted of them wrote it. */
  lemma {:induction false} RowAfterCalls(db: Tables, id: Uuid, calls: seq<Call>)
    requires id in db.orders
    ensures var t, es := CallsOn(db, id, calls), AcceptedEdits(Read(db, id).value, calls);
            t.items == db.items && (es == [] ==> t.orders[id] == db.orders[id])
            && (es != [] ==> t.orders[id] == RowOf(Run(Read(db, id).value, calls)))
  {
    if calls != [] {
      var init, last := calls[..|calls| - 1], calls[|calls| - 1];
      RowAfterCalls(db, id, init);
      StoreRunsTheLifecycle(db, id, init);
      var o := Run(Read(db, id).value, init);
      ReadIsNormal(CallsOn(db, id, init), id);
      if Accepts(o, last) {
        EditKeepsItems(o, last.edit);
      }
    }
  }

  lemma RowOfSays(o: Order, es: seq<Edit>, born: Time)
    requires OrderSays(o, es, born)
    ensures RowSays(RowOf(o), es, born)
  {
  }

  /** The row written for an order that is as it was created in all but what edits change. */
  lemma RowOfCreated(o: Order, r: CreateRequest, now: Time)
    requires o.customerId == r.customerId && o.currency == OrUsd(r.currency) && o.shippingAddress == r.shippingAddress
    requires o.createdAt == now
    ensures RowAsCreated(RowOf(o), r, now)
  {
  }

  lemma FirstReadAsAsked(db: Tables, r: CreateRequest, id: Uuid, itemIds: seq<Uuid>, now: Instant, persist: Instant, fault: Fault)
    requires ForeignKey(db) && ValidRequest(r) && |itemIds| == |r.items| && id != 0 && 0 !in itemIds
    requires Insertable(db, CreatedOrder(r, id, itemIds, now, persist), fault)
    ensures var got := Read(Inserted(db, CreatedOrder(r, id, itemIds, now, persist)), id);
            got.Some? && IsNew(got.value) && got.value.id == id && got.value.customerId == r.customerId
            && got.value.currency == OrUsd(r.currency) && got.value.shippingAddress == r.shippingAddress
            && got.value.createdAt == now && got.value.updatedAt == persist
            && multiset(got.value.items) == multiset(StoredItems(CreatedOrder(r, id, itemIds, now, persist)))
  {
    CreatedAsAsked(r, id, itemIds, now, persist);
    ReadBack(db, CreatedOrder(r, id, itemIds, now, persist), fault);
  }

  /**
   After a creation and any calls, the row still holds the customer, currency, address and creation time asked for, and of the
   rest what the accepted calls, told from the calls themselves, have left.
   */
  lemma RowSaysWhatWasDone(db: Tables, r: CreateRequest, id: Uuid, itemIds: seq<Uuid>, now: Instant, persist: Instant,
                           fault: Fault, calls: seq<Call>)
    requires ForeignKey(db) && ValidRequest(r) && |itemIds| == |r.items| && id != 0 && 0 !in itemIds
    requires Insertable(db, CreatedOrder(r, id, itemIds, now, persist), fault)
    ensures var t := Inserted(db, CreatedOrder(r, id, itemIds, now, persist));
            id in t.orders
            && var after, es := CallsOn(t, id, calls), AcceptedEdits(Read(t, id).value, calls);
            RowAsCreated(after.orders[id], r, now) && RowSays(after.orders[id], es, persist) && after.items == t.items
  {
    FirstReadAsAsked(db, r, id, itemIds, now, persist, fault);
    RowsAsAsked(db, r, id, itemIds, now, persist, fault);
    var t := Inserted(db, CreatedOrder(r, id, itemIds, now, persist));
    var born := Read(t, id).value;
    RunSays(born, calls);
    RowAfterCalls(t, id, calls);
    if AcceptedEdits(born, calls) != [] {
      RunKeepsOrder(born, calls);
      RowOfSays(Run(born, calls), AcceptedEdits(born, calls), persist);
      RowOfCreated(Run(born, calls), r, now);
    } else {
      NothingSaid(t, id, persist);
    }
  }

  /** Before any edit the row says nothing happened. */
  lemma NothingSaid(t: Tables, id: Uuid, persist: Time)
    requires id in t.orders && IsNew(Read(t, id).value) && t.orders[id].updatedAt == persist
    ensures RowSays(t.orders[id], [], persist)
  {
  }

  // ---------------------------------------------------------------- what a client is shown

  predicate ResponseSays(s: OrderResponse, es: seq<Edit>, born: Time) {
    Says(es, born, s.status, s.trackingNumber, s.carrier, s.cancellationReason, s.paidAt, s.shippedAt, s.completedAt,
         s.cancelledAt, s.updatedAt)
  }

  /** A line shown: as asked for, at the price to the cent, multiplied out. */
  predicate LineShown(s: ItemResponse, i: CreateItem, itemId: Uuid) {
    s.id == itemId && s.productId == i.productId && s.productName == i.productName && s.quantity == i.quantity
    && s.unitPrice == Round2(i.unitPrice) && s.subtotal == s.unitPrice * s.quantity as real
  }

  lemma StoredLineShown(o: OrderItem, i: CreateItem, itemId: Uuid, id: Uuid)
    requires ItemAsked(o, i, itemId, id)
    ensures LineShown(ItemShown(StoredItem(id, o)), i, itemId)
  {
    StoredItemAs(o, id);
    var s := StoredItem(id, o);
    LineMultipliesOut(s);
    ShownPrice(s, i.unitPrice);
  }

  lemma StoredItemAs(o: OrderItem, id: Uuid)
    ensures var s := StoredItem(id, o);
            s.id == o.id && s.productId == o.productId && s.productName == o.productName && s.quantity == o.quantity
            && s.unitPrice == Round2(o.unitPrice) && CentExact(s.unitPrice) && s.subtotal == ItemLine(s)
  {
    RoundFixesExactly(o.unitPrice);
  }

  lemma ShownPrice(s: OrderItem, price: Decimal)
    requires s.unitPrice == Round2(price)
    ensures ItemShown(s).unitPrice == Round2(price)
  {
    RoundFixesExactly(price);
    RoundFixesExactly(s.unitPrice);
  }

  /** Every line asked for is shown, and no other. */
  predicate LinesShown(s: OrderResponse, r: CreateRequest, itemIds: seq<Uuid>)
    requires |itemIds| == |r.items|
  {
    |s.items| == |r.items|
    && forall k :: 0 <= k < |r.items| ==> exists j :: 0 <= j < |s.items| && LineShown(s.items[j], r.items[k], itemIds[k])
  }

  lemma ItemsShownAsAsked(o: Order, got: Order, r: CreateRequest, id: Uuid, itemIds: seq<Uuid>, now: Time, persist: Time)
    requires |itemIds| == |r.items| && OrderAsked(o, r, id, itemIds, now, persist)
    requires multiset(got.items) == multiset(StoredItems(o))
    ensures LinesShown(Shown(got), r, itemIds)
  {
    assert |got.items| == |multiset(got.items)| == |multiset(StoredItems(o))| == |StoredItems(o)|;
    forall k | 0 <= k < |r.items|
      ensures exists j :: 0 <= j < |got.items| && LineShown(Shown(got).items[j], r.items[k], itemIds[k])
    {
      assert ItemAsked(o.items[k], r.items[k], itemIds[k], id);
      StoredLineShown(o.items[k], r.items[k], itemIds[k], id);
      assert StoredItems(o)[k] in multiset(got.items);
      var j :| 0 <= j < |got.items| && got.items[j] == StoredItems(o)[k];
      assert Shown(got).items[j] == ItemShown(got.items[j]);
    }
  }

  lemma ShownOfSays(o: Order, es: seq<Edit>, born: Time)
    requires OrderSays(o, es, born)
    ensures ResponseSays(Shown(o), es, born)
  {
  }

  /**
   What a client is shown of an order after any calls says what was asked for and what was done: id, customer, currency,
   address, creation time and lines of the creating request, the rest as the accepted calls have left it, and
   each stamp exactly when its event was attempted.
   */
  lemma ShownSaysWhatWasDone(db: Tables, r: CreateRequest, id: Uuid, itemIds: seq<Uuid>, now: Instant, persist: Instant,
                             fault: Fault, calls: seq<Call>)
    requires ForeignKey(db) && ValidRequest(r) && |itemIds| == |r.items| && id != 0 && 0 !in itemIds
    requires Insertable(db, CreatedOrder(r, id, itemIds, now, persist), fault)
    ensures var t := Inserted(db, CreatedOrder(r, id, itemIds, now, persist));
            id in t.orders && Read(CallsOn(t, id, calls), id).Some?
            && var born := Read(t, id).value;
            var s := Shown(Read(CallsOn(t, id, calls), id).value);
            var es, w := AcceptedEdits(born, calls), Types(Attempted(born, calls));
            s.id == id && s.customerId == r.customerId && s.currency == OrUsd(r.currency)
            && s.shippingAddress == r.shippingAddress && s.createdAt == now && LinesShown(s, r, itemIds)
            && ResponseSays(s, es, persist)
            && (s.paidAt.Some? <==> OrderPaid in w) && (s.shippedAt.Some? <==> OrderShipped in w)
            && (s.completedAt.Some? <==> OrderCompleted in w) && (s.cancelledAt.Some? <==> OrderCancelled in w)
  {
    FirstReadAsAsked(db, r, id, itemIds, now, persist, fault);
    CreatedAsAsked(r, id, itemIds, now, persist);
    var o := CreatedOrder(r, id, itemIds, now, persist);
    var born := Read(Inserted(db, o), id).value;
    StoreRunsTheLifecycle(Inserted(db, o), id, calls);
    RunKeepsOrder(born, calls);
    RunSays(born, calls);
    ShownOfSays(Run(born, calls), AcceptedEdits(born, calls), persist);
    ItemsShownAsAsked(o, Run(born, calls), r, id, itemIds, now, persist);
    RunAttemptsALifeWord(born, calls);
  }

  // ---------------------------------------------------------------- what an event says

  const NANOSECONDS_A_DAY: nat := 24 * 60 * 60 * 1_000_000_000

  /** The event of an accepted edit carries the request: its strings, the reading it was made at, and five days to deliver. */
  lemma EventAsAsked(o: Order, e: Edit)
    requires Refusal(o, e).None?
    ensures var es := Announced(Edited(o, e), e);
            (MovesTo(e, Paid) ==>
               es == [OrderPaidEvent(o.id, e.req.paymentId, o.totalAmount, o.currency, e.req.paymentMethod, e.now)])
            && (MovesTo(e, Shipped) ==>
                  |es| == 1 && es[0].OrderShippedEvent? && es[0].orderId == o.id && es[0].trackingNumber == e.req.trackingNumber
                  && es[0].carrier == e.req.carrier && es[0].shippedAt == e.now
                  && (e.req.estimatedDelivery.Some? ==> es[0].estimatedDelivery == e.req.estimatedDelivery.value)
                  && (e.req.estimatedDelivery.None? ==> es[0].estimatedDelivery == e.today + 5 * NANOSECONDS_A_DAY))
            && (MovesTo(e, Completed) ==> es == [OrderCompletedEvent(o.id, e.now)])
            && (MovesTo(e, Processing) || MovesTo(e, Cancelled) ==> es == [])
            && (e.Cancel? ==>
                  |es| == 1 && es[0].OrderCancelledEvent? && es[0].orderId == o.id && es[0].reason == e.reason
                  && es[0].cancelledAt == e.now && es[0].refundInitiated
                  && (e.cancelledBy == "" ==> es[0].cancelledBy == "system")
                  && (e.cancelledBy != "" ==> es[0].cancelledBy == e.cancelledBy))
  {
  }
}
