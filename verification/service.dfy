/** The order service: validate, read, change, write, and only then announce (go/internal/order/service.go). */
module Services {
  import opened Sums
  import opened Money
  import opened Orders
  import opened Lifecycle
  import opened DbTables
  import opened Inserts
  import opened Store

  datatype CreateItem = CreateItem(productId: string, productName: string, quantity: int, unitPrice: Decimal)

  datatype CreateRequest = CreateRequest(
    customerId: string, items: seq<CreateItem>, shippingAddress: Option<ShippingAddress>, currency: string)

  /** unicode.IsSpace */
  predicate IsSpace(c: char) {
    '\t' <= c <= '\r' || c == ' ' || c == '\U{85}' || c == '\U{A0}' || c == '\U{1680}' || '\U{2000}' <= c <= '\U{200A}'
    || c == '\U{2028}' || c == '\U{2029}' || c == '\U{202F}' || c == '\U{205F}' || c == '\U{3000}'
  }

  /** The characters with the Unicode property White_Space. */
  const WHITE_SPACE: set<char> :=
    {'\U{09}', '\U{0A}', '\U{0B}', '\U{0C}', '\U{0D}', '\U{20}', '\U{85}', '\U{A0}', '\U{1680}', '\U{2000}', '\U{2001}',
     '\U{2002}', '\U{2003}', '\U{2004}', '\U{2005}', '\U{2006}', '\U{2007}', '\U{2008}', '\U{2009}', '\U{200A}', '\U{2028}',
     '\U{2029}', '\U{202F}', '\U{205F}', '\U{3000}'}

  lemma SpacesExactly(c: char)
    ensures IsSpace(c) <==> c in WHITE_SPACE
  {
    if IsSpace(c) {
      var n := c as int;
      assert n in {0x09, 0x0A, 0x0B, 0x0C, 0x0D, 0x20, 0x85, 0xA0, 0x1680, 0x2000, 0x2001, 0x2002, 0x2003, 0x2004, 0x2005,
                   0x2006, 0x2007, 0x2008, 0x2009, 0x200A, 0x2028, 0x2029, 0x202F, 0x205F, 0x3000};
    }
  }

  /** strings.TrimSpace(s) == "" */
  predicate Blank(s: string) {
    forall i :: 0 <= i < |s| ==> IsSpace(s[i])
  }

  predicate ValidAddress(a: ShippingAddress) {
    !Blank(a.street) && !Blank(a.city) && !Blank(a.state) && !Blank(a.postalCode) && !Blank(a.country)
  }

  predicate ValidItem(i: CreateItem) {
    !Blank(i.productId) && !Blank(i.productName) && 0 < i.quantity && 0.0 < i.unitPrice
  }

  /** CreateOrderRequest.Validate accepts. */
  predicate ValidRequest(r: CreateRequest) {
    !Blank(r.customerId) && |r.items| > 0
    && (forall i :: 0 <= i < |r.items| ==> ValidItem(r.items[i]))
    && (r.shippingAddress.Some? ==> ValidAddress(r.shippingAddress.value))
  }

  function RequestedItem(id: Uuid, i: CreateItem): OrderItem {
    Subtotaled(OrderItem(id, 0, i.productId, i.productName, i.quantity, i.unitPrice, 0.0))
  }

  function RequestedItems(ids: seq<Uuid>, items: seq<CreateItem>): seq<OrderItem>
    requires |ids| == |items|
  {
    seq(|items|, k requires 0 <= k < |items| => RequestedItem(ids[k], items[k]))
  }

  /** The order CreateOrder hands to the store. */
  function Placed(r: CreateRequest, id: Uuid, itemIds: seq<Uuid>, now: Instant): Order
    requires |itemIds| == |r.items|
  {
    Recalculated(Order(id, r.customerId, Pending, RequestedItems(itemIds, r.items), 0.0,
                       if r.currency == "" then "USD" else r.currency, r.shippingAddress,
                       None, None, now, now, None, None, None, None, None))
  }

  /** The order CreateOrder returns. */
  function CreatedOrder(r: CreateRequest, id: Uuid, itemIds: seq<Uuid>, now: Instant, persist: Instant): Order
    requires |itemIds| == |r.items|
  {
    Prepared(Placed(r, id, itemIds, now), persist, id, itemIds)
  }

  function EventItems(items: seq<OrderItem>): seq<EventItem> {
    seq(|items|, i requires 0 <= i < |items| =>
          EventItem(items[i].productId, items[i].productName, items[i].quantity, items[i].unitPrice))
  }

  function CreatedEvent(o: Order): Event {
    OrderCreatedEvent(o.id, o.customerId, EventItems(o.items), o.totalAmount, o.currency, o.shippingAddress)
  }

  method ToEventItems(items: seq<OrderItem>) returns (result: seq<EventItem>)
    ensures result == EventItems(items)
  {
    result := [];
    for i := 0 to |items|
      invariant |result| == i && result == EventItems(items)[..i]
    {
      result := result + [EventItem(items[i].productId, items[i].productName, items[i].quantity, items[i].unitPrice)];
    }
  }

  /** What an edit of order id answers: the order as written, or the first error met. */
  function Answer(db: Tables, id: Uuid, e: Edit, readFails: bool, fault: Fault): Result<Order> {
    if e.UpdateStatus? && e.req.status.None? then Err(Invalid)
    else if readFails then Err(StoreFailure)
    else if id !in db.orders then Err(NotFound)
    else
      var o := Read(db, id).value;
      if Refusal(o, e).Some? then Err(Refusal(o, e).value)
      else if Updatable(db, Edited(o, e), fault) then Ok(Edited(o, e))
      else Err(StoreFailure)
  }

  /** The tables an edit leaves. */
  function TablesAfterEdit(db: Tables, id: Uuid, e: Edit, readFails: bool, fault: Fault): Tables {
    var answer := Answer(db, id, e, readFails, fault);
    if answer.Ok? then Written(db, answer.value) else db
  }

  ghost predicate Answers(r: Result<OrderEntity>, spec: Result<Order>)
    reads if r.Ok? then {r.value} else {}
  {
    match spec
    case Ok(o) => r.Ok? && r.value.View() == o
    case Err(e) => r == Err(e)
  }

  class Service {
    const store: PostgresStore
    const hasPublisher: bool
    /** Every event handed to the publisher, in order; a publisher that fails is only logged. */
    var attempts: seq<Event>

    constructor (store: PostgresStore, hasPublisher: bool)
      ensures this.store == store && this.hasPublisher == hasPublisher && attempts == []
    {
      this.store, this.hasPublisher, this.attempts := store, hasPublisher, [];
    }

    function Published(es: seq<Event>): seq<Event> {
      if hasPublisher then es else []
    }

    /** orderId and itemIds are what uuid.New() returns, which is never uuid.Nil. */
    method CreateOrder(r: CreateRequest, orderId: Uuid, itemIds: seq<Uuid>, now: Instant, persist: Instant, fault: Fault)
      returns (result: Result<OrderEntity>)
      requires store.Valid()
      requires |itemIds| == |r.items| && orderId != 0 && 0 !in itemIds
      modifies this, store
      ensures store.Valid()
      ensures result.Ok? <==>
              ValidRequest(r) && Insertable(old(store.db), CreatedOrder(r, orderId, itemIds, now, persist), fault)
      ensures result.Ok? ==>
                fresh(result.value) && result.value.View() == CreatedOrder(r, orderId, itemIds, now, persist)
                && store.db == Inserted(old(store.db), result.value.View())
                && attempts == old(attempts) + Published([CreatedEvent(result.value.View())])
      ensures result.Err? ==> store.db == old(store.db) && attempts == old(attempts)
      ensures |attempts| == |old(attempts)| + if result.Ok? && hasPublisher then 1 else 0
      ensures result.Err? ==> result.error == if ValidRequest(r) then StoreFailure else Invalid
    {
      var valid := Validate(r);
      if !valid {
        return Err(Invalid);
      }
      var order := BuildOrder(r, orderId, itemIds, now);
      var ok := store.Create(order, persist, orderId, itemIds, fault);
      if !ok {
        return Err(StoreFailure);
      }
      if hasPublisher {
        var eventItems := ToEventItems(order.items);
        attempts := attempts + [OrderCreatedEvent(order.id, order.customerId, eventItems, order.totalAmount,
                                                  order.currency, order.shippingAddress)];
      }
      return Ok(order);
    }

    /** The order in memory, before it is stored. */
    method BuildOrder(r: CreateRequest, orderId: Uuid, itemIds: seq<Uuid>, now: Instant) returns (order: OrderEntity)
      requires |itemIds| == |r.items|
      ensures fresh(order) && order.View() == Placed(r, orderId, itemIds, now)
    {
      var currency := r.currency;
      if currency == "" {
        currency := "USD";
      }
      order := new OrderEntity.NewOrder(orderId, r.customerId, currency, now);
      var items: seq<OrderItem> := [];
      for i := 0 to |r.items|
        invariant |items| == i && items == RequestedItems(itemIds, r.items)[..i]
      {
        var item := OrderItem(itemIds[i], 0, r.items[i].productId, r.items[i].productName,
                              r.items[i].quantity, r.items[i].unitPrice, 0.0);
        item := item.(subtotal := Line(item.unitPrice, item.quantity));
        items := items + [item];
      }
      assert items == RequestedItems(itemIds, r.items);
      order.items := items;
      order.RecalculateTotals();
      if r.shippingAddress.Some? {
        var a := r.shippingAddress.value;
        order.shippingAddress := Some(ShippingAddress(a.street, a.city, a.state, a.postalCode, a.country));
      }
    }

    method Validate(r: CreateRequest) returns (valid: bool)
      ensures valid == ValidRequest(r)
    {
      if Blank(r.customerId) || |r.items| == 0 {
        return false;
      }
      for i := 0 to |r.items|
        invariant forall k :: 0 <= k < i ==> ValidItem(r.items[k])
      {
        var item := r.items[i];
        if Blank(item.productId) || Blank(item.productName) || item.quantity <= 0 || item.unitPrice <= 0.0 {
          return false;
        }
      }
      return r.shippingAddress.None? || ValidAddress(r.shippingAddress.value);
    }

    method UpdateOrderStatus(id: Uuid, req: UpdateRequest, now: Instant, persist: Instant, today: Instant,
                             readFails: bool, fault: Fault)
      returns (result: Result<OrderEntity>)
      requires store.Valid()
      modifies this, store
      ensures store.Valid() && (result.Ok? ==> fresh(result.value))
      ensures Answers(result, Answer(old(store.db), id, UpdateStatus(req, now, persist, today), readFails, fault))
      ensures store.db == if result.Ok? then Written(old(store.db), result.value.View()) else old(store.db)
      ensures attempts == old(attempts) +
                          if result.Ok? then Published(Announced(result.value.View(), UpdateStatus(req, now, persist, today)))
                          else []
      ensures |attempts| == |old(attempts)| +
                            if result.Ok? && hasPublisher && req.status.value in {Paid, Shipped, Completed} then 1 else 0
    {
      if req.status.None? {
        return Err(Invalid);
      }
      var got := store.Get(id, readFails);
      if got.Err? {
        return Err(got.error);
      }
      var order := got.value;
      var next := req.status.value;
      var current := order.status;
      if !current.CanTransitionTo(next) {
        return Err(InvalidTransition(order.status, next));
      }
      ApplyUpdate(order, next, req, now);
      var failed := store.Update(order, persist, fault);
      if failed.Some? {
        return Err(failed.value);
      }
      AnnounceUpdate(order, next, req, today);
      return Ok(order);
    }

    /** The assignments of UpdateOrderStatus. */
    method ApplyUpdate(order: OrderEntity, next: OrderStatus, req: UpdateRequest, now: Instant)
      requires req.status == Some(next) && order.status.CanTransitionTo(next)
      modifies order
      ensures forall persist, today ::
                order.View() == InMemory(old(order.View()), UpdateStatus(req, now, persist, today))
    {
      order.status := next;
      order.updatedAt := now;
      match next {
        case Paid =>
          order.paidAt := Some(now);
        case Shipped =>
          order.shippedAt := Some(now);
          order.trackingNumber := StringPtr(req.trackingNumber);
          order.carrier := StringPtr(req.carrier);
        case Completed =>
          order.completedAt := Some(now);
        case _ =>
      }
    }

    /** The events of UpdateOrderStatus. */
    method AnnounceUpdate(order: OrderEntity, next: OrderStatus, req: UpdateRequest, today: Instant)
      requires req.status == Some(next)
      modifies this`attempts
      ensures forall now, persist ::
                attempts == old(attempts) + Published(Announced(order.View(), UpdateStatus(req, now, persist, today)))
      ensures |attempts| == |old(attempts)| + if hasPublisher && next in {Paid, Shipped, Completed} then 1 else 0
    {
      if hasPublisher {
        match next {
          case Paid =>
            attempts := attempts + [OrderPaidEvent(order.id, req.paymentId, order.totalAmount, order.currency,
                                                   req.paymentMethod, TimeOrZero(order.paidAt))];
          case Shipped =>
            var delivery := req.estimatedDelivery;
            if delivery.None? {
              delivery := Some(today + FIVE_DAYS);
            }
            attempts := attempts + [OrderShippedEvent(order.id, StringValue(order.trackingNumber),
                                                      StringValue(order.carrier), TimeOrZero(order.shippedAt), delivery.value)];
          case Completed =>
            attempts := attempts + [OrderCompletedEvent(order.id, TimeOrZero(order.completedAt))];
          case _ =>
        }
      }
    }

    /** The assignments of CancelOrder. */
    method ApplyCancel(order: OrderEntity, reason: string, now: Instant)
      requires order.status != Shipped && order.status != Completed
      modifies order
      ensures forall who, persist :: order.View() == InMemory(old(order.View()), Cancel(reason, who, now, persist))
    {
      order.status := Cancelled;
      order.cancelledAt := Some(now);
      order.cancellationReason := StringPtr(reason);
      order.updatedAt := now;
    }

    method CancelOrder(id: Uuid, reason: string, cancelledBy: string, now: Instant, persist: Instant,
                       readFails: bool, fault: Fault)
      returns (result: Result<OrderEntity>)
      requires store.Valid()
      modifies this, store
      ensures store.Valid() && (result.Ok? ==> fresh(result.value))
      ensures Answers(result, Answer(old(store.db), id, Cancel(reason, cancelledBy, now, persist), readFails, fault))
      ensures store.db == if result.Ok? then Written(old(store.db), result.value.View()) else old(store.db)
      ensures attempts == old(attempts) +
                          if result.Ok? then Published(Announced(result.value.View(), Cancel(reason, cancelledBy, now, persist)))
                          else []
      ensures |attempts| == |old(attempts)| + if result.Ok? && hasPublisher then 1 else 0
    {
      var who := cancelledBy;
      if who == "" {
        who := "system";
      }
      var got := store.Get(id, readFails);
      if got.Err? {
        return Err(got.error);
      }
      var order := got.value;
      if order.status == Shipped || order.status == Completed {
        return Err(CancelNotAllowed(order.status));
      }
      ApplyCancel(order, reason, now);
      var failed := store.Update(order, persist, fault);
      if failed.Some? {
        return Err(failed.value);
      }
      if hasPublisher {
        attempts := attempts + [OrderCancelledEvent(order.id, StringValue(order.cancellationReason), who,
                                                    TimeOrZero(order.cancelledAt), true)];
      }
      return Ok(order);
    }
  }

  // ---------------------------------------------------------------- the service against the lifecycle

  /** On a readable order the service does what the lifecycle's calls do, with the store's outcome as the call's. */
  lemma ServiceTakesLifecycleSteps(db: Tables, id: Uuid, e: Edit, fault: Fault)
    requires id in db.orders
    ensures var o := Read(db, id).value;
            var c := Call(e, Refusal(o, e).None? && !Updatable(db, Edited(o, e), fault));
            var answer := Answer(db, id, e, false, fault);
            (answer.Ok? <==> Accepts(o, c))
            && (answer.Ok? ==> answer.value == Step(o, c) && Written(db, answer.value) == CallOn(db, id, c)
                               && Announced(answer.value, e) == Attempts(o, c))
            && (answer.Err? ==> CallOn(db, id, c) == db && Attempts(o, c) == [])
  {
  }

  lemma CreatedIsNew(r: CreateRequest, id: Uuid, itemIds: seq<Uuid>, now: Instant, persist: Instant)
    requires ValidRequest(r) && |itemIds| == |r.items| && id != 0 && 0 !in itemIds
    ensures var o := CreatedOrder(r, id, itemIds, now, persist);
            IsNew(o) && o.id == id && o.createdAt == now && o.updatedAt == persist
            && Priced(o.items) && o.totalAmount == Total(o.items)
            && (forall i :: 0 <= i < |o.items| ==>
                              o.items[i].subtotal == ItemLine(o.items[i]) && o.items[i].orderId == id
                              && o.items[i].unitPrice == r.items[i].unitPrice && o.items[i].quantity == r.items[i].quantity)
  {
    var placed, o := Placed(r, id, itemIds, now), CreatedOrder(r, id, itemIds, now, persist);
    var wanted := RequestedItems(itemIds, r.items);
    assert |o.items| == |wanted|;
    forall i | 0 <= i < |wanted|
      ensures ItemLine(o.items[i]) == ItemLine(wanted[i])
    {
      assert itemIds[i] in itemIds;
    }
    SameLinesSameTotal(wanted, o.items);
  }

  lemma SameLinesSameTotal(a: seq<OrderItem>, b: seq<OrderItem>)
    requires |a| == |b| && forall i :: 0 <= i < |a| ==> ItemLine(a[i]) == ItemLine(b[i])
    ensures Total(a) == Total(b)
  {
    SumPointwise(ItemLine, a, b);
  }

  /**
   The total CreateOrder returns and announces against the total every later Get returns:
   at most half the quantity of each line apart, in whole cents, and equal on whole-cent prices.
   */
  lemma CreateThenGet(db: Tables, r: CreateRequest, id: Uuid, itemIds: seq<Uuid>, now: Instant, persist: Instant,
                      fault: Fault, calls: seq<Call>)
    requires ForeignKey(db) && ValidRequest(r)
    requires |itemIds| == |r.items| && id != 0 && 0 !in itemIds
    requires Insertable(db, CreatedOrder(r, id, itemIds, now, persist), fault)
    ensures var o := CreatedOrder(r, id, itemIds, now, persist);
            var t := Inserted(db, o);
            id in t.orders && IsNew(Read(t, id).value)
            && var got := Read(CallsOn(t, id, calls), id);
            got.Some?
            && -Sum(HalfQuantity, o.items) <= got.value.totalAmount - o.totalAmount <= Sum(HalfQuantity, o.items)
            && (CentPrices(o.items) ==> got.value.totalAmount == o.totalAmount)
  {
    var o := CreatedOrder(r, id, itemIds, now, persist);
    CreatedIsNew(r, id, itemIds, now, persist);
    ReadBack(db, o, fault);
    ReadBackTotalClose(o);
    if CentPrices(o.items) {
      ReadBackTotalExact(o);
    }
    StoreRunsTheLifecycle(Inserted(db, o), id, calls);
    RunKeepsTotal(Read(Inserted(db, o), id).value, calls);
  }

  /**
   The whole life of an order, from the request that creates it through any uninterrupted calls:
   the events attempted are a word of the language, the row stays in the shape its status demands,
   and its stamps are set exactly for the events attempted.
   */
  lemma LifeOfAnOrder(db: Tables, r: CreateRequest, id: Uuid, itemIds: seq<Uuid>, now: Instant, persist: Instant,
                      fault: Fault, calls: seq<Call>)
    requires ForeignKey(db) && ValidRequest(r)
    requires |itemIds| == |r.items| && id != 0 && 0 !in itemIds
    requires Insertable(db, CreatedOrder(r, id, itemIds, now, persist), fault)
    ensures var o := CreatedOrder(r, id, itemIds, now, persist);
            var t := Inserted(db, o);
            id in t.orders && Read(CallsOn(t, id, calls), id).Some?
            && var last, w := Read(CallsOn(t, id, calls), id).value,
                              Types([CreatedEvent(o)] + Attempted(Read(t, id).value, calls));
            IsLifeWord(w) && Shaped(last)
            && (last.paidAt.Some? <==> OrderPaid in w) && (last.shippedAt.Some? <==> OrderShipped in w)
            && (last.completedAt.Some? <==> OrderCompleted in w) && (last.cancelledAt.Some? <==> OrderCancelled in w)
  {
    var o := CreatedOrder(r, id, itemIds, now, persist);
    CreatedIsNew(r, id, itemIds, now, persist);
    CreateThenGet(db, r, id, itemIds, now, persist, fault, calls);
    var t := Inserted(db, o);
    var born := Read(t, id).value;
    StoreRunsTheLifecycle(t, id, calls);
    RunAttemptsALifeWord(born, calls);
    RunIsShaped(born, calls);
    TypesConcat([CreatedEvent(o)], Attempted(born, calls));
    assert Types([CreatedEvent(o)]) == [OrderCreated];
  }
}
