/**
 The Java order service the Go one rewrites (src/main/java/com/shoppingcart/order/service/OrderService.java).
 Each of its methods is one transaction, in which the event is published before the commit.
 */
module JavaService {
  import opened Sums
  import opened Money
  import opened Orders
  import opened Lifecycle
  import opened Services

  /** A request's currency is null, here None, when absent; in Go it is then empty. */
  datatype JavaCreate = JavaCreate(
    customerId: string, items: seq<CreateItem>, shippingAddress: Option<ShippingAddress>, currency: Option<string>)

  datatype JavaUpdate = JavaUpdate(
    status: Option<OrderStatus>, paymentId: Option<string>, paymentMethod: Option<string>,
    trackingNumber: Option<string>, carrier: Option<string>, estimatedDelivery: Option<Time>)

  /** flush is the clock reading of the entity's persistence callbacks. */
  datatype JavaEdit =
    | JavaUpdateStatus(req: JavaUpdate, now: Instant, flush: Instant, today: Instant)
    | JavaCancel(reason: string, cancelledBy: string, now: Instant, flush: Instant)

  /** LocalDate.plusDays(1), in nanoseconds. */
  const JAVA_DAY: nat := 86_400_000_000_000

  /** Where a transaction may fail: in the save, in publishing, or when it commits. */
  datatype JavaFault = Fine | SaveThrows | PublishThrows | CommitFails

  /** What @NotBlank refuses: nothing is left after trim(), which takes off characters up to the space. */
  predicate JavaBlank(s: string) {
    forall i :: 0 <= i < |s| ==> s[i] <= ' '
  }

  /** The constraints the request class carries, checked where a request enters. */
  predicate JavaValid(r: JavaCreate) {
    !JavaBlank(r.customerId) && r.items != []
    && (forall i :: i in r.items ==>
                      !JavaBlank(i.productId) && !JavaBlank(i.productName) && i.quantity > 0 && i.unitPrice > 0.0)
    && (r.shippingAddress.Some? ==>
          var a := r.shippingAddress.value;
          !JavaBlank(a.street) && !JavaBlank(a.city) && !JavaBlank(a.state) && !JavaBlank(a.postalCode)
          && !JavaBlank(a.country))
  }

  /** The payloads Java publishes; a null string is None. */
  datatype JavaEvent =
    | JavaCreatedEvent(orderId: Uuid, customerId: string, items: seq<EventItem>, totalAmount: Decimal,
                       currency: string, address: Option<ShippingAddress>)
    | JavaPaidEvent(orderId: Uuid, paymentId: Option<string>, amount: Decimal, currency: string,
                    paymentMethod: Option<string>, paidAt: Time)
    | JavaShippedEvent(orderId: Uuid, trackingNumber: Option<string>, carrier: Option<string>, shippedAt: Time,
                       estimatedDelivery: Time)
    | JavaCompletedEvent(orderId: Uuid, completedAt: Time)
    | JavaCancelledEvent(orderId: Uuid, reason: Option<string>, cancelledBy: string, cancelledAt: Time,
                         refundInitiated: bool)

  /** validateStatusTransition does not throw. */
  predicate ValidTransition(from: OrderStatus, to: OrderStatus) {
    match from
    case Pending => to == Paid || to == Cancelled
    case Paid => to == Processing || to == Cancelled
    case Processing => to == Shipped || to == Cancelled
    case Shipped => to == Completed
    case Completed => false
    case Cancelled => false
  }

  /** The field initialisers of a new Order. */
  function NewOrder(id: Uuid): Order {
    Order(id, "", Pending, [], 0.0, "USD", None, None, None, 0, 0, None, None, None, None, None)
  }

  /** subtotal holds what getSubtotal computes. */
  function JavaItem(orderId: Uuid, id: Uuid, i: CreateItem): OrderItem {
    OrderItem(id, orderId, i.productId, i.productName, i.quantity, i.unitPrice, i.unitPrice * i.quantity as real)
  }

  function JavaItems(orderId: Uuid, ids: seq<Uuid>, items: seq<CreateItem>): seq<OrderItem>
    requires |ids| == |items|
  {
    seq(|items|, k requires 0 <= k < |items| => JavaItem(orderId, ids[k], items[k]))
  }

  /** The order createOrder returns: its total is exact. */
  function JavaCreated(r: JavaCreate, id: Uuid, itemIds: seq<Uuid>, flush: Instant): Order
    requires |itemIds| == |r.items|
  {
    var items := JavaItems(id, itemIds, r.items);
    Order(id, r.customerId, Pending, items, Sum(ItemExact, items),
          if r.currency.Some? then r.currency.value else "USD", r.shippingAddress, None, None, flush, flush,
          None, None, None, None, None)
  }

  function SavedItem(i: OrderItem): OrderItem {
    i.(unitPrice := Round2(i.unitPrice), subtotal := Round2(i.unitPrice) * i.quantity as real)
  }

  /** What the NUMERIC(10,2) columns keep of an order, and findById returns. */
  function Saved(o: Order): Order {
    o.(items := seq(|o.items|, i requires 0 <= i < |o.items| => SavedItem(o.items[i])), totalAmount := Round2(o.totalAmount))
  }

  predicate Throws(o: Order, e: JavaEdit) {
    match e
    case JavaUpdateStatus(req, _, _, _) => req.status.None? || !ValidTransition(o.status, req.status.value)
    case JavaCancel(_, _, _, _) => o.status == Shipped || o.status == Completed
  }

  /** The order as the setters leave it, before its update time is set. */
  function JavaApplied(o: Order, e: JavaEdit): Order
    requires !Throws(o, e)
  {
    match e
    case JavaUpdateStatus(req, now, _, _) =>
      var next := o.(status := req.status.value);
      (match req.status.value
       case Paid => next.(paidAt := Some(now))
       case Shipped => next.(shippedAt := Some(now), trackingNumber := req.trackingNumber, carrier := req.carrier)
       case Completed => next.(completedAt := Some(now))
       case _ => next)
    case JavaCancel(reason, _, now, _) =>
      o.(status := Cancelled, cancelledAt := Some(now), cancellationReason := Some(reason))
  }

  function JavaEdited(o: Order, e: JavaEdit): Order
    requires !Throws(o, e)
  {
    JavaApplied(o, e).(updatedAt := e.flush)
  }

  function JavaCreatedOf(o: Order): JavaEvent {
    JavaCreatedEvent(o.id, o.customerId, EventItems(o.items), o.totalAmount, o.currency, o.shippingAddress)
  }

  /** The event published of an order an edit has left as o, if any. */
  function JavaAnnounced(o: Order, e: JavaEdit): seq<JavaEvent> {
    match e
    case JavaUpdateStatus(req, _, _, today) =>
      (match req.status
       case Some(Paid) =>
         [JavaPaidEvent(o.id, req.paymentId, o.totalAmount, o.currency, req.paymentMethod, TimeOrZero(o.paidAt))]
       case Some(Shipped) =>
         [JavaShippedEvent(o.id, o.trackingNumber, o.carrier, TimeOrZero(o.shippedAt),
                           if req.estimatedDelivery.Some? then req.estimatedDelivery.value else today + 5 * JAVA_DAY)]
       case Some(Completed) => [JavaCompletedEvent(o.id, TimeOrZero(o.completedAt))]
       case _ => [])
    case JavaCancel(_, who, _, _) =>
      [JavaCancelledEvent(o.id, o.cancellationReason, who, TimeOrZero(o.cancelledAt), true)]
  }

  /** The transaction commits; one without an event does not notice a broken publisher. */
  predicate Committed(fault: JavaFault, es: seq<JavaEvent>) {
    fault == Fine || (fault == PublishThrows && es == [])
  }

  /** What has been published when the transaction is over: also what was published before a commit that failed. */
  function Sent(fault: JavaFault, es: seq<JavaEvent>): seq<JavaEvent> {
    if fault == Fine || fault == CommitFails then es else []
  }

  /**
   Publishing before the commit lets an event out for a change that is not stored: exactly when the commit is what fails.
   Otherwise what is sent is all or nothing, with what is stored.
   */
  lemma SentWithoutCommitExactly(fault: JavaFault, es: seq<JavaEvent>)
    requires es != []
    ensures Sent(fault, es) == es || Sent(fault, es) == []
    ensures Committed(fault, es) ==> Sent(fault, es) == es
    ensures Sent(fault, es) != [] && !Committed(fault, es) <==> fault == CommitFails
    ensures fault == Fine ==> Committed(fault, es)
  {
  }

  class OrderService {
    /** The repository: what findById returns. */
    var rows: map<Uuid, Order>
    var published: seq<JavaEvent>

    constructor ()
      ensures rows == map[] && published == []
    {
      rows, published := map[], [];
    }

    predicate Valid()
      reads this
    {
      forall id :: id in rows ==> rows[id].id == id
    }

    /** None when the transaction is rolled back. id and itemIds are the generated keys, given from the start. */
    method CreateOrder(r: JavaCreate, id: Uuid, itemIds: seq<Uuid>, flush: Instant, fault: JavaFault)
      returns (result: Option<OrderEntity>)
      requires Valid() && |itemIds| == |r.items|
      modifies this
      ensures Valid() && (result.Some? <==> fault == Fine)
      ensures result.Some? ==> fresh(result.value) && result.value.View() == JavaCreated(r, id, itemIds, flush)
      ensures rows == if fault == Fine then old(rows)[id := Saved(JavaCreated(r, id, itemIds, flush))] else old(rows)
      ensures published == old(published) + Sent(fault, [JavaCreatedOf(JavaCreated(r, id, itemIds, flush))])
    {
      var order := Build(r, id, itemIds, flush);
      if fault == SaveThrows || fault == PublishThrows {
        return None;
      }
      var items := ToEventItems(order.items);
      published := published + [JavaCreatedEvent(order.id, order.customerId, items, order.totalAmount, order.currency,
                                                 order.shippingAddress)];
      if fault == CommitFails {
        return None;
      }
      rows := rows[id := Saved(order.View())];
      return Some(order);
    }

    /** The order as it is saved. */
    method Build(r: JavaCreate, id: Uuid, itemIds: seq<Uuid>, flush: Instant) returns (order: OrderEntity)
      requires |itemIds| == |r.items|
      ensures fresh(order) && order.View() == JavaCreated(r, id, itemIds, flush)
    {
      order := Begin(r, id);
      AddItems(order, r.items, itemIds);
      SetAddress(order, r.shippingAddress);
      OnCreate(order, flush);
    }

    /** A new Order after its first setters. */
    method Begin(r: JavaCreate, id: Uuid) returns (order: OrderEntity)
      ensures fresh(order)
      ensures order.View() == Order(id, r.customerId, Pending, [], 0.0, if r.currency.Some? then r.currency.value else "USD",
                                    None, None, None, 0, 0, None, None, None, None, None)
    {
      order := new OrderEntity.Holding(NewOrder(id));
      order.customerId := r.customerId;
      order.status := Pending;
      order.currency := if r.currency.Some? then r.currency.value else "USD";
    }

    method SetAddress(order: OrderEntity, address: Option<ShippingAddress>)
      requires order.shippingAddress.None?
      modifies order`shippingAddress
      ensures order.shippingAddress == address
    {
      if address.Some? {
        var a := address.value;
        order.shippingAddress := Some(ShippingAddress(a.street, a.city, a.state, a.postalCode, a.country));
      }
    }

    /** The @PrePersist callback. */
    method OnCreate(order: OrderEntity, flush: Instant)
      modifies order`createdAt, order`updatedAt
      ensures order.createdAt == order.updatedAt == flush
    {
      order.createdAt := flush;
      order.updatedAt := order.createdAt;
    }

    method AddItems(order: OrderEntity, items: seq<CreateItem>, itemIds: seq<Uuid>)
      requires |itemIds| == |items| && order.items == []
      modifies order`items, order`totalAmount
      ensures order.items == JavaItems(order.id, itemIds, items) && order.totalAmount == Sum(ItemExact, order.items)
    {
      var total := 0.0;
      for i := 0 to |items|
        invariant |order.items| == i && order.items == JavaItems(order.id, itemIds, items)[..i]
        invariant total == Sum(ItemExact, order.items)
      {
        var item := JavaItem(order.id, itemIds[i], items[i]);
        SumAppend(ItemExact, order.items, item);
        order.items := order.items + [item];
        total := total + item.subtotal;
      }
      order.totalAmount := total;
    }

    method GetOrder(id: Uuid) returns (order: Option<OrderEntity>)
      requires Valid()
      ensures order.Some? <==> id in rows
      ensures order.Some? ==> fresh(order.value) && order.value.View() == rows[id]
    {
      if id !in rows {
        return None;
      }
      var found := new OrderEntity.Holding(rows[id]);
      return Some(found);
    }

    /** None when an exception is thrown, and then the rows are as they were. */
    method UpdateOrderStatus(id: Uuid, req: JavaUpdate, now: Instant, flush: Instant, today: Instant, fault: JavaFault)
      returns (result: Option<OrderEntity>)
      requires Valid()
      modifies this
      ensures Valid()
      ensures EditDone(old(rows), old(published), id, JavaUpdateStatus(req, now, flush, today), fault, result)
      ensures result.Some? ==> fresh(result.value)
    {
      var found := GetOrder(id);
      if found.None? {
        return None;
      }
      var order := found.value;
      if req.status.None? || !ValidTransition(order.status, req.status.value) {
        return None;
      }
      ApplyUpdate(order, req, now);
      if fault == SaveThrows {
        return None;
      }
      var ok := PublishUpdate(order, req, today, fault);
      if !ok {
        return None;
      }
      result := Commit(order, flush, fault);
    }

    /** What an edit answers, stores and publishes. */
    ghost predicate EditDone(before: map<Uuid, Order>, sent: seq<JavaEvent>, id: Uuid, e: JavaEdit, fault: JavaFault,
                             result: Option<OrderEntity>)
      reads this, if result.Some? then {result.value} else {}
    {
      if id !in before || Throws(before[id], e) then result.None? && rows == before && published == sent
      else
        var w := JavaEdited(before[id], e);
        var es := JavaAnnounced(w, e);
        (result.Some? <==> Committed(fault, es)) && published == sent + Sent(fault, es)
        && (result.Some? ==> result.value.View() == w)
        && rows == if result.Some? then before[id := w] else before
    }

    /** The setters of a valid update. */
    method ApplyUpdate(order: OrderEntity, req: JavaUpdate, now: Instant)
      requires req.status.Some? && ValidTransition(order.status, req.status.value)
      modifies order
      ensures forall flush, today :: order.View() == JavaApplied(old(order.View()), JavaUpdateStatus(req, now, flush, today))
    {
      order.status := req.status.value;
      match req.status.value {
        case Paid =>
          order.paidAt := Some(now);
        case Shipped =>
          order.shippedAt := Some(now);
          order.trackingNumber := req.trackingNumber;
          order.carrier := req.carrier;
        case Completed =>
          order.completedAt := Some(now);
        case _ =>
      }
    }

    /** The event of a valid update, if it has one. */
    method PublishUpdate(order: OrderEntity, req: JavaUpdate, today: Instant, fault: JavaFault) returns (ok: bool)
      requires req.status.Some? && fault != SaveThrows
      modifies this`published
      ensures forall now, flush ::
                var es := JavaAnnounced(order.View(), JavaUpdateStatus(req, now, flush, today));
                (ok <==> fault != PublishThrows || es == []) && published == old(published) + Sent(fault, es)
    {
      match req.status.value {
        case Paid =>
          ok := Publish(JavaPaidEvent(order.id, req.paymentId, order.totalAmount, order.currency, req.paymentMethod,
                                      TimeOrZero(order.paidAt)), fault);
        case Shipped =>
          var delivery := if req.estimatedDelivery.Some? then req.estimatedDelivery.value else today + 5 * JAVA_DAY;
          ok := Publish(JavaShippedEvent(order.id, order.trackingNumber, order.carrier, TimeOrZero(order.shippedAt),
                                         delivery), fault);
        case Completed =>
          ok := Publish(JavaCompletedEvent(order.id, TimeOrZero(order.completedAt)), fault);
        case _ =>
          ok := true;
      }
    }

    method Publish(e: JavaEvent, fault: JavaFault) returns (ok: bool)
      requires fault != SaveThrows
      modifies this`published
      ensures (ok <==> fault != PublishThrows) && published == old(published) + Sent(fault, [e])
    {
      if fault == PublishThrows {
        return false;
      }
      published := published + [e];
      return true;
    }

    /** The end of the transaction of an edit: onUpdate and the row; items and their prices are not changed. */
    method Commit(order: OrderEntity, flush: Instant, fault: JavaFault) returns (result: Option<OrderEntity>)
      requires Valid()
      modifies this`rows, order`updatedAt
      ensures Valid() && order.View() == old(order.View()).(updatedAt := flush)
      ensures result == if fault == CommitFails then None else Some(order)
      ensures rows == if fault == CommitFails then old(rows) else old(rows)[order.id := order.View()]
    {
      order.updatedAt := flush;
      if fault == CommitFails {
        return None;
      }
      rows := rows[order.id := order.View()];
      return Some(order);
    }

    method CancelOrder(id: Uuid, reason: string, cancelledBy: string, now: Instant, flush: Instant, fault: JavaFault)
      returns (result: Option<OrderEntity>)
      requires Valid()
      modifies this
      ensures Valid()
      ensures EditDone(old(rows), old(published), id, JavaCancel(reason, cancelledBy, now, flush), fault, result)
      ensures result.Some? ==> fresh(result.value)
    {
      var found := GetOrder(id);
      if found.None? {
        return None;
      }
      var order := found.value;
      if order.status == Shipped || order.status == Completed {
        return None;
      }
      ApplyCancel(order, reason, now);
      if fault == SaveThrows {
        return None;
      }
      var ok := Publish(JavaCancelledEvent(order.id, order.cancellationReason, cancelledBy,
                                           TimeOrZero(order.cancelledAt), true), fault);
      if !ok {
        return None;
      }
      result := Commit(order, flush, fault);
    }

    method ApplyCancel(order: OrderEntity, reason: string, now: Instant)
      requires order.status != Shipped && order.status != Completed
      modifies order
      ensures forall who, flush :: order.View() == JavaApplied(old(order.View()), JavaCancel(reason, who, now, flush))
    {
      order.status := Cancelled;
      order.cancelledAt := Some(now);
      order.cancellationReason := Some(reason);
    }
  }
}
