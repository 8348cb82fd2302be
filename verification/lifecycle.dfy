/**
 The edits an order can undergo (UpdateOrderStatus and CancelOrder of go/internal/order/service.go),
 the events they attempt, and what holds over every uninterrupted run of them.
 */
module Lifecycle {
  import opened Money
  import opened Orders

  /** status is None when the request names none of the six statuses. */
  datatype UpdateRequest = UpdateRequest(
    status: Option<OrderStatus>, paymentId: string, paymentMethod: string,
    trackingNumber: string, carrier: string, estimatedDelivery: Option<Time>)

  /** now is read by the service, persist by the store before it writes, today for a default delivery date. */
  datatype Edit =
    | UpdateStatus(req: UpdateRequest, now: Instant, persist: Instant, today: Instant)
    | Cancel(reason: string, cancelledBy: string, now: Instant, persist: Instant)

  const FIVE_DAYS: nat := 432_000_000_000_000

  datatype EventType = OrderCreated | OrderPaid | OrderShipped | OrderCompleted | OrderCancelled

  datatype EventItem = EventItem(productId: string, productName: string, quantity: int, unitPrice: Decimal)

  datatype Event =
    | OrderCreatedEvent(orderId: Uuid, customerId: string, items: seq<EventItem>, totalAmount: Decimal,
                        currency: string, address: Option<ShippingAddress>)
    | OrderPaidEvent(orderId: Uuid, paymentId: string, amount: Decimal, currency: string,
                     paymentMethod: string, paidAt: Time)
    | OrderShippedEvent(orderId: Uuid, trackingNumber: string, carrier: string, shippedAt: Time,
                        estimatedDelivery: Time)
    | OrderCompletedEvent(orderId: Uuid, completedAt: Time)
    | OrderCancelledEvent(orderId: Uuid, reason: string, cancelledBy: string, cancelledAt: Time,
                          refundInitiated: bool)

  function TypeOf(e: Event): EventType {
    match e
    case OrderCreatedEvent(_, _, _, _, _, _) => OrderCreated
    case OrderPaidEvent(_, _, _, _, _, _) => OrderPaid
    case OrderShippedEvent(_, _, _, _, _) => OrderShipped
    case OrderCompletedEvent(_, _) => OrderCompleted
    case OrderCancelledEvent(_, _, _, _, _) => OrderCancelled
  }

  function Types(es: seq<Event>): seq<EventType> {
    seq(|es|, i requires 0 <= i < |es| => TypeOf(es[i]))
  }

  /** Why an edit of o is refused, if it is. */
  function Refusal(o: Order, e: Edit): Option<Error> {
    match e
    case UpdateStatus(req, _, _, _) =>
      if req.status.None? then Some(Invalid)
      else if !o.status.CanTransitionTo(req.status.value) then Some(InvalidTransition(o.status, req.status.value))
      else None
    case Cancel(_, _, _, _) =>
      if o.status == Shipped || o.status == Completed then Some(CancelNotAllowed(o.status)) else None
  }

  /** The order as changed in memory, before the store stamps and writes it. */
  function InMemory(o: Order, e: Edit): Order
    requires Refusal(o, e).None?
  {
    match e
    case UpdateStatus(req, now, _, _) =>
      var next := o.(status := req.status.value, updatedAt := now);
      (match req.status.value
       case Paid => next.(paidAt := Some(now))
       case Shipped =>
         next.(shippedAt := Some(now), trackingNumber := StringPtr(req.trackingNumber), carrier := StringPtr(req.carrier))
       case Completed => next.(completedAt := Some(now))
       case _ => next)
    case Cancel(reason, _, now, _) =>
      o.(status := Cancelled, cancelledAt := Some(now), cancellationReason := StringPtr(reason), updatedAt := now)
  }

  /** UpdateTimestampsOnPersist. */
  function Stamped(o: Order, persist: Instant): Order {
    o.(createdAt := if o.createdAt == 0 then persist else o.createdAt, updatedAt := persist)
  }

  /** The order after an accepted edit has been written. */
  function Edited(o: Order, e: Edit): Order
    requires Refusal(o, e).None?
  {
    Stamped(InMemory(o, e), e.persist)
  }

  function TimeOrZero(t: Option<Time>): Time {
    if t.Some? then t.value else 0
  }

  /** The event attempted after the edit left the order as o, if any. */
  function Announced(o: Order, e: Edit): seq<Event> {
    match e
    case UpdateStatus(req, _, _, today) =>
      (match req.status
       case Some(Paid) =>
         [OrderPaidEvent(o.id, req.paymentId, o.totalAmount, o.currency, req.paymentMethod, TimeOrZero(o.paidAt))]
       case Some(Shipped) =>
         [OrderShippedEvent(o.id, StringValue(o.trackingNumber), StringValue(o.carrier), TimeOrZero(o.shippedAt),
                            if req.estimatedDelivery.Some? then req.estimatedDelivery.value else today + FIVE_DAYS)]
       case Some(Completed) => [OrderCompletedEvent(o.id, TimeOrZero(o.completedAt))]
       case _ => [])
    case Cancel(_, who, _, _) =>
      [OrderCancelledEvent(o.id, StringValue(o.cancellationReason), if who == "" then "system" else who,
                           TimeOrZero(o.cancelledAt), true)]
  }

  // ---------------------------------------------------------------- uninterrupted runs

  /** One call of the service; writeFails says the store reports an error and leaves the row alone. */
  datatype Call = Call(edit: Edit, writeFails: bool)

  predicate Accepts(o: Order, c: Call) {
    Refusal(o, c.edit).None? && !c.writeFails
  }

  function Step(o: Order, c: Call): Order {
    if Accepts(o, c) then Edited(o, c.edit) else o
  }

  function Attempts(o: Order, c: Call): seq<Event> {
    if Accepts(o, c) then Announced(Edited(o, c.edit), c.edit) else []
  }

  /** The order after the calls, one after the other. */
  function Run(o: Order, calls: seq<Call>): Order {
    if calls == [] then o else Step(Run(o, calls[..|calls| - 1]), calls[|calls| - 1])
  }

  /** The events attempted by those calls. */
  function Attempted(o: Order, calls: seq<Call>): seq<Event> {
    if calls == [] then []
    else Attempted(o, calls[..|calls| - 1]) + Attempts(Run(o, calls[..|calls| - 1]), calls[|calls| - 1])
  }

  /** A PENDING order as CreateOrder stores it. */
  predicate IsNew(o: Order) {
    o.status == Pending && o.createdAt != 0
    && o.paidAt.None? && o.shippedAt.None? && o.completedAt.None? && o.cancelledAt.None?
    && o.trackingNumber.None? && o.carrier.None? && o.cancellationReason.None?
  }

  /** Everything no edit may touch. */
  predicate SameOrder(a: Order, b: Order) {
    a.id == b.id && a.customerId == b.customerId && a.currency == b.currency && a.items == b.items
    && a.totalAmount == b.totalAmount && a.shippingAddress == b.shippingAddress && a.createdAt == b.createdAt
  }

  lemma {:induction false} RunKeepsOrder(o: Order, calls: seq<Call>)
    requires o.createdAt != 0
    ensures SameOrder(o, Run(o, calls))
  {
    if calls != [] {
      RunKeepsOrder(o, calls[..|calls| - 1]);
    }
  }

  // ---------------------------------------------------------------- the words of events

  predicate AllCancelled(w: seq<EventType>) {
    forall i :: 0 <= i < |w| ==> w[i] == OrderCancelled
  }

  /** created (cancelled* | paid (cancelled* | shipped completed?)) */
  predicate IsLifeWord(w: seq<EventType>) {
    |w| > 0 && w[0] == OrderCreated
    && (AllCancelled(w[1..])
        || (|w| > 1 && w[1] == OrderPaid
            && (AllCancelled(w[2..]) || w[2..] == [OrderShipped] || w[2..] == [OrderShipped, OrderCompleted])))
  }

  /** How the stored order and the events attempted since its creation hang together. */
  predicate Coupled(o: Order, w: seq<EventType>) {
    match o.status
    case Pending => w == [] && o.paidAt.None? && o.shippedAt.None? && o.completedAt.None? && o.cancelledAt.None?
    case Paid => w == [OrderPaid] && o.paidAt.Some? && o.shippedAt.None? && o.completedAt.None? && o.cancelledAt.None?
    case Processing => w == [OrderPaid] && o.paidAt.Some? && o.shippedAt.None? && o.completedAt.None? && o.cancelledAt.None?
    case Shipped =>
      w == [OrderPaid, OrderShipped]
      && o.paidAt.Some? && o.shippedAt.Some? && o.completedAt.None? && o.cancelledAt.None?
    case Completed =>
      w == [OrderPaid, OrderShipped, OrderCompleted]
      && o.paidAt.Some? && o.shippedAt.Some? && o.completedAt.Some? && o.cancelledAt.None?
    case Cancelled =>
      var paid := if o.paidAt.Some? then 1 else 0;
      paid <= |w| && w[..paid] == [OrderPaid][..paid] && AllCancelled(w[paid..])
      && (o.cancelledAt.Some? <==> |w| > paid) && o.shippedAt.None? && o.completedAt.None?
  }

  lemma TypesConcat(a: seq<Event>, b: seq<Event>)
    ensures Types(a + b) == Types(a) + Types(b)
  {
  }

  lemma {:induction false} RunIsCoupled(o: Order, calls: seq<Call>)
    requires IsNew(o)
    ensures Coupled(Run(o, calls), Types(Attempted(o, calls)))
  {
    if calls != [] {
      var init, last := calls[..|calls| - 1], calls[|calls| - 1];
      RunIsCoupled(o, init);
      var w := Types(Attempted(o, init));
      TypesConcat(Attempted(o, init), Attempts(Run(o, init), last));
      CoupledStep(Run(o, init), w, last);
    }
  }

  lemma CoupledStep(o: Order, w: seq<EventType>, c: Call)
    requires Coupled(o, w)
    ensures Coupled(Step(o, c), w + Types(Attempts(o, c)))
  {
    var t := Types(Attempts(o, c));
    if Accepts(o, c) {
      if c.edit.Cancel? {
        assert t == [OrderCancelled];
        var paid := if o.paidAt.Some? then 1 else 0;
        assert (w + t)[paid..] == w[paid..] + t;
      } else if c.edit.req.status == Some(Cancelled) {
        assert w + t == w;
      }
    } else {
      assert w + t == w;
    }
  }

  /**
   Every run of an order attempts a word of the language, and each of the four time stamps is set
   exactly when its event is in the word.
   */
  lemma RunAttemptsALifeWord(o: Order, calls: seq<Call>)
    requires IsNew(o)
    ensures IsLifeWord([OrderCreated] + Types(Attempted(o, calls)))
    ensures Run(o, calls).paidAt.Some? <==> OrderPaid in Types(Attempted(o, calls))
    ensures Run(o, calls).shippedAt.Some? <==> OrderShipped in Types(Attempted(o, calls))
    ensures Run(o, calls).completedAt.Some? <==> OrderCompleted in Types(Attempted(o, calls))
    ensures Run(o, calls).cancelledAt.Some? <==> OrderCancelled in Types(Attempted(o, calls))
  {
    RunIsCoupled(o, calls);
    var r, w := Run(o, calls), Types(Attempted(o, calls));
    var life := [OrderCreated] + w;
    assert life[1..] == w;
    if r.status == Cancelled {
      if r.paidAt.Some? {
        assert w[0] == w[..1][0] == OrderPaid;
        assert life[2..] == w[1..];
        assert forall i :: 1 <= i < |w| ==> w[i] == w[1..][i - 1];
        if |w| > 1 {
          assert w[1] == OrderCancelled;
        }
      } else {
        assert w[0..] == w;
        if |w| > 0 {
          assert w[0] == OrderCancelled;
        }
      }
    } else if |w| > 0 {
      assert life[2..] == w[1..];
    }
  }

  /** A call that moves an order to s, all its readings being at. */
  function To(s: OrderStatus, at: Instant): Call {
    Call(UpdateStatus(UpdateRequest(Some(s), "", "", "", "", None), at, at, at), false)
  }

  function CancelNow(at: Instant): Call {
    Call(Cancel("", "", at, at), false)
  }

  predicate AllAt(calls: seq<Call>, at: Instant) {
    forall i :: 0 <= i < |calls| ==> calls[i].edit.now == calls[i].edit.persist == at
  }

  lemma {:induction false} AllAtTicks(calls: seq<Call>, start: Time, at: Instant)
    requires start <= at && AllAt(calls, at)
    ensures Ticking(start, calls) && LastReading(start, calls) <= at
  {
    if calls != [] {
      AllAtTicks(calls[..|calls| - 1], start, at);
    }
  }

  function StatusAfter(w: seq<EventType>): OrderStatus {
    if w == [] then Pending
    else match w[|w| - 1]
      case OrderPaid => Paid
      case OrderShipped => Shipped
      case OrderCompleted => Completed
      case _ => Cancelled
  }

  lemma {:induction false} AppendCall(o: Order, calls: seq<Call>, c: Call)
    ensures Run(o, calls + [c]) == Step(Run(o, calls), c)
    ensures Attempted(o, calls + [c]) == Attempted(o, calls) + Attempts(Run(o, calls), c)
  {
    assert (calls + [c])[..|calls|] == calls;
  }

  lemma PrefixOfLifeWord(w: seq<EventType>)
    requires w != [] && IsLifeWord([OrderCreated] + w)
    ensures IsLifeWord([OrderCreated] + w[..|w| - 1])
  {
    var life, shorter := [OrderCreated] + w, [OrderCreated] + w[..|w| - 1];
    assert life[1..] == w && shorter[1..] == w[..|w| - 1];
    if !AllCancelled(w) && |w| > 1 {
      assert life[2..] == w[1..] && shorter[2..] == w[1..][..|w| - 2];
      assert life[1] == w[0] == shorter[1];
      assert w[1..] == [OrderShipped] ==> shorter[2..] == [];
      assert w[1..] == [OrderShipped, OrderCompleted] ==> shorter[2..] == [OrderShipped];
      assert AllCancelled(w[1..]) ==> AllCancelled(shorter[2..]);
    }
  }

  predicate MayFollow(s: OrderStatus, e: EventType) {
    match e
    case OrderPaid => s == Pending
    case OrderShipped => s == Paid
    case OrderCompleted => s == Shipped
    case OrderCancelled => s == Pending || s == Paid || s == Cancelled
    case OrderCreated => false
  }

  /** What may follow a word: the next event is the one its status allows. */
  lemma NextEvent(w: seq<EventType>)
    requires w != [] && IsLifeWord([OrderCreated] + w)
    ensures MayFollow(StatusAfter(w[..|w| - 1]), w[|w| - 1])
  {
    var life := [OrderCreated] + w;
    assert life[1..] == w;
    if |w| > 1 {
      assert life[2..] == w[1..];
      assert life[1] == w[0];
      assert forall i :: 1 <= i < |w| ==> w[i] == w[1..][i - 1];
    }
  }

  /** The event a status update attempts. */
  function EventFor(s: OrderStatus): seq<EventType> {
    match s
    case Paid => [OrderPaid]
    case Shipped => [OrderShipped]
    case Completed => [OrderCompleted]
    case _ => []
  }

  lemma OneUpdate(o: Order, s: OrderStatus, at: Instant)
    requires o.status.CanTransitionTo(s)
    ensures Step(o, To(s, at)).status == s
    ensures Types(Attempts(o, To(s, at))) == EventFor(s)
  {
  }

  lemma OneCancel(o: Order, at: Instant)
    requires o.status !in {Shipped, Completed}
    ensures Step(o, CancelNow(at)).status == Cancelled
    ensures Types(Attempts(o, CancelNow(at))) == [OrderCancelled]
  {
  }

  lemma ExtendTypes(o: Order, calls: seq<Call>, c: Call)
    ensures Run(o, calls + [c]) == Step(Run(o, calls), c)
    ensures Types(Attempted(o, calls + [c])) == Types(Attempted(o, calls)) + Types(Attempts(Run(o, calls), c))
  {
    AppendCall(o, calls, c);
    TypesConcat(Attempted(o, calls), Attempts(Run(o, calls), c));
  }

  lemma ExtendByUpdate(o: Order, before: seq<Call>, s: OrderStatus, at: Instant) returns (calls: seq<Call>)
    requires AllAt(before, at) && Run(o, before).status.CanTransitionTo(s)
    ensures AllAt(calls, at) && Run(o, calls).status == s
    ensures Types(Attempted(o, calls)) == Types(Attempted(o, before)) + EventFor(s)
  {
    calls := before + [To(s, at)];
    ExtendTypes(o, before, To(s, at));
    OneUpdate(Run(o, before), s, at);
  }

  lemma ExtendByCancel(o: Order, before: seq<Call>, at: Instant) returns (calls: seq<Call>)
    requires AllAt(before, at) && Run(o, before).status !in {Shipped, Completed}
    ensures AllAt(calls, at) && Run(o, calls).status == Cancelled
    ensures Types(Attempted(o, calls)) == Types(Attempted(o, before)) + [OrderCancelled]
  {
    calls := before + [CancelNow(at)];
    ExtendTypes(o, before, CancelNow(at));
    OneCancel(Run(o, before), at);
  }

  lemma NextRealised(o: Order, before: seq<Call>, e: EventType, at: Instant) returns (calls: seq<Call>)
    requires AllAt(before, at) && MayFollow(Run(o, before).status, e)
    ensures Types(Attempted(o, calls)) == Types(Attempted(o, before)) + [e]
    ensures AllAt(calls, at) && Run(o, calls).status == StatusAfter([e])
  {
    match e
    case OrderPaid => calls := ExtendByUpdate(o, before, Paid, at);
    case OrderShipped =>
      calls := ExtendByUpdate(o, before, Processing, at);
      calls := ExtendByUpdate(o, calls, Shipped, at);
    case OrderCompleted => calls := ExtendByUpdate(o, before, Completed, at);
    case OrderCancelled => calls := ExtendByCancel(o, before, at);
  }

  /** Conversely every word of the language is attempted by some run of every new order, the clock not going back. */
  lemma EveryLifeWordIsAttempted(o: Order, w: seq<EventType>, at: Instant) returns (calls: seq<Call>)
    requires IsNew(o) && IsLifeWord([OrderCreated] + w) && o.updatedAt <= at
    ensures Types(Attempted(o, calls)) == w
    ensures Run(o, calls).status == StatusAfter(w)
    ensures Ticking(o.updatedAt, calls)
  {
    calls := LifeWordAt(o, w, at);
    AllAtTicks(calls, o.updatedAt, at);
  }

  lemma {:induction false} LifeWordAt(o: Order, w: seq<EventType>, at: Instant) returns (calls: seq<Call>)
    requires IsNew(o) && IsLifeWord([OrderCreated] + w)
    ensures Types(Attempted(o, calls)) == w
    ensures AllAt(calls, at) && Run(o, calls).status == StatusAfter(w)
  {
    if w == [] {
      calls := [];
    } else {
      var init, last := w[..|w| - 1], w[|w| - 1];
      PrefixOfLifeWord(w);
      calls := LifeWordAt(o, init, at);
      NextEvent(w);
      calls := NextRealised(o, calls, last, at);
      assert w == init + [last];
    }
  }

  // ---------------------------------------------------------------- the language, one event at a time

  /** An event that may come next, after the last one or first of all. */
  predicate Due(last: Option<EventType>, e: EventType) {
    match last
    case None => e == OrderCreated
    case Some(OrderCreated) => e == OrderPaid || e == OrderCancelled
    case Some(OrderPaid) => e == OrderShipped || e == OrderCancelled
    case Some(OrderShipped) => e == OrderCompleted
    case Some(OrderCompleted) => false
    case Some(OrderCancelled) => e == OrderCancelled
  }

  function LastOf(w: seq<EventType>): Option<EventType> {
    if w == [] then None else Some(w[|w| - 1])
  }

  predicate EachDue(w: seq<EventType>) {
    forall i :: 0 <= i < |w| ==> Due(LastOf(w[..i]), w[i])
  }

  lemma DueAppend(w: seq<EventType>, e: EventType)
    ensures EachDue(w + [e]) <==> EachDue(w) && Due(LastOf(w), e)
  {
    var longer := w + [e];
    assert longer[..|w|] == w && longer[|w|] == e;
    assert forall i :: 0 <= i < |w| ==> longer[..i] == w[..i] && longer[i] == w[i];
  }

  lemma ExtendLifeWord(w: seq<EventType>, e: EventType)
    requires IsLifeWord(w)
    ensures IsLifeWord(w + [e]) <==> Due(LastOf(w), e)
  {
    var longer, n := w + [e], |w|;
    assert longer[1..] == w[1..] + [e] && longer[1..][n - 1] == e;
    if n > 1 {
      assert longer[1] == w[1] == w[1..][0];
      assert w[n - 1] == w[1..][n - 2];
      if w[1] == OrderPaid {
        var t := w[2..];
        assert longer[2..] == t + [e] && longer[2..][n - 2] == e;
        if t != [] {
          assert w[n - 1] == t[n - 3] && longer[2..][0] == t[0];
        }
      } else {
        assert AllCancelled(w[1..]) && longer[1..][0] != OrderPaid;
        assert forall i :: 0 <= i < n - 1 ==> longer[1..][i] == w[1..][i];
      }
    }
  }

  lemma ShorterLifeWord(w: seq<EventType>, e: EventType)
    requires w != [] && IsLifeWord(w + [e])
    ensures IsLifeWord(w)
  {
    assert w + [e] == [OrderCreated] + (w + [e])[1..];
    PrefixOfLifeWord((w + [e])[1..]);
    assert [OrderCreated] + (w + [e])[1..][..|w| - 1] == w;
  }

  /** A word is of the language exactly when each event in it was due after the one before. */
  lemma {:induction false} LifeWordExactly(w: seq<EventType>)
    ensures IsLifeWord(w) <==> w != [] && EachDue(w)
  {
    if |w| == 1 {
      assert w[..0] == [];
    } else if w != [] {
      var init, last := w[..|w| - 1], w[|w| - 1];
      assert w == init + [last];
      LifeWordExactly(init);
      DueAppend(init, last);
      if IsLifeWord(w) {
        ShorterLifeWord(init, last);
      }
      if IsLifeWord(init) {
        ExtendLifeWord(init, last);
      }
    }
  }

  // ---------------------------------------------------------------- what the events carry

  /** The amount, currency and order of an event are those of the order it was created with. */
  predicate FaithfulTo(o: Order, e: Event) {
    e.orderId == o.id
    && (e.OrderPaidEvent? ==> e.amount == o.totalAmount && e.currency == o.currency)
  }

  lemma {:induction false} EventsAreFaithful(o: Order, calls: seq<Call>)
    requires o.createdAt != 0
    ensures forall i :: 0 <= i < |Attempted(o, calls)| ==> FaithfulTo(o, Attempted(o, calls)[i])
  {
    if calls != [] {
      EventsAreFaithful(o, calls[..|calls| - 1]);
      RunKeepsOrder(o, calls[..|calls| - 1]);
    }
  }

  // ---------------------------------------------------------------- shapes

  /** The shape a status demands of the rest of the row. */
  predicate Shaped(o: Order) {
    (o.status in {Paid, Processing, Shipped, Completed} ==> o.paidAt.Some?)
    && (o.status == Pending ==> o.paidAt.None?)
    && (o.shippedAt.Some? <==> o.status in {Shipped, Completed})
    && (o.completedAt.Some? <==> o.status == Completed)
    && (o.cancelledAt.Some? ==> o.status == Cancelled)
    && (o.cancellationReason.Some? ==> o.cancelledAt.Some?)
    && (o.trackingNumber.Some? || o.carrier.Some? ==> o.shippedAt.Some?)
  }

  lemma StepKeepsShape(o: Order, c: Call)
    requires Shaped(o)
    ensures Shaped(Step(o, c))
  {
  }

  lemma {:induction false} RunIsShaped(o: Order, calls: seq<Call>)
    requires IsNew(o)
    ensures Shaped(Run(o, calls))
  {
    if calls != [] {
      RunIsShaped(o, calls[..|calls| - 1]);
      StepKeepsShape(Run(o, calls[..|calls| - 1]), calls[|calls| - 1]);
    }
  }

  // ---------------------------------------------------------------- time

  predicate Before(a: Option<Time>, b: Option<Time>) {
    a.Some? && b.Some? ==> a.value <= b.value
  }

  /** created <= paid <= shipped <= completed <= updated and paid <= cancelled <= updated, over those set. */
  predicate TimesOrdered(o: Order) {
    var created, updated := Some(o.createdAt), Some(o.updatedAt);
    Before(created, updated) && Before(created, o.paidAt) && Before(o.paidAt, o.shippedAt)
    && Before(o.shippedAt, o.completedAt) && Before(o.completedAt, updated) && Before(o.shippedAt, updated)
    && Before(o.paidAt, updated) && Before(created, o.cancelledAt) && Before(o.paidAt, o.cancelledAt)
    && Before(o.cancelledAt, updated)
  }

  function LastReading(start: Time, calls: seq<Call>): Time {
    if calls == [] then start else calls[|calls| - 1].edit.persist
  }

  /** The clock never goes back: start, then the two readings of each call in turn. */
  predicate Ticking(start: Time, calls: seq<Call>) {
    calls != [] ==>
      var init, last := calls[..|calls| - 1], calls[|calls| - 1];
      Ticking(start, init) && LastReading(start, init) <= last.edit.now <= last.edit.persist
  }

  lemma StepOrdersTimes(o: Order, c: Call)
    requires Shaped(o) && TimesOrdered(o) && o.createdAt != 0
    requires o.updatedAt <= c.edit.now <= c.edit.persist
    ensures TimesOrdered(Step(o, c)) && Step(o, c).updatedAt <= c.edit.persist
  {
  }

  lemma {:induction false} RunOrdersTimes(o: Order, calls: seq<Call>, start: Time)
    requires IsNew(o) && o.createdAt <= o.updatedAt <= start && Ticking(start, calls)
    ensures TimesOrdered(Run(o, calls)) && Run(o, calls).updatedAt <= LastReading(start, calls)
  {
    if calls != [] {
      var init := calls[..|calls| - 1];
      RunOrdersTimes(o, init, start);
      RunKeepsOrder(o, init);
      RunIsShaped(o, init);
      StepOrdersTimes(Run(o, init), calls[|calls| - 1]);
    }
  }

  /** The status an edit asks for. */
  function Target(e: Edit): OrderStatus {
    if e.Cancel? then Cancelled else if e.req.status.Some? then e.req.status.value else Pending
  }

  lemma EditedHasTarget(o: Order, e: Edit)
    requires Refusal(o, e).None?
    ensures Edited(o, e).status == Target(e)
  {
  }

  // ---------------------------------------------------------------- progress

  function Rank(s: OrderStatus): nat {
    match s
    case Pending => 0
    case Paid => 1
    case Processing => 2
    case Shipped => 3
    case Completed => 4
    case Cancelled => 4
  }

  /** An accepted status update strictly raises the rank; an accepted cancel never lowers it. */
  lemma AcceptedEditsProgress(o: Order, e: Edit)
    requires Refusal(o, e).None?
    ensures e.UpdateStatus? ==> Rank(Edited(o, e).status) > Rank(o.status)
    ensures e.Cancel? ==> Rank(Edited(o, e).status) >= Rank(o.status) && Edited(o, e).status == Cancelled
  {
  }

  function AcceptedUpdates(o: Order, calls: seq<Call>): nat {
    if calls == [] then 0
    else
      var init, last := calls[..|calls| - 1], calls[|calls| - 1];
      AcceptedUpdates(o, init) + if last.edit.UpdateStatus? && Accepts(Run(o, init), last) then 1 else 0
  }

  /** However long the run, an order takes at most four status updates. */
  lemma {:induction false} AtMostFourUpdates(o: Order, calls: seq<Call>)
    ensures AcceptedUpdates(o, calls) + Rank(o.status) <= Rank(Run(o, calls).status) <= 4
    ensures AcceptedUpdates(o, calls) <= 4
  {
    if calls != [] {
      var init, last := calls[..|calls| - 1], calls[|calls| - 1];
      AtMostFourUpdates(o, init);
      if Accepts(Run(o, init), last) {
        AcceptedEditsProgress(Run(o, init), last.edit);
      }
    }
  }

  /** COMPLETED and CANCELLED are never left, at any later point of any run. */
  lemma {:induction false} TerminalIsNeverLeft(o: Order, calls: seq<Call>, more: seq<Call>)
    requires Run(o, calls).status in {Completed, Cancelled}
    ensures Run(o, calls + more).status == Run(o, calls).status
  {
    if more == [] {
      assert calls + more == calls;
    } else {
      var init := more[..|more| - 1];
      assert (calls + more)[..|calls + more| - 1] == calls + init;
      TerminalIsNeverLeft(o, calls, init);
    }
  }

  // ---------------------------------------------------------------- chains of accepted edits

  /** The order a chain of accepted edits produces; None if one of them would be refused. */
  function Replay(o: Order, edits: seq<Edit>): Option<Order> {
    if edits == [] then Some(o)
    else
      var before, last := Replay(o, edits[..|edits| - 1]), edits[|edits| - 1];
      if before.Some? && Refusal(before.value, last).None? then Some(Edited(before.value, last)) else None
  }

  function AsCalls(edits: seq<Edit>): seq<Call> {
    seq(|edits|, i requires 0 <= i < |edits| => Call(edits[i], false))
  }

  /** A chain is a run in which nothing is refused. */
  lemma {:induction false} ReplayIsRun(o: Order, edits: seq<Edit>)
    requires Replay(o, edits).Some?
    ensures Run(o, AsCalls(edits)) == Replay(o, edits).value
  {
    if edits != [] {
      ReplayIsRun(o, edits[..|edits| - 1]);
      assert AsCalls(edits)[..|edits| - 1] == AsCalls(edits[..|edits| - 1]);
    }
  }

  /** Conversely, what a run leaves is what the chain of its accepted edits produces. */
  function AcceptedEdits(o: Order, calls: seq<Call>): seq<Edit> {
    if calls == [] then []
    else
      var init, last := calls[..|calls| - 1], calls[|calls| - 1];
      AcceptedEdits(o, init) + if Accepts(Run(o, init), last) then [last.edit] else []
  }

  lemma {:induction false} RunIsReplay(o: Order, calls: seq<Call>)
    ensures Replay(o, AcceptedEdits(o, calls)) == Some(Run(o, calls))
  {
    if calls != [] {
      var init, last := calls[..|calls| - 1], calls[|calls| - 1];
      RunIsReplay(o, init);
      if Accepts(Run(o, init), last) {
        assert AcceptedEdits(o, calls)[..|AcceptedEdits(o, calls)| - 1] == AcceptedEdits(o, init);
      } else {
        assert AcceptedEdits(o, calls) == AcceptedEdits(o, init);
      }
    }
  }

  // ---------------------------------------------------------------- a CANCELLED order without a cancellation time

  /** A status update can cancel a new order without setting the cancellation time or attempting an event. */
  lemma CancelledWithoutTime(o: Order, at: Instant)
    requires IsNew(o)
    ensures var r := Run(o, [To(Cancelled, at)]);
            r.status == Cancelled && r.cancelledAt.None? && Attempted(o, [To(Cancelled, at)]) == []
  {
    assert [To(Cancelled, at)][..0] == [];
  }

  /** The cancellation time is set exactly when a cancel was among the edits accepted. */
  lemma {:induction false} CancelTimeExactly(o: Order, calls: seq<Call>)
    requires IsNew(o)
    ensures Run(o, calls).cancelledAt.Some? <==> exists e :: e in AcceptedEdits(o, calls) && e.Cancel?
  {
    if calls != [] {
      var init, last := calls[..|calls| - 1], calls[|calls| - 1];
      CancelTimeExactly(o, init);
      if Accepts(Run(o, init), last) {
        assert forall e :: e in AcceptedEdits(o, calls) <==> e in AcceptedEdits(o, init) || e == last.edit;
      } else {
        assert AcceptedEdits(o, calls) == AcceptedEdits(o, init);
      }
    }
  }
}
