/** The Go service against the Java service it rewrites: the same requests, to both, one after the other. */
module Rewrite {
  import opened Sums
  import opened Money
  import opened Orders
  import opened Lifecycle
  import opened DbTables
  import opened Inserts
  import opened Store
  import opened Services
  import opened JavaService

  /** A request as both services receive it, with the ids and clock readings they get. */
  datatype Op =
    | CreateOp(request: JavaCreate, id: Uuid, itemIds: seq<Uuid>, now: Instant, persist: Instant)
    | UpdateOp(id: Uuid, req: JavaUpdate, now: Instant, persist: Instant, today: Instant)
    | CancelOp(id: Uuid, reason: string, cancelledBy: string, now: Instant, persist: Instant)

  /** A service and its store: what it holds, what it has published, and which requests it has accepted. */
  datatype Side<T, E> = Side(store: T, published: seq<E>, accepted: seq<bool>)

  type GoSide = Side<Tables, Event>

  type JavaSide = Side<map<Uuid, Order>, JavaEvent>

  function GoCreate(r: JavaCreate): CreateRequest {
    CreateRequest(r.customerId, r.items, r.shippingAddress, StringValue(r.currency))
  }

  function GoUpdate(r: JavaUpdate): UpdateRequest {
    UpdateRequest(r.status, StringValue(r.paymentId), StringValue(r.paymentMethod), StringValue(r.trackingNumber),
                  StringValue(r.carrier), r.estimatedDelivery)
  }

  function GoEdit(op: Op): Edit
    requires !op.CreateOp?
  {
    if op.UpdateOp? then UpdateStatus(GoUpdate(op.req), op.now, op.persist, op.today)
    else Cancel(op.reason, op.cancelledBy, op.now, op.persist)
  }

  function JavaEditOf(op: Op): JavaEdit
    requires !op.CreateOp?
  {
    if op.UpdateOp? then JavaUpdateStatus(op.req, op.now, op.persist, op.today)
    else JavaCancel(op.reason, op.cancelledBy, op.now, op.persist)
  }

  predicate GoodIds(op: Op) {
    op.CreateOp? ==> |op.itemIds| == |op.request.items| && op.id != 0 && 0 !in op.itemIds
  }

  function GoOrder(op: Op): Order
    requires op.CreateOp? && GoodIds(op)
  {
    CreatedOrder(GoCreate(op.request), op.id, op.itemIds, op.now, op.persist)
  }

  function GoStep(g: GoSide, op: Op): GoSide
    requires GoodIds(op)
  {
    if op.CreateOp? then
      if ValidRequest(GoCreate(op.request)) then
        Side(Inserted(g.store, GoOrder(op)), g.published + [CreatedEvent(GoOrder(op))], g.accepted + [true])
      else g.(accepted := g.accepted + [false])
    else if op.CancelOp? && Blank(op.reason) then g.(accepted := g.accepted + [false])
    else
      match Answer(g.store, op.id, GoEdit(op), false, NoFault)
      case Ok(o) => Side(Written(g.store, o), g.published + Announced(o, GoEdit(op)), g.accepted + [true])
      case Err(_) => g.(accepted := g.accepted + [false])
  }

  function JavaOrder(op: Op): Order
    requires op.CreateOp? && GoodIds(op)
  {
    JavaCreated(op.request, op.id, op.itemIds, op.persist)
  }

  function JavaStep(j: JavaSide, op: Op): JavaSide
    requires GoodIds(op)
  {
    if op.CreateOp? then
      if JavaValid(op.request) then
        Side(j.store[op.id := Saved(JavaOrder(op))], j.published + [JavaCreatedOf(JavaOrder(op))], j.accepted + [true])
      else j.(accepted := j.accepted + [false])
    else if op.CancelOp? && JavaBlank(op.reason) then j.(accepted := j.accepted + [false])
    else if op.id !in j.store || Throws(j.store[op.id], JavaEditOf(op)) then j.(accepted := j.accepted + [false])
    else
      var o := JavaEdited(j.store[op.id], JavaEditOf(op));
      Side(j.store[op.id := o], j.published + JavaAnnounced(o, JavaEditOf(op)), j.accepted + [true])
  }

  // ---------------------------------------------------------------- the methods take these steps

  /** A call of the Go service, behind its validation, with a store and a publisher that work, is a step of its side. */
  method GoTakes(service: Service, op: Op, ghost g: GoSide) returns (accepted: bool)
    requires service.store.Valid() && service.hasPublisher && GoodIds(op)
    requires g.store == service.store.db && g.published == service.attempts && Commits(g.store, op)
    modifies service, service.store
    ensures service.store.Valid()
    ensures Side(service.store.db, service.attempts, g.accepted + [accepted]) == GoStep(g, op)
  {
    match op {
      case CreateOp(request, id, itemIds, now, persist) =>
        var r := service.CreateOrder(GoCreate(request), id, itemIds, now, persist, NoFault);
        accepted := r.Ok?;
      case UpdateOp(id, req, now, persist, today) =>
        var r := service.UpdateOrderStatus(id, GoUpdate(req), now, persist, today, false, NoFault);
        accepted := r.Ok?;
      case CancelOp(id, reason, who, now, persist) =>
        accepted := false;
        if !Blank(reason) {
          var r := service.CancelOrder(id, reason, who, now, persist, false, NoFault);
          accepted := r.Ok?;
        }
    }
  }

  /** A call of the Java service, behind its validation, in a transaction that works, is a step of its side. */
  method JavaTakes(service: OrderService, op: Op, ghost j: JavaSide) returns (accepted: bool)
    requires service.Valid() && GoodIds(op)
    requires j.store == service.rows && j.published == service.published
    modifies service
    ensures service.Valid()
    ensures Side(service.rows, service.published, j.accepted + [accepted]) == JavaStep(j, op)
  {
    match op {
      case CreateOp(request, id, itemIds, _, persist) =>
        accepted := JavaValid(request);
        if accepted {
          var r := service.CreateOrder(request, id, itemIds, persist, Fine);
        }
      case UpdateOp(id, req, now, persist, today) =>
        var r := service.UpdateOrderStatus(id, req, now, persist, today, Fine);
        accepted := r.Some?;
      case CancelOp(id, reason, who, now, persist) =>
        accepted := false;
        if !JavaBlank(reason) {
          var r := service.CancelOrder(id, reason, who, now, persist, Fine);
          accepted := r.Some?;
        }
    }
  }

  /** The store does its part: what the service accepts commits. */
  ghost predicate Commits(db: Tables, op: Op)
    requires GoodIds(op)
  {
    if op.CreateOp? then ValidRequest(GoCreate(op.request)) ==> Insertable(db, GoOrder(op), NoFault)
    else op.id in db.orders && !(op.CancelOp? && Blank(op.reason)) ==>
           var o := Read(db, op.id).value;
           Refusal(o, GoEdit(op)).None? ==> Updatable(db, Edited(o, GoEdit(op)), NoFault)
  }

  predicate AllGoodIds(ops: seq<Op>) {
    forall i :: 0 <= i < |ops| ==> GoodIds(ops[i])
  }

  function GoRun(ops: seq<Op>): GoSide
    requires AllGoodIds(ops)
  {
    if ops == [] then Side(Tables(map[], map[]), [], []) else GoStep(GoRun(ops[..|ops| - 1]), ops[|ops| - 1])
  }

  function JavaRun(ops: seq<Op>): JavaSide
    requires AllGoodIds(ops)
  {
    if ops == [] then Side(map[], [], []) else JavaStep(JavaRun(ops[..|ops| - 1]), ops[|ops| - 1])
  }

  ghost predicate Working(ops: seq<Op>)
    requires AllGoodIds(ops)
  {
    ops != [] ==> Working(ops[..|ops| - 1]) && Commits(GoRun(ops[..|ops| - 1]).store, ops[|ops| - 1])
  }

  // ---------------------------------------------------------------- how an order looks on both sides

  /** Go stores an empty string as none. */
  function Normal(s: Option<string>): Option<string> {
    StringPtr(StringValue(s))
  }

  /** Half a cent. */
  function UnitError(i: OrderItem): Decimal {
    0.005 * i.quantity as real
  }

  predicate TotalsClose(items: seq<OrderItem>, go: Decimal, java: Decimal, cents: bool) {
    -(Sum(UnitError, items) + 0.005) <= go - java <= Sum(UnitError, items) + 0.005
    && (cents ==> go == java)
  }

  predicate SameDetails(go: Order, java: Order) {
    go.id == java.id && go.customerId == java.customerId && go.shippingAddress == java.shippingAddress
    && go.currency == (if java.currency == "" then "USD" else java.currency)
    && go.trackingNumber == Normal(java.trackingNumber) && go.carrier == Normal(java.carrier)
    && go.cancellationReason == Normal(java.cancellationReason) && go.createdAt != 0
  }

  /** One order as the two services hold it, but for the total. */
  predicate Twins(go: Order, java: Order) {
    go.status == java.status && go.paidAt == java.paidAt && go.shippedAt == java.shippedAt
    && go.completedAt == java.completedAt && go.cancelledAt == java.cancelledAt && go.updatedAt == java.updatedAt
    && SameDetails(go, java)
  }

  ghost predicate AllTwins(got: map<Uuid, Order>, rows: map<Uuid, Order>, cents: bool) {
    got.Keys == rows.Keys
    && (forall id :: id in rows ==> Twins(got[id], rows[id]))
    && (forall id :: id in rows ==> TotalsClose(got[id].items, got[id].totalAmount, rows[id].totalAmount, cents))
    && (forall id :: id in rows ==> SameLines(got[id].items, rows[id].items))
  }

  /** The same lines in some order. */
  predicate SameLines(go: seq<OrderItem>, java: seq<OrderItem>) {
    multiset(LinesOf(go)) == multiset(LinesOf(java))
  }

  ghost predicate Agree(g: GoSide, j: JavaSide, cents: bool) {
    ForeignKey(g.store) && SameEvents(g.published, j.published, cents) && g.accepted == j.accepted
    && AllTwins(Reads(g.store), j.store, cents)
  }

  /** A Java event as Go would announce it: no null, no empty currency and no empty canceller. */
  function AsGo(e: JavaEvent): Event {
    match e
    case JavaCreatedEvent(id, customer, items, total, currency, address) =>
      OrderCreatedEvent(id, customer, items, total, if currency == "" then "USD" else currency, address)
    case JavaPaidEvent(id, payment, amount, currency, means, at) =>
      OrderPaidEvent(id, StringValue(payment), amount, if currency == "" then "USD" else currency, StringValue(means), at)
    case JavaShippedEvent(id, tracking, carrier, at, delivery) =>
      OrderShippedEvent(id, StringValue(tracking), StringValue(carrier), at, delivery)
    case JavaCompletedEvent(id, at) => OrderCompletedEvent(id, at)
    case JavaCancelledEvent(id, reason, who, at, refund) =>
      OrderCancelledEvent(id, StringValue(reason), if who == "" then "system" else who, at, refund)
  }

  /** A Go event as it stands, in Java's terms. */
  function Verbatim(e: Event): JavaEvent {
    match e
    case OrderCreatedEvent(id, customer, items, total, currency, address) =>
      JavaCreatedEvent(id, customer, items, total, currency, address)
    case OrderPaidEvent(id, payment, amount, currency, means, at) =>
      JavaPaidEvent(id, Some(payment), amount, currency, Some(means), at)
    case OrderShippedEvent(id, tracking, carrier, at, delivery) =>
      JavaShippedEvent(id, Some(tracking), Some(carrier), at, delivery)
    case OrderCompletedEvent(id, at) => JavaCompletedEvent(id, at)
    case OrderCancelledEvent(id, reason, who, at, refund) => JavaCancelledEvent(id, Some(reason), who, at, refund)
  }

  /** No string of the event is null where Go has an empty one, or empty where Go has a default. */
  predicate Explicit(e: JavaEvent) {
    match e
    case JavaCreatedEvent(_, _, _, _, currency, _) => currency != ""
    case JavaPaidEvent(_, payment, _, currency, means, _) => payment.Some? && means.Some? && currency != ""
    case JavaShippedEvent(_, tracking, carrier, _, _) => tracking.Some? && carrier.Some?
    case JavaCompletedEvent(_, _) => true
    case JavaCancelledEvent(_, reason, who, _, _) => reason.Some? && who != ""
  }

  function WithoutAmount(e: Event): Event {
    match e
    case OrderCreatedEvent(_, _, _, _, _, _) => e.(totalAmount := 0.0)
    case OrderPaidEvent(_, _, _, _, _, _) => e.(amount := 0.0)
    case _ => e
  }

  function JavaWithoutAmount(e: JavaEvent): JavaEvent {
    match e
    case JavaCreatedEvent(_, _, _, _, _, _) => e.(totalAmount := 0.0)
    case JavaPaidEvent(_, _, _, _, _, _) => e.(amount := 0.0)
    case _ => e
  }

  /** The same but for nulls and defaults, the amount on whole-cent prices. */
  predicate SameEvent(go: Event, java: JavaEvent, cents: bool) {
    WithoutAmount(go) == WithoutAmount(AsGo(java)) && (cents ==> go == AsGo(java))
  }

  predicate SameEvents(go: seq<Event>, java: seq<JavaEvent>, cents: bool) {
    |go| == |java| && forall i :: 0 <= i < |go| ==> SameEvent(go[i], java[i], cents)
  }

  ghost predicate WholeCents(ops: seq<Op>) {
    forall i, k :: 0 <= i < |ops| && ops[i].CreateOp? && 0 <= k < |ops[i].request.items| ==>
                     CentExact(ops[i].request.items[k].unitPrice)
  }

  // ---------------------------------------------------------------- the two validators

  /** The quantities and prices of a request are as both validators want them. */
  predicate Sized(r: JavaCreate) {
    r.items != [] && forall i :: i in r.items ==> i.quantity > 0 && i.unitPrice > 0.0
  }

  /** Some text of the request has the property. */
  predicate SomeText(r: JavaCreate, p: string -> bool) {
    p(r.customerId) || (exists i :: i in r.items && (p(i.productId) || p(i.productName)))
    || (r.shippingAddress.Some?
        && var a := r.shippingAddress.value;
        p(a.street) || p(a.city) || p(a.state) || p(a.postalCode) || p(a.country))
  }

  lemma GoValidity(r: JavaCreate)
    ensures ValidRequest(GoCreate(r)) <==> Sized(r) && !SomeText(r, Blank)
  {
    assert forall i :: 0 <= i < |r.items| ==> r.items[i] in r.items;
  }

  lemma JavaValidity(r: JavaCreate)
    ensures JavaValid(r) <==> Sized(r) && !SomeText(r, JavaBlank)
  {
  }

  /**
   The two validators answer a request alike if and only if, its quantities and prices being fine, both find a blank
   text in it or neither does.
   */
  lemma ValidatorsAgreeExactly(r: JavaCreate)
    ensures (JavaValid(r) <==> ValidRequest(GoCreate(r))) <==>
            (Sized(r) ==> (SomeText(r, Blank) <==> SomeText(r, JavaBlank)))
  {
    GoValidity(r);
    JavaValidity(r);
  }

  /** Only Java takes a customer named by a no-break space, and only Go one named by a control character. */
  lemma ValidatorsDiffer(item: CreateItem)
    requires !Blank(item.productId) && !JavaBlank(item.productId) && !Blank(item.productName) && !JavaBlank(item.productName)
    requires item.quantity > 0 && item.unitPrice > 0.0
    ensures var r := JavaCreate("\U{A0}", [item], None, None); JavaValid(r) && !ValidRequest(GoCreate(r))
    ensures var r := JavaCreate("\U{01}", [item], None, None); !JavaValid(r) && ValidRequest(GoCreate(r))
  {
    assert "\U{A0}"[0] > ' ' && !IsSpace("\U{01}"[0]);
  }

  /** The texts of the request are blank to both services or to neither. */
  predicate SameBlanks(op: Op) {
    match op
    case CreateOp(r, _, _, _, _) => Sized(r) ==> (SomeText(r, Blank) <==> SomeText(r, JavaBlank))
    case UpdateOp(_, _, _, _, _) => true
    case CancelOp(_, reason, _, _, _) => Blank(reason) <==> JavaBlank(reason)
  }

  // ---------------------------------------------------------------- the two payloads

  /** Two events that match are the same payload, but for the amount, exactly when Java's leaves nothing to null or default. */
  lemma SamePayloadExactly(go: Event, java: JavaEvent, cents: bool)
    requires SameEvent(go, java, cents)
    ensures JavaWithoutAmount(Verbatim(go)) == JavaWithoutAmount(java) <==> Explicit(java)
    ensures cents ==> (Verbatim(go) == java <==> Explicit(java))
  {
  }

  /** What a request must say for its events to be the same payload: every string they carry. */
  predicate SaysAll(op: Op) {
    match op
    case CreateOp(r, _, _, _, _) => r.currency != Some("")
    case UpdateOp(_, req, _, _, _) =>
      (req.status == Some(Paid) ==> req.paymentId.Some? && req.paymentMethod.Some?)
      && (req.status == Some(Shipped) ==> req.trackingNumber.Some? && req.carrier.Some?)
    case CancelOp(_, _, who, _, _) => who != ""
  }

  /** An accepted edit of an order with a currency publishes nothing implicit exactly when the request says it all. */
  lemma EditIsExplicitExactly(o: Order, op: Op)
    requires !op.CreateOp? && o.currency != "" && !Throws(o, JavaEditOf(op))
    ensures (forall e :: e in JavaAnnounced(JavaEdited(o, JavaEditOf(op)), JavaEditOf(op)) ==> Explicit(e)) <==> SaysAll(op)
  {
    var es := JavaAnnounced(JavaEdited(o, JavaEditOf(op)), JavaEditOf(op));
    if es != [] {
      assert es[0] in es && es == [es[0]];
    }
  }

  predicate AllExplicit(j: JavaSide) {
    (forall i :: 0 <= i < |j.published| ==> Explicit(j.published[i]))
    && forall id :: id in j.store ==> j.store[id].currency != ""
  }

  lemma StepIsExplicit(j: JavaSide, op: Op)
    requires AllExplicit(j) && GoodIds(op) && SaysAll(op)
    ensures AllExplicit(JavaStep(j, op))
  {
    if !op.CreateOp? && op.id in j.store && !Throws(j.store[op.id], JavaEditOf(op)) {
      EditIsExplicitExactly(j.store[op.id], op);
    }
  }

  lemma {:induction false} RunIsExplicit(ops: seq<Op>)
    requires AllGoodIds(ops) && forall i :: 0 <= i < |ops| ==> SaysAll(ops[i])
    ensures AllExplicit(JavaRun(ops))
  {
    if ops != [] {
      RunIsExplicit(ops[..|ops| - 1]);
      StepIsExplicit(JavaRun(ops[..|ops| - 1]), ops[|ops| - 1]);
    }
  }

  /** The order and the event Java makes of a request carry the request, line by line. */
  lemma JavaAsAsked(op: Op)
    requires op.CreateOp? && GoodIds(op)
    ensures var o, e, r := JavaOrder(op), JavaCreatedOf(JavaOrder(op)), op.request;
            o.id == e.orderId == op.id && o.customerId == e.customerId == r.customerId && o.status == Pending
            && o.currency == e.currency && (r.currency.None? ==> o.currency == "USD")
            && (r.currency.Some? ==> o.currency == r.currency.value)
            && o.shippingAddress == e.address == r.shippingAddress && |o.items| == |e.items| == |r.items|
            && o.totalAmount == e.totalAmount == Sum(ItemExact, o.items)
            && forall k :: 0 <= k < |r.items| ==>
                             o.items[k].productId == e.items[k].productId == r.items[k].productId
                             && o.items[k].productName == e.items[k].productName == r.items[k].productName
                             && o.items[k].quantity == e.items[k].quantity == r.items[k].quantity
                             && o.items[k].unitPrice == e.items[k].unitPrice == r.items[k].unitPrice
  {
  }

  // ---------------------------------------------------------------- the two totals

  lemma UnitClose(price: Decimal, q: int, unit: Decimal)
    requires 0 < q && unit == 0.005 * q as real
    ensures -unit <= Round2(price) * q as real - price * q as real <= unit
  {
    RoundingCharacterised(price, Round2(price));
    var a, b := Round2(price), price;
    ScaledGap(q as real, a, b + 0.005, a * q as real, b * q as real + unit) by {
      Distribute(q as real, b, 0.005);
    }
    ScaledGap(q as real, b - 0.005, a, b * q as real - unit, a * q as real) by {
      Distribute(q as real, b, -0.005);
    }
  }

  lemma StoredLineIsExact(i: OrderItem)
    ensures StoredLine(i) == Round2(i.unitPrice) * i.quantity as real
  {
    RoundFixesExactly(i.unitPrice);
    ExactLine(Round2(i.unitPrice), i.quantity);
  }

  lemma StoredLineNearExact(i: OrderItem)
    requires 0 < i.quantity
    ensures -UnitError(i) <= StoredLine(i) - ItemExact(i) <= UnitError(i)
  {
    StoredLineIsExact(i);
    UnitClose(i.unitPrice, i.quantity, UnitError(i));
  }

  /** The total Go reads back against the total Java has in its column. */
  lemma StoredTotalsClose(p: Order, stored: seq<OrderItem>, exact: Decimal)
    requires forall i :: i in p.items ==> 0 < i.quantity
    requires multiset(stored) == multiset(StoredItems(p)) && exact == Sum(ItemExact, p.items)
    ensures -(Sum(UnitError, stored) + 0.005) <= Total(stored) - Round2(exact) <= Sum(UnitError, stored) + 0.005
    ensures CentPrices(p.items) ==> Total(stored) == Round2(exact)
  {
    StoredTotal(p);
    TotalIgnoresOrder(stored, StoredItems(p));
    SumPermuted(UnitError, stored, StoredItems(p));
    SumPointwise(UnitError, StoredItems(p), p.items);
    forall x | x in p.items
      ensures -UnitError(x) <= StoredLine(x) - ItemExact(x) <= UnitError(x)
    {
      StoredLineNearExact(x);
    }
    SumClose(StoredLine, ItemExact, UnitError, p.items);
    RoundingCharacterised(exact, Round2(exact));
    if CentPrices(p.items) {
      ReadBackTotalExact(p);
      TotalExactOnCents(p.items);
      FinalRoundingIsIdentity(p.items);
      RoundFixesExactly(exact);
    }
  }

  // ---------------------------------------------------------------- one request

  lemma ExactTotalsMeet(op: Op)
    requires op.CreateOp? && GoodIds(op) && ValidRequest(GoCreate(op.request))
    ensures Sum(ItemExact, GoOrder(op).items) == JavaOrder(op).totalAmount
  {
    CreatedIsNew(GoCreate(op.request), op.id, op.itemIds, op.now, op.persist);
    SameExactTotal(GoOrder(op).items, JavaItems(op.id, op.itemIds, op.request.items));
  }

  lemma SameExactTotal(a: seq<OrderItem>, b: seq<OrderItem>)
    requires |a| == |b|
    requires forall i :: 0 <= i < |a| ==> a[i].unitPrice == b[i].unitPrice && a[i].quantity == b[i].quantity
    ensures Sum(ItemExact, a) == Sum(ItemExact, b)
  {
    forall i | 0 <= i < |a|
      ensures ItemExact(a[i]) == ItemExact(b[i])
    {
      assert a[i].quantity as real == b[i].quantity as real;
    }
    SumPointwise(ItemExact, a, b);
  }

  /** The totals the two services return for one request are within half a cent a line, and equal on whole-cent prices. */
  lemma ReturnedTotalsClose(op: Op)
    requires op.CreateOp? && GoodIds(op) && ValidRequest(GoCreate(op.request))
    ensures var go, java := GoOrder(op).totalAmount, JavaOrder(op).totalAmount;
            -(0.005 * |op.request.items| as real) <= go - java <= 0.005 * |op.request.items| as real
            && (WholeCents([op]) ==> go == java)
  {
    var o := GoOrder(op);
    CreatedIsNew(GoCreate(op.request), op.id, op.itemIds, op.now, op.persist);
    ExactTotalsMeet(op);
    TotalNearExact(o.items);
    if WholeCents([op]) {
      assert [op][0] == op;
      TotalExactOnCents(o.items);
    }
  }

  lemma CreatedLines(op: Op, stored: Order)
    requires op.CreateOp? && GoodIds(op) && ValidRequest(GoCreate(op.request))
    requires multiset(stored.items) == multiset(StoredItems(GoOrder(op)))
    ensures SameLines(stored.items, Saved(JavaOrder(op)).items)
  {
    var o := GoOrder(op);
    MapPermuted(LineOf, stored.items, StoredItems(o), LinesOf(stored.items), LinesOf(StoredItems(o)));
    assert LinesOf(StoredItems(o)) == LinesOf(Saved(JavaOrder(op)).items);
  }

  lemma CreatedTwins(op: Op, stored: Order, cents: bool)
    requires op.CreateOp? && GoodIds(op) && ValidRequest(GoCreate(op.request)) && (cents ==> WholeCents([op]))
    requires multiset(stored.items) == multiset(StoredItems(GoOrder(op))) && stored.totalAmount == Total(stored.items)
    requires stored == GoOrder(op).(items := stored.items, totalAmount := stored.totalAmount)
    ensures var java := Saved(JavaOrder(op));
            Twins(stored, java) && TotalsClose(stored.items, stored.totalAmount, java.totalAmount, cents)
            && SameLines(stored.items, java.items)
  {
    var o := GoOrder(op);
    CreatedLines(op, stored);
    CreatedIsNew(GoCreate(op.request), op.id, op.itemIds, op.now, op.persist);
    ExactTotalsMeet(op);
    if cents {
      assert [op][0] == op;
      assert CentPrices(o.items);
    }
    StoredTotalsClose(o, stored.items, Sum(ItemExact, o.items));
  }

  lemma CreateAgrees(g: GoSide, j: JavaSide, op: Op, cents: bool)
    requires Agree(g, j, cents) && op.CreateOp? && GoodIds(op) && Commits(g.store, op) && (cents ==> WholeCents([op]))
    requires SameBlanks(op)
    ensures Agree(GoStep(g, op), JavaStep(j, op), cents)
  {
    ValidatorsAgreeExactly(op.request);
    if ValidRequest(GoCreate(op.request)) {
      CreationKeepsTwins(g.store, j.store, op, cents);
      InsertKeepsForeignKey(g.store, GoOrder(op), NoFault);
      CreationAnnounced(op, cents);
      MoreEvents(g.published, j.published, [CreatedEvent(GoOrder(op))], [JavaCreatedOf(JavaOrder(op))], cents);
    }
  }

  lemma MoreEvents(a: seq<Event>, b: seq<JavaEvent>, c: seq<Event>, d: seq<JavaEvent>, cents: bool)
    requires SameEvents(a, b, cents) && SameEvents(c, d, cents)
    ensures SameEvents(a + c, b + d, cents)
  {
  }

  lemma CreationAnnounced(op: Op, cents: bool)
    requires op.CreateOp? && GoodIds(op) && ValidRequest(GoCreate(op.request)) && (cents ==> WholeCents([op]))
    ensures SameEvents([CreatedEvent(GoOrder(op))], [JavaCreatedOf(JavaOrder(op))], cents)
  {
    ReturnedTotalsClose(op);
    SameEventItems(GoOrder(op).items, JavaOrder(op).items);
  }

  lemma SameEventItems(a: seq<OrderItem>, b: seq<OrderItem>)
    requires |a| == |b|
    requires forall i :: 0 <= i < |a| ==> a[i].productId == b[i].productId && a[i].productName == b[i].productName
                                          && a[i].quantity == b[i].quantity && a[i].unitPrice == b[i].unitPrice
    ensures EventItems(a) == EventItems(b)
  {
  }

  lemma CreationKeepsTwins(db: Tables, rows: map<Uuid, Order>, op: Op, cents: bool)
    requires AllTwins(Reads(db), rows, cents) && op.CreateOp? && GoodIds(op) && ValidRequest(GoCreate(op.request))
    requires ForeignKey(db) && Insertable(db, GoOrder(op), NoFault) && (cents ==> WholeCents([op]))
    ensures AllTwins(Reads(Inserted(db, GoOrder(op))), rows[op.id := Saved(JavaOrder(op))],
                     cents)
  {
    var stored := StoredTwin(db, op);
    CreatedTwins(op, stored, cents);
    OneMoreTwin(Reads(db), rows, op.id, stored, Saved(JavaOrder(op)), cents);
  }

  lemma StoredTwin(db: Tables, op: Op) returns (stored: Order)
    requires op.CreateOp? && GoodIds(op) && ForeignKey(db) && Insertable(db, GoOrder(op), NoFault)
    ensures Reads(Inserted(db, GoOrder(op))) == Reads(db)[op.id := stored]
    ensures multiset(stored.items) == multiset(StoredItems(GoOrder(op))) && stored.totalAmount == Total(stored.items)
    ensures stored == GoOrder(op).(items := stored.items, totalAmount := stored.totalAmount)
  {
    var o := GoOrder(op);
    ReadsAfterInsert(db, o, NoFault);
    ReadBack(db, o, NoFault);
    stored := Read(Inserted(db, o), op.id).value;
    TotalIgnoresOrder(stored.items, StoredItems(o));
  }

  /** On twins both services refuse an edit or neither, and make twins again. */
  lemma EditKeepsTwins(go: Order, java: Order, op: Op)
    requires Twins(go, java) && !op.CreateOp?
    ensures Refusal(go, GoEdit(op)).Some? <==> Throws(java, JavaEditOf(op))
    ensures Refusal(go, GoEdit(op)).None? ==> Twins(Edited(go, GoEdit(op)), JavaEdited(java, JavaEditOf(op)))
  {
    if Refusal(go, GoEdit(op)).None? {
      if op.UpdateOp? {
        UpdateKeepsTwins(go, java, op.req, op.now, op.persist, op.today);
      } else {
        CancelKeepsTwins(go, java, op.reason, op.cancelledBy, op.now, op.persist);
      }
    }
  }

  lemma UpdateKeepsTwins(go: Order, java: Order, req: JavaUpdate, now: Instant, persist: Instant, today: Instant)
    requires Twins(go, java) && req.status.Some? && go.status.CanTransitionTo(req.status.value)
    ensures Twins(Edited(go, UpdateStatus(GoUpdate(req), now, persist, today)),
                  JavaEdited(java, JavaUpdateStatus(req, now, persist, today)))
  {
  }

  lemma CancelKeepsTwins(go: Order, java: Order, reason: string, who: string, now: Instant, persist: Instant)
    requires Twins(go, java) && go.status != Shipped && go.status != Completed
    ensures Twins(Edited(go, Cancel(reason, who, now, persist)), JavaEdited(java, JavaCancel(reason, who, now, persist)))
  {
  }

  lemma EditKeepsClose(go: Order, java: Order, op: Op, cents: bool)
    requires !op.CreateOp? && Refusal(go, GoEdit(op)).None? && !Throws(java, JavaEditOf(op))
    requires TotalsClose(go.items, go.totalAmount, java.totalAmount, cents)
    ensures var w := Edited(go, GoEdit(op));
            TotalsClose(w.items, w.totalAmount, JavaEdited(java, JavaEditOf(op)).totalAmount, cents)
            && w.items == go.items && JavaEdited(java, JavaEditOf(op)).items == java.items
  {
    EditKeepsItems(go, GoEdit(op));
    assert JavaEdited(java, JavaEditOf(op)).totalAmount == java.totalAmount;
  }

  lemma SameAnnouncement(go: Order, java: Order, op: Op, cents: bool)
    requires !op.CreateOp? && Twins(go, java) && (cents ==> go.totalAmount == java.totalAmount)
    ensures SameEvents(Announced(go, GoEdit(op)), JavaAnnounced(java, JavaEditOf(op)), cents)
  {
    if op.UpdateOp? {
      SameUpdateAnnouncement(go, java, op.req, op.now, op.persist, op.today, cents);
    }
  }

  lemma SameUpdateAnnouncement(go: Order, java: Order, req: JavaUpdate, now: Instant, persist: Instant, today: Instant,
                               cents: bool)
    requires Twins(go, java) && (cents ==> go.totalAmount == java.totalAmount)
    ensures SameEvents(Announced(go, UpdateStatus(GoUpdate(req), now, persist, today)),
                       JavaAnnounced(java, JavaUpdateStatus(req, now, persist, today)), cents)
  {
    var a, b := Announced(go, UpdateStatus(GoUpdate(req), now, persist, today)),
                JavaAnnounced(java, JavaUpdateStatus(req, now, persist, today));
    if req.status == Some(Paid) {
      SamePaid(go, java, req, cents);
    } else if req.status == Some(Shipped) {
      assert a[0] == AsGo(b[0]);
    }
  }

  lemma SamePaid(go: Order, java: Order, req: JavaUpdate, cents: bool)
    requires Twins(go, java) && (cents ==> go.totalAmount == java.totalAmount)
    ensures SameEvent(
              OrderPaidEvent(go.id, StringValue(req.paymentId), go.totalAmount, go.currency, StringValue(req.paymentMethod),
                             TimeOrZero(go.paidAt)),
              JavaPaidEvent(java.id, req.paymentId, java.totalAmount, java.currency, req.paymentMethod, TimeOrZero(java.paidAt)),
              cents)
  {
  }

  lemma TwinEdited(got: map<Uuid, Order>, rows: map<Uuid, Order>, op: Op, cents: bool)
    requires AllTwins(got, rows, cents) && !op.CreateOp? && op.id in got && Refusal(got[op.id], GoEdit(op)).None?
    ensures !Throws(rows[op.id], JavaEditOf(op))
    ensures AllTwins(got[op.id := Edited(got[op.id], GoEdit(op))],
                     rows[op.id := JavaEdited(rows[op.id], JavaEditOf(op))], cents)
  {
    EditKeepsTwins(got[op.id], rows[op.id], op);
    EditKeepsClose(got[op.id], rows[op.id], op, cents);
    OneMoreTwin(got, rows, op.id, Edited(got[op.id], GoEdit(op)), JavaEdited(rows[op.id], JavaEditOf(op)), cents);
  }

  lemma OneMoreTwin(got: map<Uuid, Order>, rows: map<Uuid, Order>, id: Uuid, go: Order, java: Order, cents: bool)
    requires AllTwins(got, rows, cents) && Twins(go, java)
    requires TotalsClose(go.items, go.totalAmount, java.totalAmount, cents) && SameLines(go.items, java.items)
    ensures AllTwins(got[id := go], rows[id := java], cents)
  {
  }

  lemma EditAgrees(g: GoSide, j: JavaSide, op: Op, cents: bool)
    requires Agree(g, j, cents) && !op.CreateOp? && Commits(g.store, op) && SameBlanks(op)
    ensures Agree(GoStep(g, op), JavaStep(j, op), cents)
  {
    if op.id in j.store && !(op.CancelOp? && Blank(op.reason)) {
      var o := Reads(g.store)[op.id];
      assert op.id in g.store.orders && o == Read(g.store, op.id).value;
      EditKeepsTwins(o, j.store[op.id], op);
      if Refusal(o, GoEdit(op)).None? {
        TwinEdited(Reads(g.store), j.store, op, cents);
        EditKeepsItems(o, GoEdit(op));
        ReadIsNormal(g.store, op.id);
        EditReadsBack(g.store, op.id, GoEdit(op));
        ReadsAfterWrite(g.store, Edited(o, GoEdit(op)));
        var java := j.store[op.id];
        EditKeepsClose(o, java, op, cents);
        SameAnnouncement(Edited(o, GoEdit(op)), JavaEdited(java, JavaEditOf(op)), op, cents);
        MoreEvents(g.published, j.published, Announced(Edited(o, GoEdit(op)), GoEdit(op)),
                   JavaAnnounced(JavaEdited(java, JavaEditOf(op)), JavaEditOf(op)), cents);
      }
    }
  }

  /**
   For every sequence of creates, status updates and cancels, over any number of orders, with stores and publishers
   that work, and texts that both services find blank or neither: both accept the same requests, publish the same
   events in the same order with the same payload but for amounts, nulls and defaults, and hold the same orders in the
   same status with the same lines, stamps, reasons and tracking; their totals never differ by more than half a cent a unit
   and another half, and no amount at all when every price is whole cents.
   */
  lemma {:induction false} ServicesAgree(ops: seq<Op>)
    requires AllGoodIds(ops) && Working(ops) && (forall i :: 0 <= i < |ops| ==> SameBlanks(ops[i]))
    ensures Agree(GoRun(ops), JavaRun(ops), WholeCents(ops))
  {
    if ops != [] {
      var init, last := ops[..|ops| - 1], ops[|ops| - 1];
      ServicesAgree(init);
      var cents := WholeCents(ops);
      WeakerAgreement(GoRun(init), JavaRun(init), WholeCents(init), cents);
      if last.CreateOp? {
        CreateAgrees(GoRun(init), JavaRun(init), last, cents);
      } else {
        EditAgrees(GoRun(init), JavaRun(init), last, cents);
      }
    }
  }

  lemma WeakerAgreement(g: GoSide, j: JavaSide, cents: bool, fewer: bool)
    requires Agree(g, j, cents) && (fewer ==> cents)
    ensures Agree(g, j, fewer)
  {
  }

  /** When every request says all its events carry, the payloads are the same too, and with whole-cent prices wholly so. */
  lemma PayloadsAgree(ops: seq<Op>)
    requires AllGoodIds(ops) && Working(ops)
    requires forall i :: 0 <= i < |ops| ==> SameBlanks(ops[i]) && SaysAll(ops[i])
    ensures |GoRun(ops).published| == |JavaRun(ops).published|
    ensures forall i :: 0 <= i < |GoRun(ops).published| ==>
                          JavaWithoutAmount(Verbatim(GoRun(ops).published[i])) == JavaWithoutAmount(JavaRun(ops).published[i])
                          && (WholeCents(ops) ==> Verbatim(GoRun(ops).published[i]) == JavaRun(ops).published[i])
  {
    ServicesAgree(ops);
    RunIsExplicit(ops);
    forall i | 0 <= i < |GoRun(ops).published|
      ensures JavaWithoutAmount(Verbatim(GoRun(ops).published[i])) == JavaWithoutAmount(JavaRun(ops).published[i])
      ensures WholeCents(ops) ==> Verbatim(GoRun(ops).published[i]) == JavaRun(ops).published[i]
    {
      SamePayloadExactly(GoRun(ops).published[i], JavaRun(ops).published[i], WholeCents(ops));
    }
  }

  /** The currencies differ exactly when the request names the empty one. */
  lemma CurrenciesDiffer(op: Op)
    requires op.CreateOp? && GoodIds(op)
    ensures GoOrder(op).currency == JavaOrder(op).currency
            <==> op.request.currency != Some("")
  {
  }
}
