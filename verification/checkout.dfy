/** The checkout orchestrator: cart, PENDING order, charge, PAID, clear cart (go/internal/checkout). */
module Checkouts {
  import opened Sums
  import opened Money
  import opened Orders
  import opened Lifecycle
  import opened DbTables
  import opened Inserts
  import opened Store
  import opened Services
  import opened Asked

  datatype CartItem = CartItem(productId: string, name: string, quantity: int, unitPrice: Decimal)

  datatype Cart = Cart(items: seq<CartItem>, currency: string)

  datatype PaymentRequest = PaymentRequest(
    orderId: Uuid, customerId: string, amount: Decimal, currency: string, gateway: string, paymentMethodId: string)

  /** What decoding the body leaves, which after an error is whatever was decoded before it; the error is ignored. */
  datatype PaymentResponse = PaymentResponse(id: string, status: string, failureReason: Option<string>)

  /** What the payment service sends back, if anything. */
  datatype HttpReply = NoReply | Reply(code: int, body: PaymentResponse)

  datatype Reason = NoReason | Text(text: string) | NotCompleted(code: int, status: string)

  datatype PaymentOutcome = PaymentOutcome(paid: bool, status: string, failureReason: Reason, paymentId: string)

  /** A payment is confirmed by a 2xx reply whose status is COMPLETED, and by nothing else. */
  predicate Confirms(reply: HttpReply) {
    reply.Reply? && 200 <= reply.code < 300 && reply.body.status == "COMPLETED"
  }

  /** The reason shown to the customer of a payment that is not confirmed. */
  function WhyNotPaid(reply: HttpReply): Reason {
    match reply
    case NoReply => Text("payment service unavailable")
    case Reply(code, body) =>
      if body.failureReason.Some? && body.failureReason.value != "" then Text(body.failureReason.value)
      else NotCompleted(code, body.status)
  }

  /** The service's own reason if it gives one, else the code and status it answered; or that there was no answer. */
  lemma ReasonsGiven(reply: HttpReply)
    ensures reply.NoReply? ==> WhyNotPaid(reply) == Text("payment service unavailable")
    ensures reply.Reply? && reply.body.failureReason.Some? && reply.body.failureReason.value != "" ==>
              WhyNotPaid(reply) == Text(reply.body.failureReason.value)
    ensures reply.Reply? && (reply.body.failureReason.None? || reply.body.failureReason.value == "") ==>
              WhyNotPaid(reply) == NotCompleted(reply.code, reply.body.status)
  {
  }

  method ProcessPayment(reply: HttpReply) returns (outcome: Option<PaymentOutcome>)
    ensures outcome.None? <==> reply.NoReply?
    ensures (outcome.Some? && outcome.value.paid) <==> Confirms(reply)
    ensures outcome.Some? ==> outcome.value.paymentId == reply.body.id && outcome.value.status == reply.body.status
    ensures outcome.Some? ==>
              (outcome.value.paid <==> 200 <= reply.code < 300 && reply.body.status == "COMPLETED")
    ensures outcome.Some? && !outcome.value.paid ==>
              outcome.value.failureReason != NoReason && outcome.value.failureReason == WhyNotPaid(reply)
  {
    if reply.NoReply? {
      return None;
    }
    var paid, reason := false, NoReason;
    if reply.body.failureReason.Some? && reply.body.failureReason.value != "" {
      reason := Text(reply.body.failureReason.value);
    }
    paid := 200 <= reply.code && reply.code < 300 && reply.body.status == "COMPLETED";
    if !paid && reason == NoReason {
      reason := NotCompleted(reply.code, reply.body.status);
    }
    return Some(PaymentOutcome(paid, reply.body.status, reason, reply.body.id));
  }

  /** A cart line as an order line: the price rounded to cents. */
  function CartLine(i: CartItem): CreateItem {
    CreateItem(i.productId, i.name, i.quantity, Round2(i.unitPrice))
  }

  function CartRequest(customer: string, cart: Cart, address: Option<ShippingAddress>): CreateRequest {
    CreateRequest(customer, seq(|cart.items|, i requires 0 <= i < |cart.items| => CartLine(cart.items[i])),
                  address, cart.currency)
  }

  /** The amount of a cart line: the rounded price times the quantity in the cart. */
  function CartLineAmount(i: CartItem): Decimal {
    Round2(i.unitPrice) * i.quantity as real
  }

  function CartTotal(cart: Cart): Decimal {
    Sum(CartLineAmount, cart.items)
  }

  /** An order line of a cart line: its product, name and quantity, at its price to the cent. */
  predicate IsCartLine(o: OrderItem, i: CartItem) {
    o.productId == i.productId && o.productName == i.name && o.quantity == i.quantity && o.unitPrice == Round2(i.unitPrice)
  }

  lemma CartLineExact(i: CartItem)
    ensures RequestLine(CartLine(i)) == CartLineAmount(i)
  {
    CentLine(Round2(i.unitPrice), i.quantity) by {
      RoundFixesExactly(i.unitPrice);
    }
    assert RequestLine(CartLine(i)) == Line(Round2(i.unitPrice), i.quantity);
  }

  lemma CentLine(price: Decimal, quantity: int)
    requires CentExact(price)
    ensures Line(price, quantity) == price * quantity as real
  {
    ExactLine(price, quantity);
  }

  lemma {:induction false} CartLinesExact(items: seq<CartItem>, lines: seq<CreateItem>)
    requires |lines| == |items| && forall k :: 0 <= k < |items| ==> lines[k] == CartLine(items[k])
    ensures Sum(RequestLine, lines) == Sum(CartLineAmount, items)
  {
    if items != [] {
      CartLinesExact(items[..|items| - 1], lines[..|lines| - 1]);
      CartLineExact(items[|items| - 1]);
    }
  }

  /** The order made of a cart has the cart's lines and no other, and comes to what the cart comes to. */
  lemma CartOrderAsAsked(customer: string, cart: Cart, address: Option<ShippingAddress>, id: Uuid, itemIds: seq<Uuid>,
                         now: Instant, persist: Instant)
    requires |itemIds| == |cart.items| && id != 0 && 0 !in itemIds
    ensures var o := CreatedOrder(CartRequest(customer, cart, address), id, itemIds, now, persist);
            o.id == id && o.customerId == customer && o.shippingAddress == address && o.currency == OrUsd(cart.currency)
            && o.totalAmount == CartTotal(cart) && |o.items| == |cart.items|
            && forall k :: 0 <= k < |cart.items| ==> o.items[k].id == itemIds[k] && IsCartLine(o.items[k], cart.items[k])
  {
    var r := CartRequest(customer, cart, address);
    CreatedAsAsked(r, id, itemIds, now, persist);
    CartLinesExact(cart.items, r.items);
    var o := CreatedOrder(r, id, itemIds, now, persist);
    forall k | 0 <= k < |cart.items|
      ensures o.items[k].id == itemIds[k] && IsCartLine(o.items[k], cart.items[k])
    {
      assert ItemAsked(o.items[k], r.items[k], itemIds[k], id);
    }
  }

  /** The status update a confirmed payment asks for. */
  function MarkPaid(gateway: string, paymentId: string): UpdateRequest {
    UpdateRequest(Some(Paid), paymentId, gateway, "", "", None)
  }

  datatype CheckoutResponse =
    CheckoutResponse(orderId: Uuid, amount: Decimal, currency: string, paid: bool, retryable: bool, reason: Reason)

  datatype CheckoutCall = CheckoutCall(
    customer: string, bodyDecodes: bool, paymentMethodId: string, address: Option<ShippingAddress>)

  /** Everything the other parties, the id generator and the clock answer during one checkout. */
  datatype World = World(
    cart: Option<Cart>,
    orderId: Uuid, itemIds: seq<Uuid>, createdAt: Instant, insertedAt: Instant, createFault: Fault,
    reply: HttpReply,
    paidAt: Instant, writtenAt: Instant, today: Instant, readFails: bool, updateFault: Fault)
  {
    predicate Sound() {
      (cart.Some? ==> |itemIds| == |cart.value.items|) && orderId != 0 && 0 !in itemIds
    }
  }

  /** The call passes the checks made before any other party is asked. */
  predicate Admitted(c: CheckoutCall) {
    c.customer != "" && c.bodyDecodes && c.paymentMethodId != ""
  }

  /** The order the cart turns into. */
  function CartOrder(c: CheckoutCall, w: World): Order
    requires w.Sound() && w.cart.Some?
  {
    CreatedOrder(CartRequest(c.customer, w.cart.value, c.address), w.orderId, w.itemIds, w.createdAt, w.insertedAt)
  }

  /** A PENDING order is stored. */
  ghost predicate Creates(db: Tables, c: CheckoutCall, w: World)
    requires w.Sound()
  {
    Admitted(c) && w.cart.Some? && w.cart.value.items != []
    && ValidRequest(CartRequest(c.customer, w.cart.value, c.address))
    && Insertable(db, CartOrder(c, w), w.createFault)
  }

  function Mark(gateway: string, w: World): Edit
    requires w.reply.Reply?
  {
    UpdateStatus(MarkPaid(gateway, w.reply.body.id), w.paidAt, w.writtenAt, w.today)
  }

  /** The PENDING order just stored is read back and its PAID row commits. */
  ghost predicate Marks(db: Tables, gateway: string, c: CheckoutCall, w: World)
    requires w.Sound() && w.cart.Some? && w.reply.Reply?
  {
    Answer(Inserted(db, CartOrder(c, w)), w.orderId, Mark(gateway, w), w.readFails, w.updateFault).Ok?
  }

  /** The tables once the PENDING order is stored and, if that works, marked PAID. */
  function PaidTables(db: Tables, gateway: string, c: CheckoutCall, w: World): Tables
    requires w.Sound() && w.cart.Some? && w.reply.Reply?
  {
    TablesAfterEdit(Inserted(db, CartOrder(c, w)), w.orderId, Mark(gateway, w), w.readFails, w.updateFault)
  }

  /** The tables a checkout leaves. */
  ghost function TablesAfterCheckout(db: Tables, gateway: string, c: CheckoutCall, w: World): Tables
    requires w.Sound()
  {
    if !Creates(db, c, w) then db
    else if !Confirms(w.reply) then Inserted(db, CartOrder(c, w))
    else PaidTables(db, gateway, c, w)
  }

  /** The status code a checkout returns. */
  ghost function CodeOf(db: Tables, gateway: string, c: CheckoutCall, w: World): int
    requires w.Sound()
  {
    if c.customer == "" then 401
    else if !Admitted(c) then 400
    else if w.cart.None? then 502
    else if !Creates(db, c, w) then 400
    else if !Confirms(w.reply) then 402
    else if Marks(db, gateway, c, w) then 200
    else 500
  }

  lemma CartOrderIsWholeCents(c: CheckoutCall, w: World)
    requires w.Sound() && w.cart.Some?
    ensures CentPrices(CartOrder(c, w).items)
  {
    var o := CartOrder(c, w);
    forall i | 0 <= i < |o.items|
      ensures CentExact(o.items[i].unitPrice)
    {
      RoundFixesExactly(w.cart.value.items[i].unitPrice);
    }
  }

  /** The new order o reads back as it was created, but for the order of its items: the total included. */
  ghost predicate StoredAs(db: Tables, o: Order, id: Uuid) {
    var got := Read(db, id);
    got.Some? && got.value == o.(items := got.value.items) && IsNew(o) && o.id == id
    && Round2(o.totalAmount) == o.totalAmount
  }

  /** The order is read as PAID, for the amount of o. */
  predicate ReadsPaid(db: Tables, o: Order) {
    var got := Read(db, o.id);
    got.Some? && got.value.status == Paid && got.value.totalAmount == o.totalAmount
  }

  /** What is read back after creation is what was created, but for the order of the items: the total included. */
  lemma CartOrderReadsBack(db: Tables, c: CheckoutCall, w: World)
    requires ForeignKey(db) && w.Sound() && Creates(db, c, w)
    ensures StoredAs(Inserted(db, CartOrder(c, w)), CartOrder(c, w), w.orderId)
  {
    var o := CartOrder(c, w);
    var r := CartRequest(c.customer, w.cart.value, c.address);
    CartOrderIsWholeCents(c, w);
    CreatedIsNew(r, w.orderId, w.itemIds, w.createdAt, w.insertedAt);
    ReadBack(db, o, w.createFault);
    ReadBackTotalExact(o);
    TotalColumn(o.items);
  }

  /** The order.paid event of a confirmed payment. */
  function PaidEvent(o: Order, gateway: string, w: World): Event
    requires w.reply.Reply?
  {
    OrderPaidEvent(o.id, w.reply.body.id, o.totalAmount, o.currency, gateway, w.paidAt)
  }

  /** The write that marks o PAID: accepted, announced with o's amount, and read back as PAID for that amount. */
  lemma MarkOutcome(t: Tables, o: Order, id: Uuid, gateway: string, w: World)
    requires StoredAs(t, o, id) && w.reply.Reply?
    ensures var e, got := Mark(gateway, w), Read(t, id).value;
            Refusal(got, e).None? && Announced(Edited(got, e), e) == [PaidEvent(o, gateway, w)]
            && ReadsPaid(Written(t, Edited(got, e)), o)
  {
    EditReadsBack(t, id, Mark(gateway, w));
  }

  lemma PublishedInTurn(service: Service, first: Event, second: Event)
    ensures service.Published([first]) + service.Published([second]) == service.Published([first, second])
  {
  }

  /** The row of a new cart order: PENDING, for the cart's total. */
  lemma CartRowPending(db: Tables, c: CheckoutCall, w: World)
    requires w.Sound() && Creates(db, c, w)
    ensures var t := Inserted(db, CartOrder(c, w));
            w.orderId in t.orders && t.orders[w.orderId].status == Pending && t.orders[w.orderId].customerId == c.customer
            && t.orders[w.orderId].totalAmount == CartTotal(w.cart.value)
            && forall k :: 0 <= k < |w.itemIds| ==>
                             w.itemIds[k] in t.items && IsCartRow(t.items[w.itemIds[k]], w.orderId, w.cart.value.items[k])
  {
    var r := CartRequest(c.customer, w.cart.value, c.address);
    RowsAsAsked(db, r, w.orderId, w.itemIds, w.createdAt, w.insertedAt, w.createFault);
    CartLinesExact(w.cart.value.items, r.items);
    var t := Inserted(db, CartOrder(c, w));
    forall k | 0 <= k < |w.itemIds|
      ensures w.itemIds[k] in t.items && IsCartRow(t.items[w.itemIds[k]], w.orderId, w.cart.value.items[k])
    {
      CartRowIsAsked(t.items[w.itemIds[k]], w.orderId, w.cart.value.items[k]);
    }
  }

  lemma CartRowIsAsked(row: ItemRow, id: Uuid, i: CartItem)
    requires ItemRowAsAsked(row, id, CartLine(i))
    ensures IsCartRow(row, id, i)
  {
    RoundFixesExactly(i.unitPrice);
    RoundFixesExactly(Round2(i.unitPrice));
  }

  predicate IsCartRow(row: ItemRow, id: Uuid, i: CartItem) {
    row.orderId == id && row.productId == i.productId && row.productName == i.name && row.quantity == i.quantity
    && row.unitPrice == Round2(i.unitPrice)
  }

  /** Marking the order PAID leaves its item rows, and changes its row to PAID if it commits. */
  lemma PaidRow(db: Tables, gateway: string, c: CheckoutCall, w: World)
    requires w.Sound() && Creates(db, c, w) && w.reply.Reply?
    ensures var t, after := Inserted(db, CartOrder(c, w)), PaidTables(db, gateway, c, w);
            after.items == t.items && w.orderId in after.orders
            && (Marks(db, gateway, c, w) ==> after.orders[w.orderId].status == Paid)
            && (!Marks(db, gateway, c, w) ==> after == t)
  {
    CartRowPending(db, c, w);
    ReadIsNormal(Inserted(db, CartOrder(c, w)), w.orderId);
  }

  /** A reply that says the payment was taken: 2xx, and COMPLETED. */
  lemma ConfirmsExactly(reply: HttpReply)
    ensures Confirms(reply) <==> reply.Reply? && 200 <= reply.code <= 299 && reply.body.status == "COMPLETED"
  {
  }

  class Handler {
    const service: Service
    const gateway: string
    /** Every request sent to the payment service. */
    var requests: seq<PaymentRequest>
    /** The customers whose cart was asked to be cleared. */
    var clears: seq<string>

    constructor (service: Service, gateway: string)
      ensures this.service == service && this.gateway == gateway && requests == [] && clears == []
    {
      this.service, this.gateway, this.requests, this.clears := service, gateway, [], [];
    }

    /** created says whether a PENDING order was stored. */
    method Checkout(c: CheckoutCall, w: World)
      returns (code: int, response: Option<CheckoutResponse>, ghost created: bool)
      requires service.store.Valid() && w.Sound()
      modifies this, service, service.store
      ensures service.store.Valid()
      ensures code == CodeOf(old(service.store.db), gateway, c, w)
      ensures service.store.db == TablesAfterCheckout(old(service.store.db), gateway, c, w)
      ensures created <==> Creates(old(service.store.db), c, w)
      // what is refused before anything is created
      ensures code == 401 <==> c.customer == ""
      ensures c.customer != "" && (!c.bodyDecodes || c.paymentMethodId == "") ==> code == 400 && !created
      ensures c.customer != "" && c.bodyDecodes && c.paymentMethodId != "" ==>
                (code == 502 <==> w.cart.None?) && (w.cart.Some? && w.cart.value.items == [] ==> code == 400 && !created)
      // the order holds the cart's lines, and what is charged is what the cart comes to
      ensures created ==>
                requests == old(requests) + [PaymentRequest(w.orderId, c.customer, CartTotal(w.cart.value),
                                                            OrUsd(w.cart.value.currency), gateway, c.paymentMethodId)]
                && w.orderId in service.store.db.orders
                && forall k :: 0 <= k < |w.itemIds| ==>
                                 w.itemIds[k] in service.store.db.items
                                 && IsCartRow(service.store.db.items[w.itemIds[k]], w.orderId, w.cart.value.items[k])
      ensures response.Some? ==> created && response.value.orderId == w.orderId && response.value.amount == CartTotal(w.cart.value)
      // a 2xx reply with status COMPLETED and no other lets the order become PAID and the cart be cleared
      ensures created && w.reply.Reply? && 200 <= w.reply.code <= 299 && w.reply.body.status == "COMPLETED" ==>
                code == 200 || code == 500
      ensures created && !(w.reply.Reply? && 200 <= w.reply.code <= 299 && w.reply.body.status == "COMPLETED") ==>
                code == 402 && service.store.db.orders[w.orderId].status == Pending && clears == old(clears)
      ensures code == 500 ==> created && service.store.db.orders[w.orderId].status == Pending
      ensures code == 200 ==> created && service.store.db.orders[w.orderId].status == Paid
      // nothing created: no party but the basket was asked for anything
      ensures !created ==> response == None && requests == old(requests)
      // created: exactly one charge, of the total of the order just stored
      ensures created ==>
                var o := CartOrder(c, w);
                requests == old(requests) +
                            [PaymentRequest(o.id, c.customer, o.totalAmount, o.currency, gateway, c.paymentMethodId)]
      // not confirmed, or confirmed but not marked: the order stays PENDING and the cart is left alone
      ensures code != 200 ==>
                clears == old(clears)
                && service.attempts == old(service.attempts) +
                                       if created then service.Published([CreatedEvent(CartOrder(c, w))]) else []
      ensures created && code == 402 ==>
                var o := CartOrder(c, w);
                response == Some(CheckoutResponse(o.id, o.totalAmount, o.currency, false, true, WhyNotPaid(w.reply)))
      ensures created && code == 500 ==> response == None
      // paid: charged, announced as created, announced as paid and answered with one and the same amount
      ensures code == 200 ==>
                created && Confirms(w.reply)
                && var o := CartOrder(c, w);
                clears == old(clears) + [c.customer]
                && service.attempts == old(service.attempts) + service.Published(
                     [CreatedEvent(o), PaidEvent(o, gateway, w)])
                && response == Some(CheckoutResponse(o.id, o.totalAmount, o.currency, true, false, NoReason))
                && ReadsPaid(service.store.db, o)
    {
      var refused := Refused(c, w.cart);
      if refused.Some? {
        return refused.value, None, false;
      }
      ghost var before, announced := service.store.db, service.attempts;
      var entity := CreateFromCart(c, w);
      if entity.None? {
        return 400, None, false;
      }
      created := true;
      ghost var o := CartOrder(c, w);
      code, response := Charge(c, w, entity.value, o, before, announced);
      CartOrderAsAsked(c.customer, w.cart.value, c.address, w.orderId, w.itemIds, w.createdAt, w.insertedAt);
      CartRowPending(before, c, w);
      if Confirms(w.reply) {
        PaidRow(before, gateway, c, w);
      }
    }

    /** The answer given before anything is created, if any. */
    method Refused(c: CheckoutCall, cart: Option<Cart>) returns (code: Option<int>)
      ensures code.None? <==> Admitted(c) && cart.Some? && cart.value.items != []
      ensures code.Some? ==> code.value == if c.customer == "" then 401 else if !Admitted(c) then 400
                                           else if cart.None? then 502 else 400
    {
      if c.customer == "" {
        return Some(401);
      }
      if !c.bodyDecodes {
        return Some(400);
      }
      if c.paymentMethodId == "" {
        return Some(400);
      }
      if cart.None? {
        return Some(502);
      }
      if |cart.value.items| == 0 {
        return Some(400);
      }
      return None;
    }

    method CreateFromCart(c: CheckoutCall, w: World) returns (created: Option<OrderEntity>)
      requires service.store.Valid() && w.Sound() && Admitted(c) && w.cart.Some? && w.cart.value.items != []
      modifies service, service.store
      ensures service.store.Valid()
      ensures created.Some? <==> Creates(old(service.store.db), c, w)
      ensures created.None? ==> service.store.db == old(service.store.db) && service.attempts == old(service.attempts)
      ensures created.Some? ==>
                fresh(created.value) && created.value.View() == CartOrder(c, w)
                && service.store.db == Inserted(old(service.store.db), CartOrder(c, w))
                && service.attempts == old(service.attempts) + service.Published([CreatedEvent(CartOrder(c, w))])
    {
      var request := BuildRequest(c, w.cart.value);
      var result := service.CreateOrder(request, w.orderId, w.itemIds, w.createdAt, w.insertedAt, w.createFault);
      if result.Err? {
        return None;
      }
      return Some(result.value);
    }

    method BuildRequest(c: CheckoutCall, cart: Cart) returns (request: CreateRequest)
      ensures request == CartRequest(c.customer, cart, c.address)
    {
      var items: seq<CreateItem> := [];
      for i := 0 to |cart.items|
        invariant |items| == i && forall k :: 0 <= k < i ==> items[k] == CartLine(cart.items[k])
      {
        var item := cart.items[i];
        items := items + [CreateItem(item.productId, item.name, item.quantity, Round2(item.unitPrice))];
      }
      request := CreateRequest(c.customer, items, c.address, cart.currency);
    }

    /** The second half of Checkout: charge the stored order, mark it PAID, clear the cart. */
    method Charge(c: CheckoutCall, w: World, entity: OrderEntity, ghost o: Order, ghost before: Tables,
                  ghost announced: seq<Event>)
      returns (code: int, response: Option<CheckoutResponse>)
      requires service.store.Valid() && w.Sound() && w.cart.Some? && o == CartOrder(c, w)
      requires entity.View() == o && service.store.db == Inserted(before, o)
      requires service.attempts == announced + service.Published([CreatedEvent(o)])
      requires ForeignKey(before) && Creates(before, c, w)
      modifies this, service, service.store
      ensures service.store.Valid()
      ensures requests == old(requests) +
                          [PaymentRequest(o.id, c.customer, o.totalAmount, o.currency, gateway, c.paymentMethodId)]
      ensures code == if !Confirms(w.reply) then 402 else if Marks(before, gateway, c, w) then 200 else 500
      ensures code == 402 ==>
                response == Some(CheckoutResponse(o.id, o.totalAmount, o.currency, false, true, WhyNotPaid(w.reply)))
      ensures code != 200 ==>
                service.store.db == old(service.store.db) && clears == old(clears)
                && service.attempts == old(service.attempts)
      ensures code == 500 ==> response == None
      ensures code == 200 ==>
                clears == old(clears) + [c.customer]
                && service.attempts == announced + service.Published([CreatedEvent(o), PaidEvent(o, gateway, w)])
                && response == Some(CheckoutResponse(o.id, o.totalAmount, o.currency, true, false, NoReason))
                && ReadsPaid(service.store.db, o)
                && service.store.db == PaidTables(before, gateway, c, w)
    {
      CartOrderReadsBack(before, c, w);
      requests := requests + [PaymentRequest(entity.id, c.customer, entity.totalAmount, entity.currency,
                                             gateway, c.paymentMethodId)];
      var outcome := ProcessPayment(w.reply);
      if outcome.None? || !outcome.value.paid {
        var reason := Text("payment failed");
        if outcome.None? {
          reason := Text("payment service unavailable");
        } else if outcome.value.failureReason != NoReason {
          reason := outcome.value.failureReason;
        }
        return 402, Some(CheckoutResponse(entity.id, Round2(entity.totalAmount), entity.currency, false, true, reason));
      }
      var settled := Settle(c, w, entity.id, outcome.value.paymentId, o, before, announced);
      if !settled {
        return 500, None;
      }
      return 200, Some(CheckoutResponse(entity.id, Round2(entity.totalAmount), entity.currency, true, false, NoReason));
    }

    /** After a confirmed payment: mark the order PAID and only then clear the cart. */
    method Settle(c: CheckoutCall, w: World, id: Uuid, paymentId: string, ghost o: Order, ghost before: Tables,
                  ghost announced: seq<Event>)
      returns (settled: bool)
      requires service.store.Valid() && w.Sound() && w.cart.Some? && o == CartOrder(c, w) && id == o.id
      requires w.reply.Reply? && paymentId == w.reply.body.id
      requires service.store.db == Inserted(before, o) && StoredAs(service.store.db, o, w.orderId)
      requires service.attempts == announced + service.Published([CreatedEvent(o)])
      modifies this`clears, service, service.store
      ensures service.store.Valid()
      ensures settled <==> Marks(before, gateway, c, w)
      ensures !settled ==>
                service.store.db == old(service.store.db) && clears == old(clears)
                && service.attempts == old(service.attempts)
      ensures settled ==>
                clears == old(clears) + [c.customer] && ReadsPaid(service.store.db, o)
                && service.store.db == PaidTables(before, gateway, c, w)
                && service.attempts == announced + service.Published([CreatedEvent(o), PaidEvent(o, gateway, w)])
    {
      MarkOutcome(service.store.db, o, w.orderId, gateway, w);
      var marked := service.UpdateOrderStatus(id, MarkPaid(gateway, paymentId),
                                              w.paidAt, w.writtenAt, w.today, w.readFails, w.updateFault);
      if marked.Err? {
        return false;
      }
      PublishedInTurn(service, CreatedEvent(o), PaidEvent(o, gateway, w));
      clears := clears + [c.customer];
      return true;
    }
  }
}
