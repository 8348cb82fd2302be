/**
 The methods against the machine: with nothing in between, what UpdateOrderStatus, CancelOrder and Checkout do
 to the tables and to the other parties is what a run of the interleaving machine's steps does.
 */
module Refinement {
  import opened Orders
  import opened Lifecycle
  import opened DbTables
  import opened Inserts
  import opened Store
  import opened Services
  import opened Checkouts
  import opened Interleaving
  import StoreRuns

  ghost function DoAll(s: State, steps: seq<Action>): State {
    if steps == [] then s else Do(DoAll(s, steps[..|steps| - 1]), steps[|steps| - 1])
  }

  /** What is done from a state that was reached is reached too. */
  lemma {:induction false} RunsCompose(steps: seq<Action>, more: seq<Action>)
    ensures After(steps + more) == DoAll(After(steps), more)
  {
    if more == [] {
      assert steps + more == steps;
    } else {
      RunsCompose(steps, more[..|more| - 1]);
      AfterOneMore(steps, more);
    }
  }

  /** Some steps lead from s to t. */
  ghost predicate Reaches(s: State, t: State) {
    exists steps: seq<Action> :: t == DoAll(s, steps)
  }

  lemma OneMore(s: State, u: State, a: Action)
    requires Reaches(s, u)
    ensures Reaches(s, Do(u, a))
  {
    var steps: seq<Action> :| u == DoAll(s, steps);
    assert (steps + [a])[..|steps|] == steps;
    assert Do(u, a) == DoAll(s, steps + [a]);
  }

  lemma NoStep(s: State)
    ensures Reaches(s, s)
  {
    assert s == DoAll(s, []);
  }

  // ---------------------------------------------------------------- status updates and cancels

  /** A snapshot written over the row it was read from. */
  lemma FreshWrite(db: Tables, id: Uuid, e: Edit)
    requires id in db.orders && Refusal(Read(db, id).value, e).None?
    ensures var o := Read(db, id).value;
            o.id == id && WriteBack(o, Edited(o, e)) == Edited(o, e)
            && Reads(Written(db, Edited(o, e))) == Reads(db)[id := Edited(o, e)]
  {
    ReadIsNormal(db, id);
    EditKeepsItems(Read(db, id).value, e);
    EditReadsBack(db, id, e);
    ReadsAfterWrite(db, Edited(Read(db, id).value, e));
  }

  lemma ReadsAfterEdit(db: Tables, id: Uuid, e: Edit, readFails: bool, fault: Fault)
    requires id in db.orders && Refusal(Read(db, id).value, e).None?
    ensures Reads(TablesAfterEdit(db, id, e, readFails, fault)) ==
            if Answer(db, id, e, readFails, fault).Ok? then Reads(db)[id := Edited(Read(db, id).value, e)] else Reads(db)
  {
    FreshWrite(db, id, e);
  }

  /** UpdateOrderStatus and CancelOrder are a read and a write of the machine. */
  lemma EditIsARun(db: Tables, s: State, editor: nat, id: Uuid, e: Edit, readFails: bool, fault: Fault) returns (t: State)
    requires s.orders == Reads(db) && editor !in s.editors
    ensures t == Do(Do(s, ReadForEdit(editor, id, e, !readFails)),
                    WriteEdit(editor, e.persist, Answer(db, id, e, readFails, fault).Ok?))
    ensures t.orders == Reads(TablesAfterEdit(db, id, e, readFails, fault))
    ensures t.editors == s.editors && t.flights == s.flights
  {
    var u := Do(s, ReadForEdit(editor, id, e, !readFails));
    var commits := Answer(db, id, e, readFails, fault).Ok?;
    t := Do(u, WriteEdit(editor, e.persist, commits));
    if readFails || id !in db.orders || Refusal(Read(db, id).value, e).Some? {
      NothingRead(s, editor, id, e, readFails, commits);
    } else {
      FreshWrite(db, id, e);
      EditRun(s, u, editor, id, e, commits);
    }
  }

  lemma NothingRead(s: State, editor: nat, id: Uuid, e: Edit, readFails: bool, commits: bool)
    requires editor !in s.editors && (readFails || id !in s.orders || Refusal(s.orders[id], e).Some?)
    ensures Do(Do(s, ReadForEdit(editor, id, e, !readFails)), WriteEdit(editor, e.persist, commits)) == s
  {
  }

  lemma EditRun(s: State, u: State, editor: nat, id: Uuid, e: Edit, commits: bool)
    requires id in s.orders && s.orders[id].id == id && editor !in s.editors
    requires var o := s.orders[id]; Refusal(o, e).None? && WriteBack(o, Edited(o, e)) == Edited(o, e)
    requires u == Do(s, ReadForEdit(editor, id, e, true))
    ensures var t := Do(u, WriteEdit(editor, e.persist, commits));
            t.orders == (if commits then s.orders[id := Edited(s.orders[id], e)] else s.orders)
            && t.editors == s.editors && t.flights == s.flights
  {
    assert u.editors[editor] == Editor(s.orders[id], e);
    assert AtPersist(e, e.persist) == e;
  }

  // ---------------------------------------------------------------- stale writes on the tables

  lemma WriteKeepsTrack(db: Tables, w: Order, id: Uuid, keeps: bool)
    requires StoreRuns.Tracks(db, id, keeps) && w.id in db.orders && w.totalAmount == Read(db, w.id).value.totalAmount
    ensures StoreRuns.Tracks(Written(db, w), id, keeps)
  {
    StoreRuns.WriteKeepsPriceSum(db, w, id);
    ReadIsNormal(db, w.id);
    if id == w.id {
      ReadAfterAnyWrite(db, w);
      TotalColumn(Read(db, id).value.items);
    } else {
      WriteLeavesOthers(db, w, id);
    }
  }

  lemma ReadsAfterAnyWrite(db: Tables, w: Order)
    requires w.id in db.orders
    ensures Reads(Written(db, w)) == Reads(db)[w.id := WriteBack(Read(db, w.id).value, w)]
  {
    ReadAfterAnyWrite(db, w);
    forall id | id in db.orders && id != w.id
      ensures Read(Written(db, w), id) == Read(db, id)
    {
      WriteLeavesOthers(db, w, id);
    }
    OneReadChanges(db, Written(db, w), w.id, WriteBack(Read(db, w.id).value, w));
  }

  /**
   A write of any snapshot in hand, however stale, does to the tables what the machine does to its orders. For every order
   it leaves the total read and the sum of total_price as they were, and total_amount one of the two.
   */
  lemma StaleWriteOnTables(db: Tables, steps: seq<Action>, snapshot: Order, e: Edit)
    requires After(steps).orders == Reads(db) && InHand(After(steps), snapshot) && Refusal(snapshot, e).None?
    ensures snapshot.id in db.orders
    ensures Reads(Written(db, Edited(snapshot, e))) == Write(After(steps), snapshot, e).orders
    ensures forall id, keeps :: StoreRuns.Tracks(db, id, keeps) ==> StoreRuns.Tracks(Written(db, Edited(snapshot, e)), id, keeps)
  {
    SnapshotInHand(steps, snapshot);
    EditKeepsItems(snapshot, e);
    ReadsAfterAnyWrite(db, Edited(snapshot, e));
    forall id, keeps | StoreRuns.Tracks(db, id, keeps)
      ensures StoreRuns.Tracks(Written(db, Edited(snapshot, e)), id, keeps)
    {
      WriteKeepsTrack(db, Edited(snapshot, e), id, keeps);
    }
  }

  lemma SnapshotInHand(steps: seq<Action>, snapshot: Order)
    requires InHand(After(steps), snapshot)
    ensures var s := After(steps);
            snapshot.id in s.orders && snapshot.totalAmount == s.orders[snapshot.id].totalAmount
  {
    var s := After(steps);
    EverythingIsDerived(steps);
    InterleavedSnapshots(steps, snapshot);
    InterleavedRows(steps, snapshot.id);
  }

  // ---------------------------------------------------------------- creation

  lemma OrderIsCreatable(db: Tables, r: CreateRequest, id: Uuid, itemIds: seq<Uuid>, now: Instant, persist: Instant, fault: Fault)
    returns (stored: Order)
    requires ForeignKey(db) && ValidRequest(r) && |itemIds| == |r.items| && id != 0 && 0 !in itemIds
    requires Insertable(db, CreatedOrder(r, id, itemIds, now, persist), fault)
    ensures stored.id == id && id !in db.orders && Creatable(r, id, itemIds, now, persist, stored)
    ensures Reads(Inserted(db, CreatedOrder(r, id, itemIds, now, persist))) == Reads(db)[id := stored]
  {
    var o := CreatedOrder(r, id, itemIds, now, persist);
    CreatedIsNew(r, id, itemIds, now, persist);
    ReadBack(db, o, fault);
    ReadsAfterInsert(db, o, fault);
    ReadIsNormal(Inserted(db, o), o.id);
    stored := Read(Inserted(db, o), o.id).value;
  }

  const EMPTY_ORDER :=
    Order(0, "", Pending, [], 0.0, "", None, None, None, 0, 0, None, None, None, None, None)

  /** CreateOrder is one step of the machine. */
  lemma CreateIsAStep(db: Tables, s: State, r: CreateRequest, id: Uuid, itemIds: seq<Uuid>, now: Instant, persist: Instant,
                      fault: Fault)
    returns (t: State, stored: Order)
    requires ForeignKey(db) && |itemIds| == |r.items| && id != 0 && 0 !in itemIds && s.orders == Reads(db)
    ensures var o := CreatedOrder(r, id, itemIds, now, persist);
            var ok := ValidRequest(r) && Insertable(db, o, fault);
            t == Do(s, CreateDirectly(r, id, itemIds, now, persist, stored, ok))
            && t.orders == Reads(if ok then Inserted(db, o) else db) && t.flights == s.flights && t.editors == s.editors
  {
    stored := EMPTY_ORDER;
    if ValidRequest(r) && Insertable(db, CreatedOrder(r, id, itemIds, now, persist), fault) {
      stored := OrderIsCreatable(db, r, id, itemIds, now, persist, fault);
      t := CreateStep(s, r, id, itemIds, now, persist, stored);
    } else {
      t := NoCreateStep(s, r, id, itemIds, now, persist, stored);
    }
  }

  lemma NoCreateStep(s: State, r: CreateRequest, id: Uuid, itemIds: seq<Uuid>, now: Instant, persist: Instant, stored: Order)
    returns (t: State)
    ensures t == Do(s, CreateDirectly(r, id, itemIds, now, persist, stored, false))
    ensures t.orders == s.orders && t.flights == s.flights && t.editors == s.editors
  {
    t := Do(s, CreateDirectly(r, id, itemIds, now, persist, stored, false));
  }

  lemma CreateStep(s: State, r: CreateRequest, id: Uuid, itemIds: seq<Uuid>, now: Instant, persist: Instant, stored: Order)
    returns (t: State)
    requires Creatable(r, id, itemIds, now, persist, stored) && stored.id !in s.orders
    ensures t == Do(s, CreateDirectly(r, id, itemIds, now, persist, stored, true))
    ensures t.orders == s.orders[stored.id := stored] && t.flights == s.flights && t.editors == s.editors
  {
    t := Do(s, CreateDirectly(r, id, itemIds, now, persist, stored, true));
  }

  // ---------------------------------------------------------------- checkout

  /** The steps of one checkout: those that touch no order leave the orders alone. */
  predicate Moved(s: State, t: State, f: nat, x: Flight, orders: map<Uuid, Order>) {
    t.flights == s.flights[f := x] && t.orders == orders && t.editors == s.editors
    && t.requests == s.requests && t.captures == s.captures
  }

  lemma Entered(s: State, f: nat, c: CheckoutCall) returns (t: State)
    requires f !in s.flights
    ensures Reaches(s, t)
    ensures Moved(s, t, f, Flight(c.customer, if c.customer == "" then Returned(401)
                                              else if !Admitted(c) then Returned(400) else ReadingCart,
                                  None, 0.0, false, false, false, 0), s.orders)
  {
    t := Do(s, Enter(f, c));
    NoStep(s);
    OneMore(s, s, Enter(f, c));
  }

  lemma CartRead(from: State, s: State, f: nat, cart: Option<Cart>) returns (t: State)
    requires Reaches(from, s) && f in s.flights && s.flights[f].phase.ReadingCart?
    ensures Reaches(from, t)
    ensures Moved(s, t, f, s.flights[f].(phase := if cart.None? then Returned(502)
                                                  else if cart.value.items == [] then Returned(400)
                                                  else Creating(cart.value)), s.orders)
  {
    t := Do(s, ReadCart(f, cart));
    OneMore(from, s, ReadCart(f, cart));
  }

  lemma NotCreated(from: State, s: State, f: nat, c: CheckoutCall, w: World) returns (t: State)
    requires Reaches(from, s) && f in s.flights && s.flights[f].phase.Creating? && c.customer == s.flights[f].customer
    ensures Reaches(from, t) && Moved(s, t, f, s.flights[f].(phase := Returned(400)), s.orders)
  {
    var a := CreateFromCart(f, c, w.orderId, w.itemIds, w.createdAt, w.insertedAt, EMPTY_ORDER, false);
    t := Do(s, a);
    OneMore(from, s, a);
  }

  lemma Created(db: Tables, from: State, s: State, f: nat, c: CheckoutCall, w: World) returns (t: State)
    requires Reaches(from, s) && ForeignKey(db) && w.Sound() && Creates(db, c, w) && s.orders == Reads(db)
    requires f in s.flights && s.flights[f].phase == Creating(w.cart.value) && s.flights[f].customer == c.customer
    ensures Reaches(from, t)
    ensures Moved(s, t, f, s.flights[f].(phase := Charging, order := Some(w.orderId), amount := CartOrder(c, w).totalAmount),
                  Reads(Inserted(db, CartOrder(c, w))))
  {
    var stored := OrderIsCreatable(db, CartRequest(c.customer, w.cart.value, c.address), w.orderId, w.itemIds,
                                   w.createdAt, w.insertedAt, w.createFault);
    t := CreatedAs(from, s, f, c, w, stored);
  }

  lemma CreatedAs(from: State, s: State, f: nat, c: CheckoutCall, w: World, stored: Order) returns (t: State)
    requires Reaches(from, s) && w.Sound() && w.cart.Some?
    requires f in s.flights && s.flights[f].phase == Creating(w.cart.value) && s.flights[f].customer == c.customer
    requires stored.id !in s.orders
    requires Creatable(CartRequest(c.customer, w.cart.value, c.address), w.orderId, w.itemIds, w.createdAt, w.insertedAt, stored)
    ensures Reaches(from, t)
    ensures Moved(s, t, f, s.flights[f].(phase := Charging, order := Some(stored.id), amount := CartOrder(c, w).totalAmount),
                  s.orders[stored.id := stored])
  {
    var a := CreateFromCart(f, c, w.orderId, w.itemIds, w.createdAt, w.insertedAt, stored, true);
    t := Do(s, a);
    OneMore(from, s, a);
  }

  lemma Charged(from: State, s: State, f: nat, reply: HttpReply) returns (t: State)
    requires Reaches(from, s) && f in s.flights && s.flights[f].phase.Charging? && s.flights[f].order.Some?
    ensures Reaches(from, t)
    ensures var x, paid := s.flights[f].(sent := true), Confirms(reply);
            t.flights == s.flights[f := x.(phase := if paid then Marking(reply.body.id) else Returned(402), confirmed := paid || x.confirmed)]
            && t.orders == s.orders && t.editors == s.editors && t.requests == s.requests + [ChargeOf(f, x)]
            && t.captures == if paid then s.captures + [ChargeOf(f, x)] else s.captures
  {
    t := Do(Do(s, SendPayment(f)), AnswerPayment(f, reply));
    OneMore(from, s, SendPayment(f));
    OneMore(from, Do(s, SendPayment(f)), AnswerPayment(f, reply));
  }

  lemma ReadToMark(from: State, s: State, f: nat, gateway: string, e: Edit, readOk: bool) returns (t: State)
    requires Reaches(from, s) && f in s.flights && s.flights[f].phase.Marking? && s.flights[f].order.Some?
    requires e.UpdateStatus? && e.req == MarkPaid(gateway, s.flights[f].phase.paymentId)
    requires var id := s.flights[f].order.value; id in s.orders && Refusal(s.orders[id], e).None?
    ensures Reaches(from, t)
    ensures Moved(s, t, f, s.flights[f].(phase := if readOk then Writing(s.orders[s.flights[f].order.value], AtPersist(e, e.now))
                                                  else Returned(500)), s.orders)
  {
    t := Do(s, ReadForMark(f, gateway, e.now, e.today, readOk));
    OneMore(from, s, ReadForMark(f, gateway, e.now, e.today, readOk));
  }

  lemma WrittenMark(from: State, s: State, f: nat, id: Uuid, e: Edit, commits: bool) returns (t: State)
    requires Reaches(from, s) && f in s.flights && id in s.orders && s.orders[id].id == id
    requires s.flights[f].phase == Writing(s.orders[id], AtPersist(e, e.now)) && e.UpdateStatus?
    requires Refusal(s.orders[id], e).None? && WriteBack(s.orders[id], Edited(s.orders[id], e)) == Edited(s.orders[id], e)
    ensures Reaches(from, t)
    ensures if commits then Moved(s, t, f, s.flights[f].(phase := Clearing, marked := true), s.orders[id := Edited(s.orders[id], e)])
            else Moved(s, t, f, s.flights[f].(phase := Returned(500)), s.orders)
  {
    assert AtPersist(AtPersist(e, e.now), e.persist) == e;
    t := Do(s, WriteMark(f, e.persist, commits));
    OneMore(from, s, WriteMark(f, e.persist, commits));
  }

  lemma CartCleared(from: State, s: State, f: nat) returns (t: State)
    requires Reaches(from, s) && f in s.flights && s.flights[f].phase.Clearing?
    ensures Reaches(from, t)
    ensures Moved(s, t, f, s.flights[f].(phase := Returned(200), clears := s.flights[f].clears + 1), s.orders)
  {
    t := Do(s, ClearCart(f, true));
    OneMore(from, s, ClearCart(f, true));
  }

  lemma WrittenAndCleared(from: State, s: State, f: nat, id: Uuid, e: Edit, commits: bool) returns (t: State)
    requires Reaches(from, s) && f in s.flights && id in s.orders && s.orders[id].id == id
    requires s.flights[f].phase == Writing(s.orders[id], AtPersist(e, e.now)) && e.UpdateStatus?
    requires Refusal(s.orders[id], e).None? && WriteBack(s.orders[id], Edited(s.orders[id], e)) == Edited(s.orders[id], e)
    ensures Reaches(from, t)
    ensures var x := s.flights[f];
            if commits then
              Moved(s, t, f, x.(phase := Returned(200), marked := true, clears := x.clears + 1), s.orders[id := Edited(s.orders[id], e)])
            else Moved(s, t, f, x.(phase := Returned(500)), s.orders)
  {
    t := WrittenMark(from, s, f, id, e, commits);
    if commits {
      t := CartCleared(from, t, f);
    }
  }

  lemma MarkedAndCleared(from: State, s: State, f: nat, gateway: string, e: Edit, readOk: bool, commits: bool) returns (t: State)
    requires Reaches(from, s) && f in s.flights && s.flights[f].phase.Marking? && s.flights[f].order.Some?
    requires e.UpdateStatus? && e.req == MarkPaid(gateway, s.flights[f].phase.paymentId)
    requires var id := s.flights[f].order.value;
             id in s.orders && s.orders[id].id == id && Refusal(s.orders[id], e).None?
             && WriteBack(s.orders[id], Edited(s.orders[id], e)) == Edited(s.orders[id], e)
    ensures Reaches(from, t)
    ensures var x, id := s.flights[f], s.flights[f].order.value;
            if readOk && commits then
              Moved(s, t, f, x.(phase := Returned(200), marked := true, clears := x.clears + 1),
                    s.orders[id := Edited(s.orders[id], e)])
            else Moved(s, t, f, x.(phase := Returned(500)), s.orders)
  {
    t := ReadToMark(from, s, f, gateway, e, readOk);
    if readOk {
      t := WrittenAndCleared(from, t, f, s.flights[f].order.value, e, commits);
    }
  }

  /** From the stored order to the answer, when the payment is confirmed. */
  lemma ConfirmedRun(from: State, s: State, f: nat, gateway: string, reply: HttpReply, e: Edit, readOk: bool, commits: bool)
    returns (t: State)
    requires Reaches(from, s) && f in s.flights && s.flights[f].phase.Charging? && s.flights[f].order.Some?
    requires Confirms(reply) && e.UpdateStatus? && e.req == MarkPaid(gateway, reply.body.id)
    requires var id := s.flights[f].order.value;
             id in s.orders && s.orders[id].id == id && Refusal(s.orders[id], e).None?
             && WriteBack(s.orders[id], Edited(s.orders[id], e)) == Edited(s.orders[id], e)
    ensures Reaches(from, t)
    ensures var x, id, done := s.flights[f], s.flights[f].order.value, readOk && commits;
            t.flights == s.flights[f := x.(phase := Returned(if done then 200 else 500), sent := true, confirmed := true,
                                           marked := x.marked || done, clears := if done then x.clears + 1 else x.clears)]
            && t.orders == (if done then s.orders[id := Edited(s.orders[id], e)] else s.orders) && t.editors == s.editors
            && t.requests == s.requests + [Charge(f, id, x.amount)] && t.captures == s.captures + [Charge(f, id, x.amount)]
  {
    t := Charged(from, s, f, reply);
    t := MarkedAndCleared(from, t, f, gateway, e, readOk, commits);
  }

  lemma MarkableOrder(db: Tables, gateway: string, c: CheckoutCall, w: World)
    requires ForeignKey(db) && w.Sound() && Creates(db, c, w) && w.reply.Reply?
    ensures var p, id, e := Inserted(db, CartOrder(c, w)), w.orderId, Mark(gateway, w);
            id in p.orders && Refusal(Read(p, id).value, e).None?
            && Reads(PaidTables(db, gateway, c, w)) ==
               (if Marks(db, gateway, c, w) then Reads(p)[id := Edited(Read(p, id).value, e)] else Reads(p))
  {
    var p, e := Inserted(db, CartOrder(c, w)), Mark(gateway, w);
    CartOrderReadsBack(db, c, w);
    NewIsPayable(p, CartOrder(c, w), w.orderId, gateway, w);
    ReadsAfterEdit(p, w.orderId, e, w.readFails, w.updateFault);
  }

  lemma NewIsPayable(p: Tables, o: Order, id: Uuid, gateway: string, w: World)
    requires StoredAs(p, o, id) && w.reply.Reply?
    ensures id in p.orders && Refusal(Read(p, id).value, Mark(gateway, w)).None?
  {
  }

  lemma PaidRun(db: Tables, from: State, s: State, f: nat, gateway: string, c: CheckoutCall, w: World) returns (t: State)
    requires Reaches(from, s) && ForeignKey(db) && w.Sound() && Creates(db, c, w) && Confirms(w.reply)
    requires s.orders == Reads(Inserted(db, CartOrder(c, w)))
    requires f in s.flights && s.flights[f].phase.Charging? && s.flights[f].order == Some(w.orderId)
    ensures Reaches(from, t)
    ensures t.orders == Reads(PaidTables(db, gateway, c, w))
    ensures f in t.flights && t.flights == s.flights[f := t.flights[f]] && t.editors == s.editors
    ensures t.flights[f].customer == s.flights[f].customer
    ensures t.flights[f].phase == Returned(if Marks(db, gateway, c, w) then 200 else 500)
    ensures t.requests == s.requests + [Charge(f, w.orderId, s.flights[f].amount)]
    ensures t.captures == s.captures + [Charge(f, w.orderId, s.flights[f].amount)]
  {
    MarkableOrder(db, gateway, c, w);
    FreshWrite(Inserted(db, CartOrder(c, w)), w.orderId, Mark(gateway, w));
    assert Marks(db, gateway, c, w) ==> !w.readFails;
    t := ConfirmedRun(from, s, f, gateway, w.reply, Mark(gateway, w), !w.readFails, Marks(db, gateway, c, w));
  }

  /** The rest of the run once the cart is read and its order can be created. */
  lemma CreatedRun(db: Tables, from: State, s: State, f: nat, gateway: string, c: CheckoutCall, w: World) returns (t: State)
    requires Reaches(from, s) && ForeignKey(db) && w.Sound() && Creates(db, c, w) && s.orders == Reads(db)
    requires f in s.flights && s.flights[f].phase == Creating(w.cart.value) && s.flights[f].customer == c.customer
    ensures Reaches(from, t)
    ensures t.orders == Reads(if Confirms(w.reply) then PaidTables(db, gateway, c, w) else Inserted(db, CartOrder(c, w)))
    ensures f in t.flights && t.flights == s.flights[f := t.flights[f]] && t.editors == s.editors
    ensures t.flights[f].customer == c.customer
    ensures t.flights[f].phase == Returned(if !Confirms(w.reply) then 402 else if Marks(db, gateway, c, w) then 200 else 500)
    ensures var charge := Charge(f, w.orderId, CartOrder(c, w).totalAmount);
            t.requests == s.requests + [charge]
            && t.captures == if Confirms(w.reply) then s.captures + [charge] else s.captures
  {
    t := Created(db, from, s, f, c, w);
    if Confirms(w.reply) {
      t := PaidRun(db, from, t, f, gateway, c, w);
    } else {
      t := Charged(from, t, f, w.reply);
    }
  }

  /** A checkout refused before an order is stored. */
  lemma RefusedRun(s: State, f: nat, c: CheckoutCall, w: World) returns (t: State)
    requires f !in s.flights
    ensures Reaches(s, t)
    ensures t.orders == s.orders && t.editors == s.editors && t.requests == s.requests && t.captures == s.captures
    ensures f in t.flights && t.flights == s.flights[f := t.flights[f]] && t.flights[f].customer == c.customer
    ensures t.flights[f].phase == Returned(if c.customer == "" then 401 else if !Admitted(c) then 400
                                           else if w.cart.None? then 502 else 400)
  {
    t := Entered(s, f, c);
    if Admitted(c) {
      t := CartRead(s, t, f, w.cart);
      if w.cart.Some? && w.cart.value.items != [] {
        t := NotCreated(s, t, f, c, w);
      }
    }
  }

  lemma AdmittedRun(s: State, f: nat, c: CheckoutCall, cart: Cart) returns (t: State)
    requires f !in s.flights && Admitted(c) && cart.items != []
    ensures Reaches(s, t)
    ensures Moved(s, t, f, Flight(c.customer, Creating(cart), None, 0.0, false, false, false, 0), s.orders)
  {
    t := Entered(s, f, c);
    t := CartRead(s, t, f, Some(cart));
  }

  lemma AcceptedRun(db: Tables, s: State, f: nat, gateway: string, c: CheckoutCall, w: World) returns (t: State)
    requires ForeignKey(db) && w.Sound() && Creates(db, c, w) && s.orders == Reads(db) && f !in s.flights
    ensures Reaches(s, t)
    ensures t.orders == Reads(if Confirms(w.reply) then PaidTables(db, gateway, c, w) else Inserted(db, CartOrder(c, w)))
    ensures f in t.flights && t.flights == s.flights[f := t.flights[f]] && t.editors == s.editors
    ensures t.flights[f].customer == c.customer
    ensures t.flights[f].phase == Returned(if !Confirms(w.reply) then 402 else if Marks(db, gateway, c, w) then 200 else 500)
    ensures var charge := Charge(f, w.orderId, CartOrder(c, w).totalAmount);
            t.requests == s.requests + [charge]
            && t.captures == if Confirms(w.reply) then s.captures + [charge] else s.captures
  {
    t := AdmittedRun(s, f, c, w.cart.value);
    t := CreatedRun(db, s, t, f, gateway, c, w);
  }

  /** Checkout, called on tables the machine's state stands for, is a run of the machine that returns the same code. */
  lemma CheckoutIsARun(db: Tables, s: State, f: nat, gateway: string, c: CheckoutCall, w: World) returns (t: State)
    requires ForeignKey(db) && w.Sound() && s.orders == Reads(db) && f !in s.flights
    ensures Reaches(s, t)
    ensures t.orders == Reads(TablesAfterCheckout(db, gateway, c, w)) && t.editors == s.editors
    ensures f in t.flights && t.flights == s.flights[f := t.flights[f]] && t.flights[f].customer == c.customer
    ensures t.flights[f].phase == Returned(CodeOf(db, gateway, c, w))
    ensures Creates(db, c, w) ==>
              var charge := Charge(f, w.orderId, CartOrder(c, w).totalAmount);
              t.requests == s.requests + [charge]
              && t.captures == if Confirms(w.reply) then s.captures + [charge] else s.captures
    ensures !Creates(db, c, w) ==> t.requests == s.requests && t.captures == s.captures
  {
    if Creates(db, c, w) {
      t := AcceptedRun(db, s, f, gateway, c, w);
    } else {
      t := RefusedRun(s, f, c, w);
    }
  }
}
