/** Any number of checkouts in flight, interleaved with any other requests: what was charged, marked and cleared. */
module CheckoutRuns {
  import opened Sums
  import opened Money
  import opened Orders
  import opened Lifecycle
  import opened Queries
  import opened DbTables
  import opened Inserts
  import opened Services
  import opened Checkouts
  import opened Interleaving

  predicate Sent(x: Flight) { x.sent }

  predicate Confirmed(x: Flight) { x.confirmed }

  /** What a checkout that has created its order has done, by where it stands; the status code tells it all. */
  predicate Stage(x: Flight, id: Uuid) {
    match x.phase
    case Charging => !x.sent && !x.confirmed && !x.marked && x.clears == 0
    case AwaitingPayment => x.sent && !x.confirmed && !x.marked && x.clears == 0
    case Marking(_) => x.sent && x.confirmed && !x.marked && x.clears == 0
    case Writing(snapshot, edit) =>
      x.sent && x.confirmed && !x.marked && x.clears == 0
      && snapshot.id == id && edit.UpdateStatus? && edit.req.status == Some(Paid)
    case Clearing => x.sent && x.confirmed && x.marked && x.clears == 0
    case Returned(code) =>
      (code == 402 && x.sent && !x.confirmed && !x.marked && x.clears == 0)
      || (code == 500 && x.sent && x.confirmed && !x.marked && x.clears == 0)
      || (code == 200 && x.sent && x.confirmed && x.marked && x.clears == 1)
    case _ => false
  }

  ghost predicate FlightOk(born: map<Uuid, Order>, x: Flight) {
    match x.order
    case None =>
      !x.sent && !x.confirmed && !x.marked && x.clears == 0
      && (x.phase.ReadingCart? || x.phase.Creating? || (x.phase.Returned? && x.phase.code in {400, 401, 502}))
    case Some(id) =>
      id in born && x.amount == born[id].totalAmount && x.customer == born[id].customerId && Stage(x, id)
  }

  ghost predicate FlightsOk(born: map<Uuid, Order>, flights: map<nat, Flight>) {
    forall f :: f in flights ==> FlightOk(born, flights[f])
  }

  /** No two checkouts share an order. */
  ghost predicate Owned(flights: map<nat, Flight>) {
    forall f, g :: f in flights && g in flights && f != g && flights[f].order.Some? ==> flights[f].order != flights[g].order
  }

  predicate ChargeOk(c: Charge, flights: map<nat, Flight>, flag: Flight -> bool) {
    c.flight in flights && flag(flights[c.flight])
    && flights[c.flight].order == Some(c.order) && flights[c.flight].amount == c.amount
  }

  /** The list holds exactly one entry, with its order and amount, for each checkout that is flagged. */
  ghost predicate LedgerOk(list: seq<Charge>, flights: map<nat, Flight>, flag: Flight -> bool) {
    (forall i :: 0 <= i < |list| ==> ChargeOk(list[i], flights, flag))
    && (forall i, j :: 0 <= i < j < |list| ==> list[i].flight != list[j].flight)
    && (forall f :: f in flights && flag(flights[f]) ==> exists i :: 0 <= i < |list| && list[i].flight == f)
  }

  ghost predicate CreatedOk(created: seq<Uuid>, orders: map<Uuid, Order>) {
    Distinct(created) && forall id :: id in created <==> id in orders
  }

  /** A committed edit made the order PAID. */
  ghost predicate PaidCommit(commits: seq<Commit>, id: Uuid) {
    exists k :: 0 <= k < |commits| && commits[k].order == id
                && commits[k].edit.UpdateStatus? && commits[k].edit.req.status == Some(Paid)
  }

  ghost predicate MarksOk(commits: seq<Commit>, flights: map<nat, Flight>) {
    forall f :: f in flights && flights[f].marked && flights[f].order.Some? ==> PaidCommit(commits, flights[f].order.value)
  }

  ghost predicate CheckoutsOk(s: State) {
    FlightsOk(s.born, s.flights) && Owned(s.flights) && LedgerOk(s.requests, s.flights, Sent)
    && LedgerOk(s.captures, s.flights, Confirmed) && CreatedOk(s.created, s.orders) && MarksOk(s.commits, s.flights)
  }

  // ---------------------------------------------------------------- one flight changes

  lemma OwnedKeeps(flights: map<nat, Flight>, f: nat, x: Flight)
    requires Owned(flights)
    requires x.order.None? || (f in flights && flights[f].order == x.order)
             || (forall g :: g in flights ==> flights[g].order != x.order)
    ensures Owned(flights[f := x])
  {
  }

  lemma LedgerSame(list: seq<Charge>, flights: map<nat, Flight>, flag: Flight -> bool, f: nat, x: Flight)
    requires LedgerOk(list, flights, flag)
    requires f in flights ==> flag(x) == flag(flights[f])
    requires f in flights && flag(x) ==> x.order == flights[f].order && x.amount == flights[f].amount
    requires f !in flights ==> !flag(x)
    ensures LedgerOk(list, flights[f := x], flag)
  {
    var after := flights[f := x];
    forall i | 0 <= i < |list|
      ensures ChargeOk(list[i], after, flag)
    {
      assert ChargeOk(list[i], flights, flag);
    }
  }

  lemma LedgerAppend(list: seq<Charge>, flights: map<nat, Flight>, flag: Flight -> bool, f: nat, x: Flight)
    requires LedgerOk(list, flights, flag) && flag(x) && x.order.Some?
    requires f in flights ==> !flag(flights[f])
    ensures LedgerOk(list + [ChargeOf(f, x)], flights[f := x], flag)
  {
    var after, longer := flights[f := x], list + [ChargeOf(f, x)];
    forall i | 0 <= i < |longer|
      ensures ChargeOk(longer[i], after, flag)
    {
      if i < |list| {
        assert ChargeOk(list[i], flights, flag);
      }
    }
    forall i, j | 0 <= i < j < |longer|
      ensures longer[i].flight != longer[j].flight
    {
      assert ChargeOk(list[i], flights, flag);
    }
    forall g | g in after && flag(after[g])
      ensures exists i :: 0 <= i < |longer| && longer[i].flight == g
    {
      if g == f {
        assert longer[|list|].flight == g;
      } else {
        var i :| 0 <= i < |list| && list[i].flight == g;
        assert longer[i].flight == g;
      }
    }
  }

  lemma BirthKeepsFlights(born: map<Uuid, Order>, stored: Order, flights: map<nat, Flight>)
    requires FlightsOk(born, flights) && stored.id !in born
    ensures FlightsOk(born[stored.id := stored], flights)
    ensures forall f :: f in flights ==> flights[f].order != Some(stored.id)
  {
    forall f | f in flights
      ensures FlightOk(born[stored.id := stored], flights[f]) && flights[f].order != Some(stored.id)
    {
      assert FlightOk(born, flights[f]);
    }
  }

  lemma CreatedKeeps(created: seq<Uuid>, orders: map<Uuid, Order>, stored: Order)
    requires CreatedOk(created, orders) && stored.id !in orders
    ensures CreatedOk(created + [stored.id], orders[stored.id := stored])
  {
  }

  lemma CommitKeepsMarks(commits: seq<Commit>, c: Commit, flights: map<nat, Flight>)
    requires MarksOk(commits, flights)
    ensures MarksOk(commits + [c], flights)
  {
    forall f | f in flights && flights[f].marked && flights[f].order.Some?
      ensures PaidCommit(commits + [c], flights[f].order.value)
    {
      var id := flights[f].order.value;
      assert PaidCommit(commits, id);
      var k :| 0 <= k < |commits| && commits[k].order == id
               && commits[k].edit.UpdateStatus? && commits[k].edit.req.status == Some(Paid);
      assert (commits + [c])[k] == commits[k];
    }
  }

  /** A checkout moves on, keeping its order, its amount and both its ledger flags. */
  lemma MoveKeepsCheckouts(s: State, f: nat, x: Flight)
    requires CheckoutsOk(s) && FlightOk(s.born, x)
    requires f in s.flights ==>
               var y := s.flights[f]; x.order == y.order && x.amount == y.amount && x.sent == y.sent && x.confirmed == y.confirmed
    requires f !in s.flights ==> x.order.None?
    requires x.marked && x.order.Some? ==> PaidCommit(s.commits, x.order.value)
    ensures CheckoutsOk(SetFlight(s, f, x))
  {
    OwnedKeeps(s.flights, f, x);
    LedgerSame(s.requests, s.flights, Sent, f, x);
    LedgerSame(s.captures, s.flights, Confirmed, f, x);
  }

  // ---------------------------------------------------------------- steps

  /** A checkout sends its payment request. */
  lemma SendKeepsCheckouts(s: State, f: nat, x: Flight)
    requires CheckoutsOk(s) && f in s.flights && s.flights[f].phase.Charging?
    requires x == s.flights[f].(phase := AwaitingPayment, sent := true)
    ensures CheckoutsOk(s.(flights := s.flights[f := x], requests := s.requests + [ChargeOf(f, x)]))
  {
    assert FlightOk(s.born, s.flights[f]);
    OwnedKeeps(s.flights, f, x);
    LedgerAppend(s.requests, s.flights, Sent, f, x);
    LedgerSame(s.captures, s.flights, Confirmed, f, x);
  }

  /** A checkout's payment is confirmed. */
  lemma ConfirmKeepsCheckouts(s: State, f: nat, x: Flight, paymentId: string)
    requires CheckoutsOk(s) && f in s.flights && s.flights[f].phase.AwaitingPayment?
    requires x == s.flights[f].(phase := Marking(paymentId), confirmed := true)
    ensures CheckoutsOk(s.(flights := s.flights[f := x], captures := s.captures + [ChargeOf(f, x)]))
  {
    assert FlightOk(s.born, s.flights[f]);
    OwnedKeeps(s.flights, f, x);
    LedgerSame(s.requests, s.flights, Sent, f, x);
    LedgerAppend(s.captures, s.flights, Confirmed, f, x);
  }

  lemma LocalKeepsCheckouts(s: State, a: Action)
    requires CheckoutsOk(s) && Enabled(s, a) && IsLocal(a)
    ensures CheckoutsOk(DoLocal(s, a))
  {
    var f := a.flight;
    var x := Flown(if f in s.flights then Some(s.flights[f]) else None, a);
    if a.SendPayment? {
      SendKeepsCheckouts(s, f, x);
    } else if a.AnswerPayment? && Confirms(a.reply) {
      ConfirmKeepsCheckouts(s, f, x, a.reply.body.id);
    } else {
      assert f in s.flights ==> FlightOk(s.born, s.flights[f]);
      MovedIsOk(s, a, x);
      MoveKeepsCheckouts(s, f, x);
      assert DoLocal(s, a) == SetFlight(s, f, x);
    }
  }

  lemma MovedIsOk(s: State, a: Action, x: Flight)
    requires CheckoutsOk(s) && Enabled(s, a) && IsLocal(a) && !a.SendPayment? && !(a.AnswerPayment? && Confirms(a.reply))
    requires x == Flown(if a.flight in s.flights then Some(s.flights[a.flight]) else None, a)
    ensures FlightOk(s.born, x)
    ensures x.marked && x.order.Some? ==> PaidCommit(s.commits, x.order.value)
  {
    assert a.flight in s.flights ==> FlightOk(s.born, s.flights[a.flight]);
  }

  lemma BirthKeepsCheckouts(s: State, stored: Order)
    requires CheckoutsOk(s) && s.born.Keys == s.orders.Keys && stored.id !in s.orders
    ensures CheckoutsOk(Insert(s, stored))
    ensures forall f :: f in s.flights ==> s.flights[f].order != Some(stored.id)
  {
    BirthKeepsFlights(s.born, stored, s.flights);
    CreatedKeeps(s.created, s.orders, stored);
  }

  lemma CreateKeepsCheckouts(s: State, f: nat, stored: Order, amount: Decimal)
    requires CheckoutsOk(s) && s.born.Keys == s.orders.Keys && f in s.flights && s.flights[f].phase.Creating?
    requires stored.totalAmount == amount && stored.customerId == s.flights[f].customer && stored.id !in s.orders
    ensures CheckoutsOk(DoCreate(s, f, stored, amount))
  {
    var y := s.flights[f];
    assert FlightOk(s.born, y);
    var x := y.(phase := Charging, order := Some(stored.id), amount := amount);
    BirthKeepsCheckouts(s, stored);
    var t := Insert(s, stored);
    OwnedKeeps(t.flights, f, x);
    LedgerSame(t.requests, t.flights, Sent, f, x);
    LedgerSame(t.captures, t.flights, Confirmed, f, x);
  }

  lemma CreateFailureKeepsCheckouts(s: State, f: nat)
    requires CheckoutsOk(s) && f in s.flights && s.flights[f].phase.Creating?
    ensures CheckoutsOk(End(s, f, 400))
  {
    assert FlightOk(s.born, s.flights[f]);
    MoveKeepsCheckouts(s, f, s.flights[f].(phase := Returned(400)));
  }

  /** Cart prices are whole cents, so what the store keeps of the order has the total that is charged. */
  lemma ChargedTotalIsStored(customer: string, cart: Cart, address: Option<ShippingAddress>, id: Uuid,
                             itemIds: seq<Uuid>, now: Instant, persist: Instant, stored: Order)
    requires Creatable(CartRequest(customer, cart, address), id, itemIds, now, persist, stored)
    ensures stored.totalAmount == CreatedOrder(CartRequest(customer, cart, address), id, itemIds, now, persist).totalAmount
    ensures stored.customerId == customer && stored.id == id
  {
    var r := CartRequest(customer, cart, address);
    var o := CreatedOrder(r, id, itemIds, now, persist);
    CreatedIsNew(r, id, itemIds, now, persist);
    forall i | 0 <= i < |o.items|
      ensures CentExact(o.items[i].unitPrice)
    {
      RoundFixesExactly(cart.items[i].unitPrice);
    }
    ReadBackTotalExact(o);
    TotalIgnoresOrder(stored.items, StoredItems(o));
  }

  lemma CreatingKeepsCheckouts(s: State, a: Action)
    requires CheckoutsOk(s) && s.born.Keys == s.orders.Keys
    requires Enabled(s, a) && (a.CreateFromCart? || a.CreateDirectly?)
    ensures CheckoutsOk(DoCreating(s, a))
  {
    if !a.commits || a.stored.id in s.orders {
      if a.CreateFromCart? {
        CreateFailureKeepsCheckouts(s, a.flight);
      }
    } else if a.CreateFromCart? {
      var cart := s.flights[a.flight].phase.cart;
      ChargedTotalIsStored(a.call.customer, cart, a.call.address, a.id, a.itemIds, a.now, a.persist, a.stored);
      CreateKeepsCheckouts(s, a.flight, a.stored,
                           CreatedOrder(CartRequest(a.call.customer, cart, a.call.address), a.id, a.itemIds, a.now,
                                        a.persist).totalAmount);
    } else {
      BirthKeepsCheckouts(s, a.stored);
    }
  }

  lemma ReadForMarkKeepsCheckouts(s: State, f: nat, gateway: string, now: Instant, today: Instant, readOk: bool)
    requires CheckoutsOk(s) && f in s.flights && s.flights[f].phase.Marking?
    requires s.flights[f].order.Some? && s.flights[f].order.value in s.orders ==>
               s.orders[s.flights[f].order.value].id == s.flights[f].order.value
    ensures CheckoutsOk(DoReadForMark(s, f, gateway, now, today, readOk))
  {
    var y := s.flights[f];
    assert FlightOk(s.born, y);
    if !readOk || y.order.None? || y.order.value !in s.orders {
      MoveKeepsCheckouts(s, f, y.(phase := Returned(500)));
    } else {
      var snapshot := s.orders[y.order.value];
      var edit := UpdateStatus(MarkPaid(gateway, y.phase.paymentId), now, now, today);
      if Refusal(snapshot, edit).Some? {
        MoveKeepsCheckouts(s, f, y.(phase := Returned(500)));
      } else {
        MoveKeepsCheckouts(s, f, y.(phase := Writing(snapshot, edit)));
      }
    }
  }

  lemma WroteKeepsCheckouts(s: State, snapshot: Order, e: Edit)
    requires CheckoutsOk(s) && snapshot.id in s.orders && Refusal(snapshot, e).None?
    ensures CheckoutsOk(Wrote(s, snapshot, e))
    ensures e.UpdateStatus? && e.req.status == Some(Paid) ==> PaidCommit(Wrote(s, snapshot, e).commits, snapshot.id)
  {
    var c := Commit(snapshot.id, e, Harmless(s.orders[snapshot.id], snapshot, e));
    CommitKeepsMarks(s.commits, c, s.flights);
    assert (s.commits + [c])[|s.commits|] == c;
  }

  lemma WriteMarkKeepsCheckouts(s: State, f: nat, persist: Instant, commits: bool)
    requires CheckoutsOk(s) && AllDerived(s) && f in s.flights && s.flights[f].phase.Writing?
    ensures CheckoutsOk(DoWriteMark(s, f, persist, commits))
  {
    MarkIsWrote(s, f, persist, commits);
    MarkedIsOk(s, f, s.flights[f].phase.snapshot, AtPersist(s.flights[f].phase.edit, persist), persist, commits);
  }

  lemma MarkedIsOk(s: State, f: nat, snapshot: Order, edit: Edit, persist: Instant, commits: bool)
    requires CheckoutsOk(s) && f in s.flights && s.flights[f].phase.Writing? && snapshot.id in s.orders
    requires snapshot == s.flights[f].phase.snapshot && edit == AtPersist(s.flights[f].phase.edit, persist)
    ensures var y := s.flights[f];
            if !commits || Refusal(snapshot, edit).Some? then CheckoutsOk(SetFlight(s, f, y.(phase := Returned(500))))
            else CheckoutsOk(SetFlight(Wrote(s, snapshot, edit), f, y.(phase := Clearing, marked := true)))
  {
    var y := s.flights[f];
    assert FlightOk(s.born, y);
    if !commits || Refusal(snapshot, edit).Some? {
      MoveKeepsCheckouts(s, f, y.(phase := Returned(500)));
    } else {
      WroteKeepsCheckouts(s, snapshot, edit);
      MoveKeepsCheckouts(Wrote(s, snapshot, edit), f, y.(phase := Clearing, marked := true));
    }
  }

  lemma EditingKeepsCheckouts(s: State, a: Action)
    requires CheckoutsOk(s) && AllDerived(s) && Enabled(s, a) && (a.ReadForEdit? || a.WriteEdit?)
    ensures CheckoutsOk(Do(s, a))
  {
    if a.WriteEdit? {
      EditIsWrote(s, a.editor, a.persist, a.commits);
      var rest := s.(editors := s.editors - {a.editor});
      var snapshot, edit := s.editors[a.editor].snapshot, AtPersist(s.editors[a.editor].edit, a.persist);
      if a.commits && Refusal(snapshot, edit).None? {
        WroteKeepsCheckouts(rest, snapshot, edit);
      }
    }
  }

  lemma DoKeepsCheckouts(s: State, a: Action)
    requires CheckoutsOk(s) && AllDerived(s)
    ensures CheckoutsOk(Do(s, a))
  {
    if Enabled(s, a) {
      if IsLocal(a) {
        LocalKeepsCheckouts(s, a);
      } else if a.CreateFromCart? || a.CreateDirectly? {
        CreatingKeepsCheckouts(s, a);
      } else if a.ReadForMark? {
        if s.flights[a.flight].order.Some? && s.flights[a.flight].order.value in s.orders {
          RowIsSnapshot(s, s.flights[a.flight].order.value);
        }
        ReadForMarkKeepsCheckouts(s, a.flight, a.gateway, a.now, a.today, a.readOk);
      } else if a.WriteMark? {
        WriteMarkKeepsCheckouts(s, a.flight, a.persist, a.commits);
      } else {
        EditingKeepsCheckouts(s, a);
      }
    }
  }

  lemma {:induction false} EveryCheckoutIsOk(steps: seq<Action>)
    ensures CheckoutsOk(After(steps))
  {
    if steps != [] {
      var init := steps[..|steps| - 1];
      EveryCheckoutIsOk(init);
      EverythingIsDerived(init);
      DoKeepsCheckouts(After(init), steps[|steps| - 1]);
    }
  }

  // ---------------------------------------------------------------- what holds of every run

  /**
   However the other parties answer and whatever else runs, a cart is cleared once at most, and only after
   a payment for exactly that order and its total was confirmed and a PAID row of it was committed.
   */
  lemma CartClearedOnlyAfterPaid(steps: seq<Action>, f: nat)
    requires f in After(steps).flights && After(steps).flights[f].clears > 0
    ensures var s := After(steps);
            var x := s.flights[f];
            x.clears == 1 && x.order.Some? && x.order.value in s.orders
            && x.amount == s.orders[x.order.value].totalAmount && x.customer == s.orders[x.order.value].customerId
            && PaidCommit(s.commits, x.order.value)
            && exists i :: 0 <= i < |s.captures| && s.captures[i] == Charge(f, x.order.value, x.amount)
  {
    EveryCheckoutIsOk(steps);
    EverythingIsDerived(steps);
    var s := After(steps);
    var x := s.flights[f];
    assert FlightOk(s.born, x);
    DerivedTotal(s, x.order.value);
    assert Confirmed(x);
    var i :| 0 <= i < |s.captures| && s.captures[i].flight == f;
    assert ChargeOk(s.captures[i], s.flights, Confirmed);
  }

  lemma DerivedTotal(s: State, id: Uuid)
    requires AllDerived(s) && id in s.born
    ensures id in s.orders && s.orders[id].totalAmount == s.born[id].totalAmount
            && s.orders[id].customerId == s.born[id].customerId
  {
    assert RowDerived(s.born[id], s.orders[id], EditsOf(s.commits, id), id);
    DerivedKeeps(s.born[id], id, s.orders[id], EditsOf(s.commits, id));
  }

  /** Each order id gets at most one payment request and at most one capture. */
  lemma OneRequestPerOrder(steps: seq<Action>, i: nat, j: nat)
    ensures var s := After(steps);
            (i < j < |s.requests| ==> s.requests[i].order != s.requests[j].order)
            && (i < j < |s.captures| ==> s.captures[i].order != s.captures[j].order)
  {
    EveryCheckoutIsOk(steps);
    var s := After(steps);
    if i < j < |s.requests| {
      assert ChargeOk(s.requests[i], s.flights, Sent) && ChargeOk(s.requests[j], s.flights, Sent);
    }
    if i < j < |s.captures| {
      assert ChargeOk(s.captures[i], s.flights, Confirmed) && ChargeOk(s.captures[j], s.flights, Confirmed);
    }
  }

  /** The status code returned tells which of created, charged, paid, marked and clear-attempted happened. */
  lemma CodeTellsWhatHappened(steps: seq<Action>, f: nat)
    requires f in After(steps).flights && After(steps).flights[f].phase.Returned?
    ensures var x := After(steps).flights[f];
            var code := x.phase.code;
            code in {200, 400, 401, 402, 500, 502}
            && (x.order.Some? <==> code in {200, 402, 500})
            && (x.sent <==> code in {200, 402, 500})
            && (x.confirmed <==> code in {200, 500})
            && (x.marked <==> code == 200)
            && x.clears == if code == 200 then 1 else 0
  {
    EveryCheckoutIsOk(steps);
    assert FlightOk(After(steps).born, After(steps).flights[f]);
  }

  // ---------------------------------------------------------------- conservation of captured money

  function Amount(c: Charge): Decimal { c.amount }

  function CapturedIds(captures: seq<Charge>): seq<Uuid> {
    seq(|captures|, i requires 0 <= i < |captures| => captures[i].order)
  }

  function IsCaptured(s: State): Uuid -> bool {
    (id: Uuid) => id in CapturedIds(s.captures)
  }

  function TotalOf(s: State): Uuid -> Decimal {
    (id: Uuid) => if id in s.orders then s.orders[id].totalAmount else 0.0
  }

  predicate HasStatus(s: State, id: Uuid, status: OrderStatus) {
    id in s.orders && s.orders[id].status == status
  }

  /** The total of an order that satisfies p, else nothing. */
  function TotalWhere(s: State, p: Uuid -> bool): Uuid -> Decimal {
    (id: Uuid) => if p(id) then TotalOf(s)(id) else 0.0
  }

  function IsPaid(s: State): Uuid -> bool {
    (id: Uuid) => HasStatus(s, id, Paid)
  }

  function CapturedNotPaid(s: State): Uuid -> bool {
    (id: Uuid) => IsCaptured(s)(id) && !HasStatus(s, id, Paid)
  }

  function CapturedPending(s: State): Uuid -> bool {
    (id: Uuid) => IsCaptured(s)(id) && HasStatus(s, id, Pending)
  }

  function PaidNotCaptured(s: State): Uuid -> bool {
    (id: Uuid) => HasStatus(s, id, Paid) && !IsCaptured(s)(id)
  }

  function CapturedPaid(s: State): Uuid -> bool {
    (id: Uuid) => IsCaptured(s)(id) && HasStatus(s, id, Paid)
  }

  /** The totals of the stored orders that satisfy p, added up. */
  function SumWhere(s: State, p: Uuid -> bool): Decimal {
    Sum(TotalWhere(s, p), s.created)
  }

  lemma {:induction false} SumFiltered(s: State, p: Uuid -> bool, ids: seq<Uuid>)
    ensures Sum(TotalOf(s), Filter(p, ids)) == Sum(TotalWhere(s, p), ids)
  {
    if ids != [] {
      var n := |ids| - 1;
      SumFiltered(s, p, ids[..n]);
      SumAppend(TotalOf(s), Filter(p, ids[..n]), ids[n]);
    }
  }

  lemma {:induction false} FilterDistinct(p: Uuid -> bool, ids: seq<Uuid>)
    requires Distinct(ids)
    ensures Distinct(Filter(p, ids))
  {
    if ids != [] {
      var n := |ids| - 1;
      FilterDistinct(p, ids[..n]);
      assert forall x :: x in Filter(p, ids[..n]) ==> x in ids[..n];
    }
  }

  lemma CapturedIdsDistinct(s: State)
    requires CheckoutsOk(s)
    ensures Distinct(CapturedIds(s.captures))
  {
    var ids := CapturedIds(s.captures);
    forall i, j | 0 <= i < j < |ids|
      ensures ids[i] != ids[j]
    {
      assert ChargeOk(s.captures[i], s.flights, Confirmed) && ChargeOk(s.captures[j], s.flights, Confirmed);
    }
  }

  lemma CapturedIsCreated(s: State, i: nat)
    requires CheckoutsOk(s) && AllDerived(s) && i < |s.captures|
    ensures s.captures[i].order in s.created && s.captures[i].amount == TotalOf(s)(s.captures[i].order)
  {
    var c := s.captures[i];
    assert ChargeOk(c, s.flights, Confirmed);
    assert FlightOk(s.born, s.flights[c.flight]);
    DerivedTotal(s, c.order);
  }

  /** The captures add up to the totals of the captured orders. */
  lemma CapturesAreTotals(s: State)
    requires CheckoutsOk(s) && AllDerived(s)
    ensures Sum(Amount, s.captures) == SumWhere(s, IsCaptured(s))
  {
    var ids, some := CapturedIds(s.captures), Filter(IsCaptured(s), s.created);
    forall i | 0 <= i < |s.captures|
      ensures s.captures[i].order in s.created && s.captures[i].amount == TotalOf(s)(s.captures[i].order)
    {
      CapturedIsCreated(s, i);
    }
    CapturedIdsDistinct(s);
    FilterDistinct(IsCaptured(s), s.created);
    DistinctPermutation(ids, some);
    SumPermuted(TotalOf(s), ids, some);
    SumFiltered(s, IsCaptured(s), s.created);
    SumMapped(TotalOf(s), (c: Charge) => c.order, Amount, s.captures, ids);
  }

  /** Captured orders are PAID or not, PAID orders captured or not. */
  lemma PaidAndCapturedSplit(s: State)
    ensures SumWhere(s, IsCaptured(s)) == SumWhere(s, CapturedPaid(s)) + SumWhere(s, CapturedNotPaid(s))
    ensures SumWhere(s, IsPaid(s)) == SumWhere(s, CapturedPaid(s)) + SumWhere(s, PaidNotCaptured(s))
  {
    SumSplit(TotalWhere(s, IsCaptured(s)), TotalWhere(s, CapturedPaid(s)), TotalWhere(s, CapturedNotPaid(s)), s.created);
    SumSplit(TotalWhere(s, IsPaid(s)), TotalWhere(s, CapturedPaid(s)), TotalWhere(s, PaidNotCaptured(s)), s.created);
  }

  /**
   Over every run of anything: confirmed captures plus the totals of orders made PAID without one
   are the totals of stored PAID orders plus those of captured orders that are not PAID.
   */
  lemma CapturedMoneyIsConserved(steps: seq<Action>)
    ensures var s := After(steps);
            Sum(Amount, s.captures) + SumWhere(s, PaidNotCaptured(s)) == SumWhere(s, IsPaid(s)) + SumWhere(s, CapturedNotPaid(s))
  {
    EveryCheckoutIsOk(steps);
    EverythingIsDerived(steps);
    var s := After(steps);
    CapturesAreTotals(s);
    PaidAndCapturedSplit(s);
  }

  // ---------------------------------------------------------------- runs of nothing but checkouts

  predicate OnlyCheckouts(steps: seq<Action>) {
    forall i :: 0 <= i < |steps| ==> !steps[i].ReadForEdit? && !steps[i].WriteEdit? && !steps[i].CreateDirectly?
  }

  /** Without other edits an order is PENDING until its checkout marks it PAID. */
  ghost predicate PaidByCheckouts(s: State) {
    s.editors == map[]
    && (forall id :: id in s.orders ==> s.orders[id].status == Pending || s.orders[id].status == Paid)
    && (forall id :: id in s.orders && s.orders[id].status == Paid ==>
                       exists f :: f in s.flights && s.flights[f].marked && s.flights[f].order == Some(id))
  }

  lemma FlightKeepsPaid(s: State, f: nat, x: Flight)
    requires PaidByCheckouts(s)
    requires f in s.flights && s.flights[f].marked ==> x.marked && x.order == s.flights[f].order
    ensures PaidByCheckouts(SetFlight(s, f, x))
  {
    var t := SetFlight(s, f, x);
    forall id | id in t.orders && t.orders[id].status == Paid
      ensures exists g :: g in t.flights && t.flights[g].marked && t.flights[g].order == Some(id)
    {
      var g :| g in s.flights && s.flights[g].marked && s.flights[g].order == Some(id);
      assert g in t.flights && t.flights[g].marked && t.flights[g].order == Some(id);
    }
  }

  lemma LocalKeepsPaid(s: State, a: Action)
    requires PaidByCheckouts(s) && CheckoutsOk(s) && Enabled(s, a) && IsLocal(a)
    ensures PaidByCheckouts(DoLocal(s, a))
  {
    var f := a.flight;
    assert f in s.flights ==> FlightOk(s.born, s.flights[f]);
    var x := Flown(if f in s.flights then Some(s.flights[f]) else None, a);
    FlightKeepsPaid(s, f, x);
    var t := DoLocal(s, a);
    assert t.orders == s.orders && t.flights == SetFlight(s, f, x).flights;
  }

  lemma CreateKeepsPaid(s: State, f: nat, stored: Order, amount: Decimal)
    requires PaidByCheckouts(s) && f in s.flights && !s.flights[f].marked && stored.status == Pending
    ensures PaidByCheckouts(DoCreate(s, f, stored, amount))
  {
    FlightKeepsPaid(Insert(s, stored), f,
                    s.flights[f].(phase := Charging, order := Some(stored.id), amount := amount));
  }

  lemma CreatingKeepsPaid(s: State, a: Action)
    requires PaidByCheckouts(s) && Enabled(s, a) && a.CreateFromCart? && !s.flights[a.flight].marked
    ensures PaidByCheckouts(DoCreating(s, a))
  {
    if !a.commits || a.stored.id in s.orders {
      FlightKeepsPaid(s, a.flight, s.flights[a.flight].(phase := Returned(400)));
    } else {
      var r := CartRequest(a.call.customer, s.flights[a.flight].phase.cart, a.call.address);
      CreatedIsNew(r, a.id, a.itemIds, a.now, a.persist);
      CreateKeepsPaid(s, a.flight, a.stored, CreatedOrder(r, a.id, a.itemIds, a.now, a.persist).totalAmount);
    }
  }

  lemma ReadForMarkKeepsPaid(s: State, f: nat, gateway: string, now: Instant, today: Instant, readOk: bool)
    requires PaidByCheckouts(s) && f in s.flights && s.flights[f].phase.Marking? && !s.flights[f].marked
    ensures PaidByCheckouts(DoReadForMark(s, f, gateway, now, today, readOk))
  {
    var t := DoReadForMark(s, f, gateway, now, today, readOk);
    FlightKeepsPaid(s, f, t.flights[f]);
    assert t.flights == SetFlight(s, f, t.flights[f]).flights;
  }

  lemma WritingIsMarking(s: State, f: nat)
    requires FlightsOk(s.born, s.flights) && f in s.flights && s.flights[f].phase.Writing?
    ensures var y := s.flights[f];
            !y.marked && y.order == Some(y.phase.snapshot.id)
            && y.phase.edit.UpdateStatus? && y.phase.edit.req.status == Some(Paid)
  {
    assert FlightOk(s.born, s.flights[f]);
  }

  lemma WriteMarkKeepsPaid(s: State, f: nat, persist: Instant, commits: bool)
    requires PaidByCheckouts(s) && CheckoutsOk(s) && AllDerived(s) && f in s.flights && s.flights[f].phase.Writing?
    ensures PaidByCheckouts(DoWriteMark(s, f, persist, commits))
  {
    MarkIsWrote(s, f, persist, commits);
    WritingIsMarking(s, f);
    MarkedKeepsPaid(s, f, s.flights[f], s.flights[f].phase.snapshot, AtPersist(s.flights[f].phase.edit, persist), persist, commits);
  }

  lemma MarkedKeepsPaid(s: State, f: nat, y: Flight, snapshot: Order, edit: Edit, persist: Instant, commits: bool)
    requires PaidByCheckouts(s) && f in s.flights && y == s.flights[f] && !y.marked && y.order == Some(snapshot.id)
    requires snapshot.id in s.orders && edit.UpdateStatus? && edit.req.status == Some(Paid)
    ensures if !commits || Refusal(snapshot, edit).Some? then PaidByCheckouts(SetFlight(s, f, y.(phase := Returned(500))))
            else PaidByCheckouts(SetFlight(Wrote(s, snapshot, edit), f, y.(phase := Clearing, marked := true)))
  {
    if !commits || Refusal(snapshot, edit).Some? {
      FlightKeepsPaid(s, f, y.(phase := Returned(500)));
    } else {
      MarkedIsPaid(s, f, snapshot, edit, y.(phase := Clearing, marked := true));
    }
  }

  lemma MarkedIsPaid(s: State, f: nat, snapshot: Order, e: Edit, x: Flight)
    requires PaidByCheckouts(s) && f in s.flights && x.marked && x.order == s.flights[f].order == Some(snapshot.id)
    requires snapshot.id in s.orders && Refusal(snapshot, e).None? && e.UpdateStatus? && e.req.status == Some(Paid)
    ensures PaidByCheckouts(SetFlight(Wrote(s, snapshot, e), f, x))
  {
    var t := SetFlight(Wrote(s, snapshot, e), f, x);
    forall id | id in t.orders && t.orders[id].status == Paid
      ensures exists g :: g in t.flights && t.flights[g].marked && t.flights[g].order == Some(id)
    {
      if id == snapshot.id {
        assert t.flights[f].marked && t.flights[f].order == Some(id);
      } else {
        var g :| g in s.flights && s.flights[g].marked && s.flights[g].order == Some(id);
        assert g in t.flights && t.flights[g].marked && t.flights[g].order == Some(id);
      }
    }
  }

  lemma DoKeepsPaid(s: State, a: Action)
    requires PaidByCheckouts(s) && CheckoutsOk(s) && AllDerived(s)
    requires !a.ReadForEdit? && !a.WriteEdit? && !a.CreateDirectly?
    ensures PaidByCheckouts(Do(s, a))
  {
    if Enabled(s, a) {
      if IsLocal(a) {
        LocalKeepsPaid(s, a);
      } else {
        assert FlightOk(s.born, s.flights[a.flight]);
        if a.CreateFromCart? {
          CreatingKeepsPaid(s, a);
        } else if a.ReadForMark? {
          ReadForMarkKeepsPaid(s, a.flight, a.gateway, a.now, a.today, a.readOk);
        } else {
          WriteMarkKeepsPaid(s, a.flight, a.persist, a.commits);
        }
      }
    }
  }

  lemma {:induction false} CheckoutsAlonePay(steps: seq<Action>)
    requires OnlyCheckouts(steps)
    ensures PaidByCheckouts(After(steps))
  {
    if steps != [] {
      var init := steps[..|steps| - 1];
      CheckoutsAlonePay(init);
      EveryCheckoutIsOk(init);
      EverythingIsDerived(init);
      DoKeepsPaid(After(init), steps[|steps| - 1]);
    }
  }

  lemma PaidIsCaptured(s: State, id: Uuid)
    requires PaidByCheckouts(s) && CheckoutsOk(s) && HasStatus(s, id, Paid)
    ensures IsCaptured(s)(id)
  {
    var f :| f in s.flights && s.flights[f].marked && s.flights[f].order == Some(id);
    assert FlightOk(s.born, s.flights[f]);
    assert Confirmed(s.flights[f]);
    var i :| 0 <= i < |s.captures| && s.captures[i].flight == f;
    assert ChargeOk(s.captures[i], s.flights, Confirmed);
    assert CapturedIds(s.captures)[i] == id;
  }

  lemma CapturedSplits(s: State)
    requires PaidByCheckouts(s) && CheckoutsOk(s)
    ensures forall id :: id in s.created ==>
              TotalWhere(s, IsCaptured(s))(id) == TotalWhere(s, IsPaid(s))(id) + TotalWhere(s, CapturedPending(s))(id)
  {
    forall id | id in s.created
      ensures TotalWhere(s, IsCaptured(s))(id) == TotalWhere(s, IsPaid(s))(id) + TotalWhere(s, CapturedPending(s))(id)
    {
      if HasStatus(s, id, Paid) {
        PaidIsCaptured(s, id);
      }
    }
  }

  /**
   Over every run of checkouts alone, those in flight included, the confirmed captures are exactly
   the totals of stored PAID orders plus the totals of captured orders still PENDING.
   */
  lemma CheckoutsConserveMoney(steps: seq<Action>)
    requires OnlyCheckouts(steps)
    ensures var s := After(steps);
            Sum(Amount, s.captures) == SumWhere(s, IsPaid(s)) + SumWhere(s, CapturedPending(s))
  {
    CheckoutsAlonePay(steps);
    EveryCheckoutIsOk(steps);
    EverythingIsDerived(steps);
    var s := After(steps);
    CapturesAreTotals(s);
    CapturedSplits(s);
    SumSplit(TotalWhere(s, IsCaptured(s)), TotalWhere(s, IsPaid(s)), TotalWhere(s, CapturedPending(s)), s.created);
  }
}
