/** One amount through a whole checkout: created, charged, captured, announced and stored, whatever is interleaved. */
module CheckoutEvents {
  import opened Money
  import opened Orders
  import opened Lifecycle
  import opened Services
  import opened Checkouts
  import opened Interleaving
  import opened Races
  import opened CheckoutRuns
  import opened Announcements

  predicate CreatedFor(e: Event, amount: Decimal) {
    e.OrderCreatedEvent? && e.totalAmount == amount
  }

  /** What is announced, or still to be, of the creation of a checkout's order names the amount of the checkout. */
  ghost predicate AmountAnnounced(x: Flight, owed: map<Occasion, Event>, attempts: seq<Attempt>) {
    x.order.Some? ==>
      (Birth(x.order.value) in owed ==> CreatedFor(owed[Birth(x.order.value)], x.amount))
      && forall i :: 0 <= i < |attempts| && attempts[i].occasion == Birth(x.order.value) ==> CreatedFor(attempts[i].event, x.amount)
  }

  ghost predicate AmountsAnnounced(u: Notices) {
    forall f :: f in u.state.flights ==> AmountAnnounced(u.state.flights[f], u.owed, u.attempts)
  }

  /** Every checkout with an order had it before, with the same amount. */
  predicate AmountsKept(before: map<nat, Flight>, after: map<nat, Flight>) {
    forall f :: f in after && after[f].order.Some? ==>
                  f in before && before[f].order == after[f].order && before[f].amount == after[f].amount
  }

  lemma LocalKeepsAmounts(s: State, a: Action)
    requires Enabled(s, a) && IsLocal(a)
    ensures AmountsKept(s.flights, DoLocal(s, a).flights)
  {
  }

  lemma ReadKeepsAmounts(s: State, f: nat, gateway: string, now: Instant, today: Instant, readOk: bool)
    requires f in s.flights && s.flights[f].phase.Marking?
    ensures AmountsKept(s.flights, DoReadForMark(s, f, gateway, now, today, readOk).flights)
  {
  }

  lemma WriteKeepsAmounts(s: State, f: nat, persist: Instant, commits: bool)
    requires f in s.flights && s.flights[f].phase.Writing?
    ensures AmountsKept(s.flights, DoWriteMark(s, f, persist, commits).flights)
  {
  }

  lemma FailedCreationKeepsAmounts(s: State, a: Action)
    requires Enabled(s, a) && (a.CreateFromCart? || a.CreateDirectly?) && (!a.commits || a.stored.id in s.orders)
    ensures AmountsKept(s.flights, DoCreating(s, a).flights)
  {
  }

  /** A step that creates no order gives no checkout an order or another amount. */
  lemma FlightsKeepAmounts(s: State, a: Action)
    requires Creation(s, a).None?
    ensures AmountsKept(s.flights, Do(s, a).flights)
  {
    if Enabled(s, a) {
      if IsLocal(a) {
        LocalKeepsAmounts(s, a);
      } else if a.CreateFromCart? || a.CreateDirectly? {
        FailedCreationKeepsAmounts(s, a);
      } else if a.ReadForMark? {
        ReadKeepsAmounts(s, a.flight, a.gateway, a.now, a.today, a.readOk);
      } else if a.WriteMark? {
        WriteKeepsAmounts(s, a.flight, a.persist, a.commits);
      }
    }
  }

  /** A step that creates an order gives it to one checkout at most, with the amount that is announced. */
  lemma CreationSetsAmount(s: State, a: Action)
    requires Creation(s, a).Some?
    ensures var o, t := Creation(s, a).value, Do(s, a);
            forall f :: f in t.flights ==>
                          (f in s.flights && t.flights[f] == s.flights[f])
                          || (t.flights[f].order == Some(o.id) && t.flights[f].amount == o.totalAmount)
  {
    if a.CreateFromCart? {
      var r := CartRequest(a.call.customer, s.flights[a.flight].phase.cart, a.call.address);
      CreatedIsNew(r, a.id, a.itemIds, a.now, a.persist);
      var amount := CreatedOrder(r, a.id, a.itemIds, a.now, a.persist).totalAmount;
      assert Do(s, a) == DoCreate(s, a.flight, a.stored, amount);
    } else {
      assert Do(s, a) == Insert(s, a.stored);
    }
  }

  lemma OrdersOfFlightsAreBorn(s: State, f: nat)
    requires CheckoutsOk(s) && f in s.flights && s.flights[f].order.Some?
    ensures s.flights[f].order.value in s.born
  {
    assert FlightOk(s.born, s.flights[f]);
  }

  lemma NoBirthBefore(u: Notices, id: Uuid, i: nat)
    requires AllGenuine(u) && id !in u.state.born && i < |u.attempts|
    ensures u.attempts[i].occasion != Birth(id)
  {
    assert Genuine(u.state, u.attempts[i].occasion, u.attempts[i].event);
  }

  lemma CreationIsFresh(s: State, a: Action)
    requires Creation(s, a).Some?
    ensures Creation(s, a).value.id !in s.orders
  {
    CreationIsGenuine(s, a);
  }

  lemma NextOfCreation(u: Notices, a: Action)
    requires Creation(u.state, a).Some?
    ensures var o := Creation(u.state, a).value;
            Next(u, Act(a)) == Notices(Do(u.state, a), u.owed[Birth(o.id) := CreatedEvent(o)], u.attempts)
  {
    var o := Creation(u.state, a).value;
    assert Owes(u.state, a) == map[Birth(o.id) := CreatedEvent(o)];
    assert u.owed + map[Birth(o.id) := CreatedEvent(o)] == u.owed[Birth(o.id) := CreatedEvent(o)];
  }

  lemma CreatingKeepsAmounts(u: Notices, a: Action)
    requires AmountsAnnounced(u) && CheckoutsOk(u.state) && u.state.born.Keys == u.state.orders.Keys && AllGenuine(u)
    requires Creation(u.state, a).Some?
    ensures AmountsAnnounced(Next(u, Act(a)))
  {
    CreationIsFresh(u.state, a);
    CreationSetsAmount(u.state, a);
    BirthKeepsAmounts(u, Do(u.state, a), Creation(u.state, a).value);
    NextOfCreation(u, a);
  }

  lemma BirthKeepsAmounts(u: Notices, t: State, o: Order)
    requires AmountsAnnounced(u) && CheckoutsOk(u.state) && AllGenuine(u) && o.id !in u.state.born
    requires forall f :: f in t.flights ==>
                           (f in u.state.flights && t.flights[f] == u.state.flights[f])
                           || (t.flights[f].order == Some(o.id) && t.flights[f].amount == o.totalAmount)
    ensures AmountsAnnounced(Notices(t, u.owed[Birth(o.id) := CreatedEvent(o)], u.attempts))
  {
    forall i | 0 <= i < |u.attempts|
      ensures u.attempts[i].occasion != Birth(o.id)
    {
      NoBirthBefore(u, o.id, i);
    }
    forall f | f in t.flights
      ensures AmountAnnounced(t.flights[f], u.owed[Birth(o.id) := CreatedEvent(o)], u.attempts)
    {
      if f in u.state.flights && t.flights[f] == u.state.flights[f] && t.flights[f].order.Some? {
        OrdersOfFlightsAreBorn(u.state, f);
        assert AmountAnnounced(u.state.flights[f], u.owed, u.attempts);
      }
    }
  }

  lemma OtherStepsKeepAmounts(u: Notices, a: Action)
    requires AmountsAnnounced(u) && Creation(u.state, a).None?
    ensures AmountsAnnounced(Next(u, Act(a)))
  {
    FlightsKeepAmounts(u.state, a);
    var t, v := Do(u.state, a), Next(u, Act(a));
    forall f | f in t.flights
      ensures AmountAnnounced(t.flights[f], v.owed, v.attempts)
    {
      if t.flights[f].order.Some? {
        assert AmountAnnounced(u.state.flights[f], u.owed, u.attempts);
      }
    }
  }

  lemma AnnouncingKeepsAmounts(u: Notices, x: Occasion)
    requires AmountsAnnounced(u)
    ensures AmountsAnnounced(Next(u, Announce(x)))
  {
    var v := Next(u, Announce(x));
    forall f | f in v.state.flights
      ensures AmountAnnounced(v.state.flights[f], v.owed, v.attempts)
    {
      assert AmountAnnounced(u.state.flights[f], u.owed, u.attempts);
    }
  }

  lemma {:induction false} EveryAmountIsAnnounced(moves: seq<Move>)
    ensures AmountsAnnounced(NoticesAfter(moves))
  {
    if moves != [] {
      var init, m := moves[..|moves| - 1], moves[|moves| - 1];
      EveryAmountIsAnnounced(init);
      NoticesAreOk(init);
      NoticesRunTheMachine(init);
      EverythingIsDerived(Acts(init));
      EveryCheckoutIsOk(Acts(init));
      if m.Announce? {
        AnnouncingKeepsAmounts(NoticesAfter(init), m.occasion);
      } else if Creation(NoticesAfter(init).state, m.a).Some? {
        CreatingKeepsAmounts(NoticesAfter(init), m.a);
      } else {
        OtherStepsKeepAmounts(NoticesAfter(init), m.a);
      }
    }
  }

  /**
   However requests and announcements interleave, the amount of a checkout is the total of its order as stored, the amount of
   every charge and capture made for it, the total announced of its creation and the amount announced of its payment.
   */
  lemma OneAmountPerCheckout(moves: seq<Move>, f: nat, id: Uuid)
    requires f in NoticesAfter(moves).state.flights && NoticesAfter(moves).state.flights[f].order == Some(id)
    ensures var u := NoticesAfter(moves);
            var amount := u.state.flights[f].amount;
            id in u.state.orders && u.state.orders[id].totalAmount == amount
            && (forall i :: 0 <= i < |u.state.requests| && u.state.requests[i].order == id ==> u.state.requests[i].amount == amount)
            && (forall i :: 0 <= i < |u.state.captures| && u.state.captures[i].order == id ==> u.state.captures[i].amount == amount)
            && forall i :: 0 <= i < |u.attempts| && u.attempts[i].event.orderId == id ==>
                             (u.attempts[i].event.OrderCreatedEvent? ==> u.attempts[i].event.totalAmount == amount)
                             && (u.attempts[i].event.OrderPaidEvent? ==> u.attempts[i].event.amount == amount)
  {
    NoticesRunTheMachine(moves);
    CheckoutAmounts(Acts(moves), f, id);
    EveryAmountIsAnnounced(moves);
    var u := NoticesAfter(moves);
    forall i | 0 <= i < |u.attempts| && u.attempts[i].event.orderId == id
      ensures u.attempts[i].event.OrderCreatedEvent? ==> u.attempts[i].event.totalAmount == u.state.flights[f].amount
      ensures u.attempts[i].event.OrderPaidEvent? ==> u.attempts[i].event.amount == u.state.flights[f].amount
    {
      AnnouncementsFollowCommits(moves, i);
      assert AmountAnnounced(u.state.flights[f], u.owed, u.attempts);
      if u.attempts[i].occasion.OfCommit? {
        CalledForIsNoCreation(u.state.commits[u.attempts[i].occasion.number].edit);
      }
    }
  }

  lemma CalledForIsNoCreation(e: Edit)
    ensures Kinds(e) != [OrderCreated]
  {
  }

  lemma CheckoutAmounts(steps: seq<Action>, f: nat, id: Uuid)
    requires f in After(steps).flights && After(steps).flights[f].order == Some(id)
    ensures var s := After(steps);
            var amount := s.flights[f].amount;
            id in s.orders && id in s.born && s.orders[id].totalAmount == amount == s.born[id].totalAmount
            && (forall i :: 0 <= i < |s.requests| && s.requests[i].order == id ==> s.requests[i].amount == amount)
            && forall i :: 0 <= i < |s.captures| && s.captures[i].order == id ==> s.captures[i].amount == amount
  {
    EverythingIsDerived(steps);
    EveryCheckoutIsOk(steps);
    var s := After(steps);
    assert FlightOk(s.born, s.flights[f]);
    DerivedTotal(s, id);
    forall i | 0 <= i < |s.requests| && s.requests[i].order == id
      ensures s.requests[i].amount == s.flights[f].amount
    {
      assert ChargeOk(s.requests[i], s.flights, Sent);
    }
    forall i | 0 <= i < |s.captures| && s.captures[i].order == id
      ensures s.captures[i].amount == s.flights[f].amount
    {
      assert ChargeOk(s.captures[i], s.flights, Confirmed);
    }
  }
}
