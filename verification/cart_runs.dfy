/** What every interleaved checkout charges is what the cart it read comes to, and what it captures a reply has confirmed. */
module CartRuns {
  import opened Sums
  import opened Money
  import opened Orders
  import opened Inserts
  import opened Services
  import opened Checkouts
  import opened Interleaving
  import opened Races
  import opened CheckoutRuns
  import opened Announcements
  import opened CheckoutEvents

  // ---------------------------------------------------------------- the cart that was read

  function CartLines(cart: Cart): seq<OrderLine> {
    seq(|cart.items|, i requires 0 <= i < |cart.items| =>
          (cart.items[i].productId, cart.items[i].name, cart.items[i].quantity, Round2(cart.items[i].unitPrice)))
  }

  /** The checkout read this cart. */
  ghost predicate ReadThat(steps: seq<Action>, f: nat, cart: Cart) {
    exists k :: 0 <= k < |steps| && steps[k] == ReadCart(f, Some(cart))
  }

  /** The order b, charged at the amount, is what the cart says. */
  ghost predicate OfCart(amount: Decimal, b: Order, cart: Cart) {
    amount == CartTotal(cart) && multiset(LinesOf(b.items)) == multiset(CartLines(cart))
  }

  ghost predicate FromItsCart(steps: seq<Action>, born: map<Uuid, Order>, f: nat, x: Flight) {
    (x.phase.Creating? ==> ReadThat(steps, f, x.phase.cart))
    && (x.order.Some? ==>
          x.order.value in born && exists cart :: ReadThat(steps, f, cart) && OfCart(x.amount, born[x.order.value], cart))
  }

  ghost predicate AllFromCarts(steps: seq<Action>, s: State) {
    forall f :: f in s.flights ==> FromItsCart(steps, s.born, f, s.flights[f])
  }

  lemma ReadStays(steps: seq<Action>, a: Action, f: nat, cart: Cart)
    requires ReadThat(steps, f, cart)
    ensures ReadThat(steps + [a], f, cart)
  {
    var k :| 0 <= k < |steps| && steps[k] == ReadCart(f, Some(cart));
    assert (steps + [a])[k] == ReadCart(f, Some(cart));
  }

  lemma ReadNow(steps: seq<Action>, f: nat, cart: Cart)
    ensures ReadThat(steps + [ReadCart(f, Some(cart))], f, cart)
  {
    assert (steps + [ReadCart(f, Some(cart))])[|steps|] == ReadCart(f, Some(cart));
  }

  /** A flight that keeps its order and amount, and is about to create only if it was or has just read its cart. */
  lemma KeptFromCart(steps: seq<Action>, a: Action, born: map<Uuid, Order>, after: map<Uuid, Order>, f: nat, x: Flight, y: Flight)
    requires FromItsCart(steps, born, f, x) && y.order == x.order && y.amount == x.amount
    requires y.phase.Creating? ==> y.phase == x.phase || a == ReadCart(f, Some(y.phase.cart))
    requires forall id :: id in born ==> id in after && after[id] == born[id]
    ensures FromItsCart(steps + [a], after, f, y)
  {
    if y.phase.Creating? {
      if y.phase == x.phase {
        ReadStays(steps, a, f, y.phase.cart);
      } else {
        ReadNow(steps, f, y.phase.cart);
      }
    }
    if x.order.Some? {
      var cart :| ReadThat(steps, f, cart) && OfCart(x.amount, born[x.order.value], cart);
      ReadStays(steps, a, f, cart);
    }
  }

  /** Where a checkout that is about to create stood before. */
  lemma CreatingComesFromReading(s: State, a: Action)
    ensures forall f :: f in Do(s, a).flights && Do(s, a).flights[f].phase.Creating? ==>
                          (f in s.flights && s.flights[f].phase == Do(s, a).flights[f].phase)
                          || a == ReadCart(f, Some(Do(s, a).flights[f].phase.cart))
  {
    if Enabled(s, a) {
      if a.CreateFromCart? || a.CreateDirectly? {
        CreatingKeepsCarts(s, a);
      } else if a.ReadForMark? {
        ReadKeepsCarts(s, a.flight, a.gateway, a.now, a.today, a.readOk);
      } else if a.WriteMark? {
        WriteKeepsCarts(s, a.flight, a.persist, a.commits);
      }
    }
  }

  predicate CartsKept(before: map<nat, Flight>, after: map<nat, Flight>) {
    forall f :: f in after && after[f].phase.Creating? ==> f in before && before[f].phase == after[f].phase
  }

  lemma CreatingKeepsCarts(s: State, a: Action)
    requires Enabled(s, a) && (a.CreateFromCart? || a.CreateDirectly?)
    ensures CartsKept(s.flights, DoCreating(s, a).flights)
  {
    if Creation(s, a).Some? {
      CreationSetsAmount(s, a);
    }
  }

  lemma ReadKeepsCarts(s: State, f: nat, gateway: string, now: Instant, today: Instant, readOk: bool)
    requires f in s.flights && s.flights[f].phase.Marking?
    ensures CartsKept(s.flights, DoReadForMark(s, f, gateway, now, today, readOk).flights)
  {
  }

  lemma WriteKeepsCarts(s: State, f: nat, persist: Instant, commits: bool)
    requires f in s.flights && s.flights[f].phase.Writing?
    ensures CartsKept(s.flights, DoWriteMark(s, f, persist, commits).flights)
  {
  }

  // ---------------------------------------------------------------- the order made of it

  lemma StoredCartLines(o: Order, stored: Order, cart: Cart)
    requires multiset(stored.items) == multiset(StoredItems(o)) && |o.items| == |cart.items|
    requires forall k :: 0 <= k < |cart.items| ==> IsCartLine(o.items[k], cart.items[k])
    ensures multiset(LinesOf(stored.items)) == multiset(CartLines(cart))
  {
    MapPermuted(LineOf, stored.items, StoredItems(o), LinesOf(stored.items), LinesOf(StoredItems(o)));
    forall k | 0 <= k < |cart.items|
      ensures LinesOf(StoredItems(o))[k] == CartLines(cart)[k]
    {
      RoundFixesExactly(cart.items[k].unitPrice);
      RoundFixesExactly(Round2(cart.items[k].unitPrice));
    }
    assert LinesOf(StoredItems(o)) == CartLines(cart);
  }

  /** A creation from a cart: the flight that makes it has the cart's amount and lines, every other flight is as it was. */
  lemma CreatedFromCart(s: State, a: Action)
    requires Enabled(s, a) && a.CreateFromCart? && Creation(s, a).Some?
    ensures var x, t := s.flights[a.flight], Do(s, a);
            t.born == s.born[a.stored.id := a.stored]
            && t.flights == s.flights[a.flight := t.flights[a.flight]]
            && t.flights[a.flight].phase.Charging? && t.flights[a.flight].order == Some(a.stored.id)
            && OfCart(t.flights[a.flight].amount, a.stored, x.phase.cart)
  {
    var cart := s.flights[a.flight].phase.cart;
    var o := CreatedOrder(CartRequest(a.call.customer, cart, a.call.address), a.id, a.itemIds, a.now, a.persist);
    assert Do(s, a) == DoCreate(s, a.flight, a.stored, o.totalAmount);
    CartOrderAsAsked(a.call.customer, cart, a.call.address, a.id, a.itemIds, a.now, a.persist);
    StoredCartLines(o, a.stored, cart);
  }

  lemma BirthKeepsCarts(steps: seq<Action>, s: State, a: Action)
    requires AllFromCarts(steps, s) && Enabled(s, a) && a.CreateFromCart? && Creation(s, a).Some? && a.stored.id !in s.born
    ensures AllFromCarts(steps + [a], Do(s, a))
  {
    CreatedFromCart(s, a);
    var t := Do(s, a);
    forall f | f in t.flights
      ensures FromItsCart(steps + [a], t.born, f, t.flights[f])
    {
      assert FromItsCart(steps, s.born, f, s.flights[f]);
      if f == a.flight {
        ReadStays(steps, a, f, s.flights[f].phase.cart);
        assert OfCart(t.flights[f].amount, t.born[a.stored.id], s.flights[f].phase.cart);
      } else {
        KeptFromCart(steps, a, s.born, t.born, f, s.flights[f], t.flights[f]);
      }
    }
  }

  lemma NewFlightsAreEmpty(s: State, a: Action)
    requires Creation(s, a).None?
    ensures forall f :: f in Do(s, a).flights && f !in s.flights ==>
                          Do(s, a).flights[f].order.None? && !Do(s, a).flights[f].phase.Creating?
  {
    FlightsKeepAmounts(s, a);
    CreatingComesFromReading(s, a);
  }

  /** A step that is no creation from a cart keeps orders and amounts of the flights there were. */
  lemma FlightsGoOn(s: State, a: Action)
    requires !(a.CreateFromCart? && Creation(s, a).Some?)
    ensures forall f :: f in s.flights ==> f in Do(s, a).flights && Do(s, a).flights[f].order == s.flights[f].order
                                           && Do(s, a).flights[f].amount == s.flights[f].amount
  {
    if Enabled(s, a) {
      if a.CreateFromCart? || a.CreateDirectly? {
        CreatingGoesOn(s, a);
      } else if a.WriteMark? {
        WriteGoesOn(s, a.flight, a.persist, a.commits);
      }
    }
  }

  lemma CreatingGoesOn(s: State, a: Action)
    requires Enabled(s, a) && (a.CreateDirectly? || (a.CreateFromCart? && Creation(s, a).None?))
    ensures forall f :: f in s.flights ==> f in DoCreating(s, a).flights && DoCreating(s, a).flights[f].order == s.flights[f].order
                                           && DoCreating(s, a).flights[f].amount == s.flights[f].amount
  {
  }

  lemma WriteGoesOn(s: State, g: nat, persist: Instant, commits: bool)
    requires g in s.flights && s.flights[g].phase.Writing?
    ensures var t := DoWriteMark(s, g, persist, commits);
            forall f :: f in s.flights ==> f in t.flights && t.flights[f].order == s.flights[f].order
                                           && t.flights[f].amount == s.flights[f].amount
  {
  }

  lemma DirectKeepsFlights(s: State, a: Action)
    requires a.CreateDirectly?
    ensures Do(s, a).flights == s.flights
  {
  }

  lemma OtherStepsKeepCarts(steps: seq<Action>, s: State, a: Action)
    requires AllFromCarts(steps, s) && s.born.Keys == s.orders.Keys && !(a.CreateFromCart? && Creation(s, a).Some?)
    ensures AllFromCarts(steps + [a], Do(s, a))
  {
    var t := Do(s, a);
    FlightsGoOn(s, a);
    CreatingComesFromReading(s, a);
    StepGrows(s, a);
    if a.CreateDirectly? {
      DirectKeepsFlights(s, a);
    } else {
      NewFlightsAreEmpty(s, a);
    }
    forall f | f in t.flights
      ensures FromItsCart(steps + [a], t.born, f, t.flights[f])
    {
      if f in s.flights {
        assert FromItsCart(steps, s.born, f, s.flights[f]);
        KeptFromCart(steps, a, s.born, t.born, f, s.flights[f], t.flights[f]);
      }
    }
  }

  lemma {:induction false} EveryFlightIsFromItsCart(steps: seq<Action>)
    ensures AllFromCarts(steps, After(steps))
  {
    if steps != [] {
      var init, a := steps[..|steps| - 1], steps[|steps| - 1];
      EveryFlightIsFromItsCart(init);
      EverythingIsDerived(init);
      assert steps == init + [a];
      if Enabled(After(init), a) && a.CreateFromCart? && Creation(After(init), a).Some? {
        BirthKeepsCarts(init, After(init), a);
      } else {
        OtherStepsKeepCarts(init, After(init), a);
      }
    }
  }

  /**
   In every interleaving a checkout with an order has read a cart, to the lines of which its order was created, and
   every charge and capture made for that order is of what that cart comes to: its rounded prices times its quantities.
   */
  lemma EveryCheckoutChargesItsCart(steps: seq<Action>, f: nat, id: Uuid) returns (cart: Cart)
    requires f in After(steps).flights && After(steps).flights[f].order == Some(id)
    ensures ReadThat(steps, f, cart)
    ensures var s := After(steps);
            id in s.orders && s.orders[id].totalAmount == Sum(CartLineAmount, cart.items)
            && multiset(LinesOf(s.orders[id].items)) == multiset(CartLines(cart))
            && (forall i :: 0 <= i < |s.requests| && s.requests[i].order == id ==> s.requests[i].amount == Sum(CartLineAmount, cart.items))
            && forall i :: 0 <= i < |s.captures| && s.captures[i].order == id ==> s.captures[i].amount == Sum(CartLineAmount, cart.items)
  {
    EveryFlightIsFromItsCart(steps);
    CheckoutAmounts(steps, f, id);
    InterleavedRows(steps, id);
    var s := After(steps);
    assert FromItsCart(steps, s.born, f, s.flights[f]);
    cart :| ReadThat(steps, f, cart) && OfCart(s.flights[f].amount, s.born[id], cart);
  }

  // ---------------------------------------------------------------- the reply that confirmed it

  predicate SaysCompleted(reply: HttpReply) {
    reply.Reply? && 200 <= reply.code <= 299 && reply.body.status == "COMPLETED"
  }

  /** An answer moves a waiting checkout on to mark its order, and is a capture, exactly when it is 2xx and COMPLETED; else 402. */
  lemma AnswerDecides(s: State, f: nat, reply: HttpReply)
    requires f in s.flights && s.flights[f].phase.AwaitingPayment?
    ensures var t := Do(s, AnswerPayment(f, reply));
            f in t.flights
            && (SaysCompleted(reply) ==>
                  t.flights[f].phase.Marking? && |t.captures| == |s.captures| + 1 && t.captures[|s.captures|].flight == f)
            && (!SaysCompleted(reply) ==> t.flights[f].phase == Returned(402) && t.captures == s.captures)
  {
  }

  lemma OthersCaptureNothing(s: State, a: Action)
    requires !a.AnswerPayment?
    ensures Do(s, a).captures == s.captures
  {
  }

  lemma AnswerCaptures(s: State, a: Action)
    requires a.AnswerPayment?
    ensures Do(s, a).captures == s.captures
            || (SaysCompleted(a.reply) && |Do(s, a).captures| == |s.captures| + 1 && Do(s, a).captures[..|s.captures|] == s.captures
                && Do(s, a).captures[|s.captures|].flight == a.flight)
  {
  }

  /** The reply to the checkout was 2xx and COMPLETED. */
  ghost predicate WasCompleted(steps: seq<Action>, f: nat) {
    exists k :: 0 <= k < |steps| && steps[k].AnswerPayment? && steps[k].flight == f && SaysCompleted(steps[k].reply)
  }

  /** In every interleaving each capture came from a 2xx reply with status COMPLETED to its own checkout. */
  lemma {:induction false} CapturesWereCompleted(steps: seq<Action>, i: nat)
    requires i < |After(steps).captures|
    ensures WasCompleted(steps, After(steps).captures[i].flight)
  {
    var init, a := steps[..|steps| - 1], steps[|steps| - 1];
    var s := After(init);
    if a.AnswerPayment? {
      AnswerCaptures(s, a);
    } else {
      OthersCaptureNothing(s, a);
    }
    if i < |s.captures| {
      CapturesWereCompleted(init, i);
      var k :| 0 <= k < |init| && init[k].AnswerPayment? && init[k].flight == s.captures[i].flight && SaysCompleted(init[k].reply);
      assert steps[k] == init[k];
    } else {
      assert steps[|steps| - 1] == a;
    }
  }
}
