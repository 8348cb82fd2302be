/** What the missing lock never costs: the order of the time stamps of a row. */
module Clocks {
  import opened Money
  import opened Orders
  import opened Lifecycle
  import opened DbTables
  import opened Inserts
  import opened Services
  import opened Checkouts
  import opened Interleaving

  // ---------------------------------------------------------------- readings

  /**
   Each request's own readings are in order: those of a creation, those of an edit, and that of an edit
   against the update time of the row it has just read. Readings of different requests cross freely.
   */
  ghost predicate OwnReadings(s: State, a: Action) {
    match a
    case CreateFromCart(_, _, _, _, now, persist, _, commits) => commits ==> now <= persist
    case CreateDirectly(_, _, _, now, persist, _, commits) => commits ==> now <= persist
    case ReadForMark(f, _, now, _, readOk) =>
      readOk && f in s.flights && s.flights[f].order.Some? && s.flights[f].order.value in s.orders ==>
        s.orders[s.flights[f].order.value].updatedAt <= now
    case WriteMark(f, persist, commits) =>
      commits && f in s.flights && s.flights[f].phase.Writing? ==> s.flights[f].phase.edit.now <= persist
    case ReadForEdit(_, id, e, readOk) => readOk && id in s.orders ==> s.orders[id].updatedAt <= e.now
    case WriteEdit(e, persist, commits) => commits && e in s.editors ==> s.editors[e].edit.now <= persist
    case _ => true
  }

  ghost predicate ReadingsInOrder(steps: seq<Action>) {
    steps != [] ==> ReadingsInOrder(steps[..|steps| - 1]) && OwnReadings(After(steps[..|steps| - 1]), steps[|steps| - 1])
  }

  function LastMoment(at: seq<Time>): Time {
    if at == [] then 0 else at[|at| - 1]
  }

  /** A request reads the clock before the moment its row is written, and after the moment its order was read. */
  ghost predicate ReadAround(s: State, a: Action, moment: Time) {
    match a
    case CreateFromCart(_, _, _, _, now, persist, _, _) => now <= persist <= moment
    case CreateDirectly(_, _, _, now, persist, _, _) => now <= persist <= moment
    case ReadForMark(_, _, now, _, _) => moment <= now
    case WriteMark(f, persist, _) => f in s.flights && s.flights[f].phase.Writing? ==> s.flights[f].phase.edit.now <= persist <= moment
    case ReadForEdit(_, _, e, _) => moment <= e.now
    case WriteEdit(e, persist, _) => e in s.editors ==> s.editors[e].edit.now <= persist <= moment
    case _ => true
  }

  /** One clock that never goes back: at says when each step took place. */
  ghost predicate OneClock(steps: seq<Action>, at: seq<Time>)
    requires |at| == |steps|
  {
    steps != [] ==>
      var n := |steps| - 1;
      OneClock(steps[..n], at[..n]) && LastMoment(at[..n]) <= at[n] && ReadAround(After(steps[..n]), steps[n], at[n])
  }

  ghost predicate WrittenBy(s: State, moment: Time) {
    forall id :: id in s.orders ==> s.orders[id].updatedAt <= moment
  }

  lemma CreatingIsWrittenBy(s: State, a: Action, moment: Time)
    requires Enabled(s, a) && (a.CreateFromCart? || a.CreateDirectly?) && WrittenBy(s, moment) && ReadAround(s, a, moment)
    ensures WrittenBy(DoCreating(s, a), moment)
  {
    CreatingRows(s, a);
    if a.commits {
      CreatingStamps(s, a);
    }
  }

  lemma CreatingRows(s: State, a: Action)
    requires Enabled(s, a) && (a.CreateFromCart? || a.CreateDirectly?)
    ensures DoCreating(s, a).orders ==
            if a.commits && a.stored.id !in s.orders then s.orders[a.stored.id := a.stored] else s.orders
  {
    if a.CreateFromCart? && a.commits && a.stored.id !in s.orders {
      var r := CartRequest(a.call.customer, s.flights[a.flight].phase.cart, a.call.address);
      var amount := CreatedOrder(r, a.id, a.itemIds, a.now, a.persist).totalAmount;
      assert DoCreating(s, a) == DoCreate(s, a.flight, a.stored, amount);
    }
  }

  lemma CreatingStamps(s: State, a: Action)
    requires Enabled(s, a) && (a.CreateFromCart? || a.CreateDirectly?) && a.commits
    ensures a.stored.createdAt == a.now && a.stored.updatedAt == a.persist && IsNew(a.stored)
  {
    if a.CreateFromCart? {
      StoredStamps(CartRequest(a.call.customer, s.flights[a.flight].phase.cart, a.call.address), a.id, a.itemIds, a.now,
                   a.persist, a.stored);
    } else {
      StoredStamps(a.request, a.id, a.itemIds, a.now, a.persist, a.stored);
    }
  }

  lemma StoredStamps(r: CreateRequest, id: Uuid, itemIds: seq<Uuid>, now: Instant, persist: Instant, stored: Order)
    requires Creatable(r, id, itemIds, now, persist, stored)
    ensures stored.createdAt == now && stored.updatedAt == persist && IsNew(stored)
  {
    CreatedIsNew(r, id, itemIds, now, persist);
  }

  lemma StepIsWrittenBy(s: State, a: Action, moment: Time)
    requires WrittenBy(s, moment) && ReadAround(s, a, moment)
    ensures WrittenBy(Do(s, a), moment)
  {
    if Enabled(s, a) && (a.CreateFromCart? || a.CreateDirectly?) {
      CreatingIsWrittenBy(s, a, moment);
    }
  }

  /** With one clock that never goes back every request's own readings are in order. */
  lemma {:induction false} OneClockOrdersReadings(steps: seq<Action>, at: seq<Time>)
    requires |at| == |steps| && OneClock(steps, at)
    ensures ReadingsInOrder(steps) && WrittenBy(After(steps), LastMoment(at))
  {
    if steps != [] {
      var n := |steps| - 1;
      OneClockOrdersReadings(steps[..n], at[..n]);
      StepIsWrittenBy(After(steps[..n]), steps[n], at[n]);
    }
  }

  // ---------------------------------------------------------------- rows and snapshots

  ghost predicate TimelySnapshot(o: Order, e: Edit) {
    TimesOrdered(o) && o.updatedAt <= e.now
  }

  ghost predicate Timely(s: State) {
    (forall id :: id in s.orders ==> TimesOrdered(s.orders[id]))
    && (forall k :: k in s.editors ==> TimelySnapshot(s.editors[k].snapshot, s.editors[k].edit))
    && (forall f :: f in s.flights && s.flights[f].phase.Writing? ==>
                      TimelySnapshot(s.flights[f].phase.snapshot, s.flights[f].phase.edit))
  }

  lemma WroteKeepsTimely(s: State, snapshot: Order, e: Edit)
    requires Timely(s) && Shaped(snapshot) && snapshot.createdAt != 0 && snapshot.id in s.orders
    requires Refusal(snapshot, e).None? && TimelySnapshot(snapshot, e) && e.now <= e.persist
    ensures Timely(Wrote(s, snapshot, e))
  {
    StepOrdersTimes(snapshot, Call(e, false));
  }

  lemma FlightKeepsTimely(s: State, f: nat, flight: Flight)
    requires Timely(s) && !flight.phase.Writing?
    ensures Timely(SetFlight(s, f, flight))
  {
  }

  lemma MarkKeepsTimely(s: State, f: nat, persist: Instant, commits: bool)
    requires AllDerived(s) && Timely(s) && f in s.flights && s.flights[f].phase.Writing?
    requires commits ==> s.flights[f].phase.edit.now <= persist
    ensures Timely(DoWriteMark(s, f, persist, commits))
  {
    var y := s.flights[f];
    MarkIsWrote(s, f, persist, commits);
    MarkedIsTimely(s, f, y, y.phase.snapshot, AtPersist(y.phase.edit, persist), commits);
  }

  lemma MarkedIsTimely(s: State, f: nat, y: Flight, snapshot: Order, edit: Edit, commits: bool)
    requires Timely(s) && snapshot.id in s.orders && Shaped(snapshot) && snapshot.createdAt != 0
    requires TimelySnapshot(snapshot, edit) && (commits ==> edit.now <= edit.persist)
    ensures if !commits || Refusal(snapshot, edit).Some? then Timely(SetFlight(s, f, y.(phase := Returned(500))))
            else Timely(SetFlight(Wrote(s, snapshot, edit), f, y.(phase := Clearing, marked := true)))
  {
    if !commits || Refusal(snapshot, edit).Some? {
      FlightKeepsTimely(s, f, y.(phase := Returned(500)));
    } else {
      WroteKeepsTimely(s, snapshot, edit);
      FlightKeepsTimely(Wrote(s, snapshot, edit), f, y.(phase := Clearing, marked := true));
    }
  }

  lemma EditKeepsTimely(s: State, e: nat, persist: Instant, commits: bool)
    requires AllDerived(s) && Timely(s) && e in s.editors && (commits ==> s.editors[e].edit.now <= persist)
    ensures Timely(DoWriteEdit(s, e, persist, commits))
  {
    var snapshot, edit := s.editors[e].snapshot, AtPersist(s.editors[e].edit, persist);
    var rest := s.(editors := s.editors - {e});
    EditIsWrote(s, e, persist, commits);
    assert Timely(rest);
    if commits && Refusal(snapshot, edit).None? {
      WroteKeepsTimely(rest, snapshot, edit);
    }
  }

  lemma BirthKeepsTimely(s: State, stored: Order)
    requires Timely(s) && IsNew(stored) && stored.createdAt <= stored.updatedAt
    ensures Timely(Insert(s, stored))
  {
  }

  lemma CreatingKeepsTimely(s: State, a: Action)
    requires Timely(s) && Enabled(s, a) && (a.CreateFromCart? || a.CreateDirectly?) && OwnReadings(s, a)
    ensures Timely(DoCreating(s, a))
  {
    if !a.commits || a.stored.id in s.orders {
      if a.CreateFromCart? {
        FlightKeepsTimely(s, a.flight, s.flights[a.flight].(phase := Returned(400)));
      }
    } else if a.CreateFromCart? {
      var r := CartRequest(a.call.customer, s.flights[a.flight].phase.cart, a.call.address);
      CreatingStamps(s, a);
      BirthKeepsTimely(s, a.stored);
      var amount := CreatedOrder(r, a.id, a.itemIds, a.now, a.persist).totalAmount;
      FlightKeepsTimely(Insert(s, a.stored), a.flight,
                        s.flights[a.flight].(phase := Charging, order := Some(a.stored.id), amount := amount));
    } else {
      CreatingStamps(s, a);
      BirthKeepsTimely(s, a.stored);
    }
  }

  lemma ReadForMarkKeepsTimely(s: State, f: nat, gateway: string, now: Instant, today: Instant, readOk: bool)
    requires Timely(s) && f in s.flights && s.flights[f].phase.Marking?
    requires OwnReadings(s, ReadForMark(f, gateway, now, today, readOk))
    ensures Timely(DoReadForMark(s, f, gateway, now, today, readOk))
  {
  }

  lemma ReadForEditKeepsTimely(s: State, e: nat, id: Uuid, edit: Edit, readOk: bool)
    requires Timely(s) && (readOk && id in s.orders ==> s.orders[id].updatedAt <= edit.now)
    ensures Timely(DoReadForEdit(s, e, id, edit, readOk))
  {
  }

  lemma LocalKeepsTimely(s: State, a: Action)
    requires Timely(s) && Enabled(s, a) && IsLocal(a)
    ensures Timely(DoLocal(s, a))
  {
  }

  lemma DoKeepsTimely(s: State, a: Action)
    requires AllDerived(s) && Timely(s) && OwnReadings(s, a)
    ensures Timely(Do(s, a))
  {
    if Enabled(s, a) {
      if a.CreateFromCart? || a.CreateDirectly? {
        CreatingKeepsTimely(s, a);
      } else if a.WriteMark? {
        MarkKeepsTimely(s, a.flight, a.persist, a.commits);
      } else if a.WriteEdit? {
        EditKeepsTimely(s, a.editor, a.persist, a.commits);
      } else if a.ReadForMark? {
        ReadForMarkKeepsTimely(s, a.flight, a.gateway, a.now, a.today, a.readOk);
      } else if a.ReadForEdit? {
        ReadForEditKeepsTimely(s, a.editor, a.id, a.edit, a.readOk);
      } else {
        LocalKeepsTimely(s, a);
      }
    }
  }

  lemma {:induction false} EverythingIsTimely(steps: seq<Action>)
    requires ReadingsInOrder(steps)
    ensures Timely(After(steps))
  {
    if steps != [] {
      var init := steps[..|steps| - 1];
      EverythingIsTimely(init);
      EverythingIsDerived(init);
      DoKeepsTimely(After(init), steps[|steps| - 1]);
    }
  }

  /** While each request's own readings are in order, every row's stamps are in order, however requests and readings cross. */
  lemma InterleavedTimes(steps: seq<Action>, id: Uuid)
    requires ReadingsInOrder(steps) && id in After(steps).orders
    ensures TimesOrdered(After(steps).orders[id])
  {
    EverythingIsTimely(steps);
  }

  /** In particular whenever all readings come from one clock that never goes back. */
  lemma InterleavedTimesOfOneClock(steps: seq<Action>, at: seq<Time>, id: Uuid)
    requires |at| == |steps| && OneClock(steps, at) && id in After(steps).orders
    ensures TimesOrdered(After(steps).orders[id])
  {
    OneClockOrdersReadings(steps, at);
    InterleavedTimes(steps, id);
  }
}
