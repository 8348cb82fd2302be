/**
 Announcements among interleaved requests: each is a step of its own, some time after the commit it announces
 (the calls of the publisher in go/internal/order/service.go).
 */
module Announcements {
  import opened Sums
  import opened Money
  import opened Orders
  import opened Lifecycle
  import opened Inserts
  import opened Services
  import opened Checkouts
  import opened Interleaving
  import opened Races

  /** What is announced: that an order was created, or the commit with a given number. */
  datatype Occasion = Birth(id: Uuid) | OfCommit(number: nat)

  datatype Attempt = Attempt(occasion: Occasion, event: Event)

  /** The machine with the announcements still to be made and those attempted, in order. */
  datatype Notices = Notices(state: State, owed: map<Occasion, Event>, attempts: seq<Attempt>)

  datatype Move = Act(a: Action) | Announce(occasion: Occasion)

  /** The order as CreateOrder returns it, when a step creates one. */
  ghost function Creation(s: State, a: Action): Option<Order> {
    if !Enabled(s, a) then None
    else
      match a
      case CreateFromCart(f, call, id, itemIds, now, persist, stored, commits) =>
        if commits && stored.id !in s.orders
        then Some(CreatedOrder(CartRequest(call.customer, s.flights[f].phase.cart, call.address), id, itemIds, now, persist))
        else None
      case CreateDirectly(r, id, itemIds, now, persist, stored, commits) =>
        if commits && stored.id !in s.orders then Some(CreatedOrder(r, id, itemIds, now, persist)) else None
      case _ => None
  }

  /** The announcement a step leaves to be made, if any. */
  ghost function Owes(s: State, a: Action): map<Occasion, Event> {
    var o, c := Creation(s, a), Committing(s, a);
    if o.Some? then map[Birth(o.value.id) := CreatedEvent(o.value)]
    else if c.Some? && Announced(Edited(c.value.snapshot, c.value.edit), c.value.edit) != []
    then map[OfCommit(|s.commits|) := Announced(Edited(c.value.snapshot, c.value.edit), c.value.edit)[0]]
    else map[]
  }

  ghost function Next(u: Notices, m: Move): Notices {
    match m
    case Act(a) => u.(state := Do(u.state, a), owed := u.owed + Owes(u.state, a))
    case Announce(x) =>
      if x in u.owed then u.(owed := u.owed - {x}, attempts := u.attempts + [Attempt(x, u.owed[x])]) else u
  }

  ghost function NoticesAfter(moves: seq<Move>): Notices {
    if moves == [] then Notices(EMPTY, map[], []) else Next(NoticesAfter(moves[..|moves| - 1]), moves[|moves| - 1])
  }

  /** The steps of the machine among the moves. */
  function Acts(moves: seq<Move>): seq<Action> {
    if moves == [] then []
    else
      var m := moves[|moves| - 1];
      Acts(moves[..|moves| - 1]) + if m.Act? then [m.a] else []
  }

  lemma {:induction false} NoticesRunTheMachine(moves: seq<Move>)
    ensures NoticesAfter(moves).state == After(Acts(moves))
  {
    if moves != [] {
      NoticesRunTheMachine(moves[..|moves| - 1]);
      var m := moves[|moves| - 1];
      if m.Act? {
        AfterAppend(Acts(moves[..|moves| - 1]), m.a);
      } else {
        assert Acts(moves) == Acts(moves[..|moves| - 1]);
      }
    }
  }

  // ---------------------------------------------------------------- what an announcement says

  /** The event of an order created as o and stored as b. */
  ghost predicate OfCreation(b: Order, e: Event, o: Order) {
    e == CreatedEvent(o) && StoredForm(o, b) && Priced(o.items) && o.totalAmount == Total(o.items)
  }

  ghost predicate OfEdit(b: Order, edit: Edit, e: Event, snapshot: Order) {
    SameOrder(b, snapshot) && Refusal(snapshot, edit).None? && Announced(Edited(snapshot, edit), edit) == [e]
  }

  /** The event is the one its creation or its commit calls for, on an order that is as it was created. */
  ghost predicate Genuine(s: State, x: Occasion, e: Event) {
    match x
    case Birth(id) => id in s.born && exists o :: OfCreation(s.born[id], e, o)
    case OfCommit(k) =>
      k < |s.commits| && s.commits[k].order in s.born
      && exists snapshot :: OfEdit(s.born[s.commits[k].order], s.commits[k].edit, e, snapshot)
  }

  predicate CallsForEvent(edit: Edit) {
    edit.Cancel? || edit.req.status in {Some(Paid), Some(Shipped), Some(Completed)}
  }

  ghost predicate WasAttempted(attempts: seq<Attempt>, x: Occasion) {
    exists i :: 0 <= i < |attempts| && attempts[i].occasion == x
  }

  ghost predicate AllGenuine(u: Notices) {
    (forall x :: x in u.owed ==> Genuine(u.state, x, u.owed[x]))
    && (forall i :: 0 <= i < |u.attempts| ==> Genuine(u.state, u.attempts[i].occasion, u.attempts[i].event))
  }

  ghost predicate AtMostOnce(u: Notices) {
    (forall i :: 0 <= i < |u.attempts| ==> u.attempts[i].occasion !in u.owed)
    && (forall i, j :: 0 <= i < j < |u.attempts| ==> u.attempts[i].occasion != u.attempts[j].occasion)
  }

  ghost predicate NoneForgotten(u: Notices) {
    (forall k :: 0 <= k < |u.state.commits| && CallsForEvent(u.state.commits[k].edit) ==>
                   OfCommit(k) in u.owed || WasAttempted(u.attempts, OfCommit(k)))
    && (forall id :: id in u.state.born ==> Birth(id) in u.owed || WasAttempted(u.attempts, Birth(id)))
  }

  // ---------------------------------------------------------------- a step of the machine

  /** A step leaves births and commits as they are, but for new ones. */
  lemma StepGrows(s: State, a: Action)
    requires s.born.Keys == s.orders.Keys
    ensures |s.commits| <= |Do(s, a).commits| && forall k :: 0 <= k < |s.commits| ==> Do(s, a).commits[k] == s.commits[k]
    ensures forall id :: id in s.born ==> id in Do(s, a).born && Do(s, a).born[id] == s.born[id]
  {
    forall id | id in s.born
      ensures id in Do(s, a).born && Do(s, a).born[id] == s.born[id]
    {
      BirthIsUnique(s, a, id);
    }
  }

  lemma GenuineStays(s: State, t: State, x: Occasion, e: Event)
    requires Genuine(s, x, e) && |s.commits| <= |t.commits|
    requires forall k :: 0 <= k < |s.commits| ==> t.commits[k] == s.commits[k]
    requires forall id :: id in s.born ==> id in t.born && t.born[id] == s.born[id]
    ensures Genuine(t, x, e)
  {
    if x.OfCommit? {
      var snapshot :| OfEdit(s.born[s.commits[x.number].order], s.commits[x.number].edit, e, snapshot);
      assert OfEdit(t.born[t.commits[x.number].order], t.commits[x.number].edit, e, snapshot);
    }
  }

  lemma CreationIsGenuine(s: State, a: Action)
    requires Creation(s, a).Some?
    ensures var o := Creation(s, a).value;
            o.id !in s.orders && Do(s, a).commits == s.commits && Do(s, a).born == s.born[o.id := a.stored]
            && OfCreation(a.stored, CreatedEvent(o), o)
  {
    if a.CreateFromCart? {
      CreatedIsNew(CartRequest(a.call.customer, s.flights[a.flight].phase.cart, a.call.address), a.id, a.itemIds, a.now, a.persist);
    } else {
      CreatedIsNew(a.request, a.id, a.itemIds, a.now, a.persist);
    }
  }

  lemma AnnouncedOnce(o: Order, e: Edit)
    requires Refusal(o, e).None?
    ensures |Announced(Edited(o, e), e)| == if CallsForEvent(e) then 1 else 0
  {
  }

  lemma CommitIsGenuine(s: State, a: Action)
    requires AllDerived(s) && Committing(s, a).Some?
    ensures var c, t := Committing(s, a).value, Do(s, a);
            t.born == s.born && |t.commits| == |s.commits| + 1 && t.commits[|s.commits|].edit == c.edit
            && t.commits[|s.commits|].order == c.snapshot.id && c.snapshot.id in s.born
            && SameOrder(s.born[c.snapshot.id], c.snapshot) && Refusal(c.snapshot, c.edit).None?
  {
    WriteResult(s, a);
    CommittingIsDerived(s, a);
  }

  lemma CommittingIsDerived(s: State, a: Action)
    requires AllDerived(s) && Committing(s, a).Some?
    ensures var o := Committing(s, a).value.snapshot; o.id in s.born && SameOrder(s.born[o.id], o) && Do(s, a).born == s.born
  {
    var o := Committing(s, a).value.snapshot;
    if a.WriteMark? {
      assert FlightDerived(s.born, s.commits, s.flights[a.flight]);
    }
    assert SnapshotDerived(s.born, s.commits, o);
    assert RowDerived(s.born[o.id], s.orders[o.id], EditsOf(s.commits, o.id), o.id);
    DerivedKeeps(s.born[o.id], o.id, o, EditsOf(s.commits, o.id));
  }

  lemma OtherStepsAreQuiet(s: State, a: Action)
    requires AllDerived(s) && Creation(s, a).None? && Committing(s, a).None?
    ensures Do(s, a).commits == s.commits && Do(s, a).born == s.born
  {
    if a.WriteMark? || a.WriteEdit? {
      WriteResult(s, a);
    }
  }

  /** What a step from s to t owes is genuine, is owed for the first time, and is all that t calls for and s did not. */
  ghost predicate OwesRight(s: State, t: State, owes: map<Occasion, Event>) {
    (forall x :: x in owes ==> Genuine(t, x, owes[x]))
    && (forall x :: x in owes ==> if x.Birth? then x.id !in s.born else x.number == |s.commits|)
    && (forall id :: id in t.born && id !in s.born ==> Birth(id) in owes)
    && (forall k :: |s.commits| <= k < |t.commits| && CallsForEvent(t.commits[k].edit) ==> OfCommit(k) in owes)
  }

  lemma BirthOwesRight(s: State, t: State, o: Order, stored: Order)
    requires t.commits == s.commits && t.born == s.born[o.id := stored] && o.id !in s.born && OfCreation(stored, CreatedEvent(o), o)
    ensures OwesRight(s, t, map[Birth(o.id) := CreatedEvent(o)])
  {
    assert OfCreation(t.born[o.id], CreatedEvent(o), o);
    assert Genuine(t, Birth(o.id), CreatedEvent(o));
  }

  lemma CommitOwesRight(s: State, t: State, c: Editor)
    requires t.born == s.born && |t.commits| == |s.commits| + 1 && t.commits[|s.commits|].edit == c.edit
    requires t.commits[|s.commits|].order == c.snapshot.id && c.snapshot.id in s.born
    requires SameOrder(s.born[c.snapshot.id], c.snapshot) && Refusal(c.snapshot, c.edit).None?
    ensures var es := Announced(Edited(c.snapshot, c.edit), c.edit);
            OwesRight(s, t, if es != [] then map[OfCommit(|s.commits|) := es[0]] else map[])
  {
    AnnouncedOnce(c.snapshot, c.edit);
    var es := Announced(Edited(c.snapshot, c.edit), c.edit);
    if es != [] {
      assert es == [es[0]];
      assert OfEdit(t.born[t.commits[|s.commits|].order], t.commits[|s.commits|].edit, es[0], c.snapshot);
    }
  }

  lemma OwesIsRight(s: State, a: Action)
    requires AllDerived(s)
    ensures OwesRight(s, Do(s, a), Owes(s, a))
  {
    if Creation(s, a).Some? {
      CreationIsGenuine(s, a);
      BirthOwesRight(s, Do(s, a), Creation(s, a).value, a.stored);
    } else if Committing(s, a).Some? {
      CommitIsGenuine(s, a);
      CommitOwesRight(s, Do(s, a), Committing(s, a).value);
    } else {
      OtherStepsAreQuiet(s, a);
    }
  }

  ghost predicate NoticesOk(u: Notices) {
    AllGenuine(u) && AtMostOnce(u) && NoneForgotten(u)
  }

  lemma ActKeepsGenuine(u: Notices, a: Action)
    requires AllDerived(u.state) && AllGenuine(u)
    ensures AllGenuine(Next(u, Act(a)))
  {
    var s, n := u.state, Next(u, Act(a));
    StepGrows(s, a);
    OwesIsRight(s, a);
    forall x | x in n.owed
      ensures Genuine(n.state, x, n.owed[x])
    {
      if x !in Owes(s, a) {
        GenuineStays(s, n.state, x, u.owed[x]);
      }
    }
    forall i | 0 <= i < |n.attempts|
      ensures Genuine(n.state, n.attempts[i].occasion, n.attempts[i].event)
    {
      GenuineStays(s, n.state, n.attempts[i].occasion, n.attempts[i].event);
    }
  }

  lemma ActKeepsOnce(u: Notices, a: Action)
    requires AllDerived(u.state) && AllGenuine(u) && AtMostOnce(u)
    ensures AtMostOnce(Next(u, Act(a)))
  {
    OwesIsRight(u.state, a);
    forall i | 0 <= i < |u.attempts|
      ensures u.attempts[i].occasion !in Owes(u.state, a)
    {
      assert Genuine(u.state, u.attempts[i].occasion, u.attempts[i].event);
    }
  }

  lemma ActForgetsNone(u: Notices, a: Action)
    requires AllDerived(u.state) && NoneForgotten(u)
    ensures NoneForgotten(Next(u, Act(a)))
  {
    StepGrows(u.state, a);
    OwesIsRight(u.state, a);
    OwingForgetsNone(u, Do(u.state, a), Owes(u.state, a));
  }

  lemma OwingForgetsNone(u: Notices, t: State, owes: map<Occasion, Event>)
    requires NoneForgotten(u) && OwesRight(u.state, t, owes) && |u.state.commits| <= |t.commits|
    requires forall k :: 0 <= k < |u.state.commits| ==> t.commits[k] == u.state.commits[k]
    ensures NoneForgotten(u.(state := t, owed := u.owed + owes))
  {
  }

  lemma AnnounceForgetsNone(u: Notices, x: Occasion)
    requires NoneForgotten(u) && x in u.owed
    ensures NoneForgotten(Next(u, Announce(x)))
  {
    var n := Next(u, Announce(x));
    assert n.attempts[|u.attempts|].occasion == x;
    forall y | WasAttempted(u.attempts, y)
      ensures WasAttempted(n.attempts, y)
    {
      var i :| 0 <= i < |u.attempts| && u.attempts[i].occasion == y;
      assert n.attempts[i].occasion == y;
    }
  }

  lemma AnnounceKeepsOk(u: Notices, x: Occasion)
    requires NoticesOk(u)
    ensures NoticesOk(Next(u, Announce(x)))
  {
    if x in u.owed {
      AnnounceForgetsNone(u, x);
      AnnounceKeepsGenuine(u, x);
      AnnounceKeepsOnce(u, x);
    }
  }

  lemma AnnounceKeepsGenuine(u: Notices, x: Occasion)
    requires AllGenuine(u) && x in u.owed
    ensures AllGenuine(Next(u, Announce(x)))
  {
  }

  lemma AnnounceKeepsOnce(u: Notices, x: Occasion)
    requires AtMostOnce(u) && x in u.owed
    ensures AtMostOnce(Next(u, Announce(x)))
  {
  }

  lemma {:induction false} NoticesAreOk(moves: seq<Move>)
    ensures NoticesOk(NoticesAfter(moves))
  {
    if moves != [] {
      var init, m := moves[..|moves| - 1], moves[|moves| - 1];
      NoticesAreOk(init);
      NoticesRunTheMachine(init);
      EverythingIsDerived(Acts(init));
      if m.Act? {
        ActKeepsGenuine(NoticesAfter(init), m.a);
        ActKeepsOnce(NoticesAfter(init), m.a);
        ActForgetsNone(NoticesAfter(init), m.a);
      } else {
        AnnounceKeepsOk(NoticesAfter(init), m.occasion);
      }
    }
  }

  // ---------------------------------------------------------------- what holds of every run

  /** The lines an event lists, at their prices to the cent. */
  function EventLines(items: seq<EventItem>): seq<OrderLine> {
    seq(|items|, i requires 0 <= i < |items| =>
          (items[i].productId, items[i].productName, items[i].quantity, Round2(items[i].unitPrice)))
  }

  /** The created event of the order stored as b: its items before their prices were rounded, and the total of those. */
  ghost predicate AnnouncesBirth(b: Order, e: Event) {
    e.OrderCreatedEvent? && e.orderId == b.id && e.customerId == b.customerId && e.currency == b.currency
    && e.address == b.shippingAddress && multiset(EventLines(e.items)) == multiset(LinesOf(b.items))
    && -Sum(HalfQuantity, b.items) <= b.totalAmount - e.totalAmount <= Sum(HalfQuantity, b.items)
  }

  lemma CreationAnnouncesBirth(b: Order, e: Event, o: Order)
    requires OfCreation(b, e, o)
    ensures AnnouncesBirth(b, e)
  {
    var stored := StoredItems(o);
    SumPermuted(HalfQuantity, b.items, stored);
    SumPointwise(HalfQuantity, stored, o.items);
    ReadBackTotalClose(o);
    TotalIgnoresOrder(b.items, stored);
    MapPermuted(LineOf, b.items, stored, LinesOf(b.items), LinesOf(stored));
    assert EventLines(EventItems(o.items)) == LinesOf(stored);
  }

  /**
   However requests and their announcements interleave, an event attempted announces a creation or an edit that has been
   committed. It is the event that one calls for: of a creation, with the customer, currency, address and items created
   and a total as close to the stored one as Get's; of an edit, with the id of the order and, if it names an amount,
   the total and currency the order was created with.
   */
  lemma AnnouncementsFollowCommits(moves: seq<Move>, i: nat)
    requires i < |NoticesAfter(moves).attempts|
    ensures var s, p := NoticesAfter(moves).state, NoticesAfter(moves).attempts[i];
            match p.occasion
            case Birth(id) => id in s.born && p.event.orderId == id && AnnouncesBirth(s.born[id], p.event)
            case OfCommit(k) =>
              k < |s.commits| && s.commits[k].order in s.born && p.event.orderId == s.commits[k].order
              && [TypeOf(p.event)] == Kinds(s.commits[k].edit) && FaithfulTo(s.born[s.commits[k].order], p.event)
  {
    NoticesAreOk(moves);
    NoticesRunTheMachine(moves);
    EverythingIsDerived(Acts(moves));
    var s, p := NoticesAfter(moves).state, NoticesAfter(moves).attempts[i];
    assert Genuine(s, p.occasion, p.event);
    match p.occasion {
      case Birth(id) =>
        assert RowDerived(s.born[id], s.orders[id], EditsOf(s.commits, id), id);
        var o :| OfCreation(s.born[id], p.event, o);
        CreationAnnouncesBirth(s.born[id], p.event, o);
      case OfCommit(k) =>
        var b := s.born[s.commits[k].order];
        assert RowDerived(b, s.orders[s.commits[k].order], EditsOf(s.commits, s.commits[k].order), s.commits[k].order);
        var snapshot :| OfEdit(b, s.commits[k].edit, p.event, snapshot);
        GenuineIsFaithful(b, snapshot, s.commits[k].edit, p.event);
    }
  }

  /** The kinds of event an edit calls for. */
  function Kinds(e: Edit): seq<EventType> {
    if e.Cancel? then [OrderCancelled] else if e.req.status.Some? then EventFor(e.req.status.value) else []
  }

  lemma GenuineIsFaithful(b: Order, snapshot: Order, edit: Edit, e: Event)
    requires OfEdit(b, edit, e, snapshot)
    ensures e.orderId == b.id && FaithfulTo(b, e) && [TypeOf(e)] == Kinds(edit)
  {
    EditKeepsDetails(snapshot, edit);
    assert Announced(Edited(snapshot, edit), edit)[0] == e;
  }

  lemma EditKeepsDetails(o: Order, e: Edit)
    requires Refusal(o, e).None?
    ensures var w := Edited(o, e); w.id == o.id && w.totalAmount == o.totalAmount && w.currency == o.currency
  {
  }

  /** Nothing is announced twice, and what is neither owed nor attempted called for no announcement. */
  lemma AnnouncedExactlyOnce(moves: seq<Move>)
    ensures var u := NoticesAfter(moves);
            (forall i, j :: 0 <= i < j < |u.attempts| ==> u.attempts[i].occasion != u.attempts[j].occasion)
            && (u.owed == map[] ==>
                  (forall k :: 0 <= k < |u.state.commits| && CallsForEvent(u.state.commits[k].edit) ==> WasAttempted(u.attempts, OfCommit(k)))
                  && forall id :: id in u.state.orders ==> WasAttempted(u.attempts, Birth(id)))
  {
    NoticesAreOk(moves);
    NoticesRunTheMachine(moves);
    EverythingIsDerived(Acts(moves));
  }
}
