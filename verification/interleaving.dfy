/**
 Concurrent requests over one store. Every read and every write of an order is a step of its own, as
 no lock spans them in go/internal/order/service.go, and so is every call a checkout makes to another party.
 Steps of any number of requests interleave freely; every party may fail at every step.
 */
module Interleaving {
  import opened Sums
  import opened Money
  import opened Orders
  import opened Lifecycle
  import opened DbTables
  import opened Inserts
  import opened Services
  import opened Checkouts

  /** Where a checkout stands. */
  datatype Phase =
    | ReadingCart
    | Creating(cart: Cart)
    | Charging
    | AwaitingPayment
    | Marking(paymentId: string)
    | Writing(snapshot: Order, edit: Edit)
    | Clearing
    | Returned(code: int)

  /** A checkout with the record of what it has done so far. */
  datatype Flight = Flight(
    customer: string, phase: Phase, order: Option<Uuid>, amount: Decimal,
    sent: bool, confirmed: bool, marked: bool, clears: nat)

  /** A status update or cancel that has read its order and not yet written it. */
  datatype Editor = Editor(snapshot: Order, edit: Edit)

  /** A request to the payment service, or a confirmed capture, with the checkout it belongs to. */
  datatype Charge = Charge(flight: nat, order: Uuid, amount: Decimal)

  datatype Commit = Commit(order: Uuid, edit: Edit, harmless: bool)

  datatype State = State(
    orders: map<Uuid, Order>,     // what Get of each id returns
    born: map<Uuid, Order>,       // what it returned right after creation
    created: seq<Uuid>,           // the ids in order of creation
    flights: map<nat, Flight>,
    editors: map<nat, Editor>,
    requests: seq<Charge>,        // payment requests sent
    captures: seq<Charge>,        // payments confirmed
    commits: seq<Commit>)         // edits committed, and whether the row written over was as good as the one read

  datatype Action =
    | Enter(flight: nat, call: CheckoutCall)
    | ReadCart(flight: nat, cart: Option<Cart>)
    | CreateFromCart(flight: nat, call: CheckoutCall, id: Uuid, itemIds: seq<Uuid>, now: Instant, persist: Instant,
                     stored: Order, commits: bool)
    | SendPayment(flight: nat)
    | AnswerPayment(flight: nat, reply: HttpReply)
    | ReadForMark(flight: nat, gateway: string, now: Instant, today: Instant, readOk: bool)
    | WriteMark(flight: nat, persist: Instant, commits: bool)
    | ClearCart(flight: nat, clears: bool)
    | CreateDirectly(request: CreateRequest, id: Uuid, itemIds: seq<Uuid>, now: Instant, persist: Instant,
                     stored: Order, commits: bool)
    | ReadForEdit(editor: nat, id: Uuid, edit: Edit, readOk: bool)
    | WriteEdit(editor: nat, persist: Instant, commits: bool)

  /** What a committed creation of p leaves to be read, by lemma ReadBack of Inserts. */
  ghost predicate StoredForm(p: Order, stored: Order) {
    multiset(stored.items) == multiset(StoredItems(p)) && Recalculated(stored) == stored
    && stored == p.(items := stored.items, totalAmount := stored.totalAmount)
  }

  ghost predicate Creatable(r: CreateRequest, id: Uuid, itemIds: seq<Uuid>, now: Instant, persist: Instant, stored: Order) {
    ValidRequest(r) && |itemIds| == |r.items| && id != 0 && 0 !in itemIds
    && StoredForm(CreatedOrder(r, id, itemIds, now, persist), stored)
  }

  function Insert(s: State, stored: Order): State {
    s.(orders := s.orders[stored.id := stored], born := s.born[stored.id := stored], created := s.created + [stored.id])
  }

  function SetFlight(s: State, f: nat, flight: Flight): State {
    s.(flights := s.flights[f := flight])
  }

  /** The edit with the clock reading made when it is written. */
  function AtPersist(e: Edit, persist: Instant): Edit {
    e.(persist := persist)
  }

  /** The row still admits the edit, and has the fields that edits keep as the snapshot has them. */
  predicate Harmless(current: Order, snapshot: Order, e: Edit) {
    Refusal(current, e).None? && current.paidAt == snapshot.paidAt && current.shippedAt == snapshot.shippedAt
    && current.trackingNumber == snapshot.trackingNumber && current.carrier == snapshot.carrier
  }

  /** Write a snapshot as edited over whatever the row holds by now. */
  function Write(s: State, snapshot: Order, edit: Edit): State
    requires snapshot.id in s.orders && Refusal(snapshot, edit).None?
  {
    var current := s.orders[snapshot.id];
    s.(orders := s.orders[snapshot.id := WriteBack(current, Edited(snapshot, edit))],
       commits := s.commits + [Commit(snapshot.id, edit, Harmless(current, snapshot, edit))])
  }

  ghost predicate Enabled(s: State, a: Action) {
    match a
    case Enter(f, _) => f !in s.flights
    case ReadCart(f, _) => f in s.flights && s.flights[f].phase.ReadingCart?
    case CreateFromCart(f, call, id, itemIds, now, persist, stored, commits) =>
      f in s.flights && s.flights[f].phase.Creating? && call.customer == s.flights[f].customer
      && (commits ==> Creatable(CartRequest(call.customer, s.flights[f].phase.cart, call.address), id, itemIds, now, persist,
                                stored))
    case SendPayment(f) => f in s.flights && s.flights[f].phase.Charging?
    case AnswerPayment(f, _) => f in s.flights && s.flights[f].phase.AwaitingPayment?
    case ReadForMark(f, _, _, _, _) => f in s.flights && s.flights[f].phase.Marking?
    case WriteMark(f, _, _) => f in s.flights && s.flights[f].phase.Writing?
    case ClearCart(f, _) => f in s.flights && s.flights[f].phase.Clearing?
    case CreateDirectly(r, id, itemIds, now, persist, stored, commits) =>
      commits ==> Creatable(r, id, itemIds, now, persist, stored)
    case ReadForEdit(e, _, _, _) => e !in s.editors
    case WriteEdit(e, _, _) => e in s.editors
  }

  /** A checkout ends with a status code. */
  function End(s: State, f: nat, code: int): State
    requires f in s.flights
  {
    SetFlight(s, f, s.flights[f].(phase := Returned(code)))
  }

  /** amount is the total of the order as CreateOrder returned it, stored what the store made of it. */
  ghost function DoCreate(s: State, f: nat, stored: Order, amount: Decimal): State
    requires f in s.flights
  {
    SetFlight(Insert(s, stored), f, s.flights[f].(phase := Charging, order := Some(stored.id), amount := amount))
  }

  ghost function DoReadForMark(s: State, f: nat, gateway: string, now: Instant, today: Instant, readOk: bool): (r: State)
    requires f in s.flights && s.flights[f].phase.Marking?
    ensures r.orders == s.orders && r.born == s.born && r.created == s.created && r.editors == s.editors
  {
    var flight := s.flights[f];
    if !readOk || flight.order.None? || flight.order.value !in s.orders then End(s, f, 500)
    else
      var snapshot := s.orders[flight.order.value];
      var edit := UpdateStatus(MarkPaid(gateway, flight.phase.paymentId), now, now, today);
      if Refusal(snapshot, edit).Some? then End(s, f, 500)
      else SetFlight(s, f, flight.(phase := Writing(snapshot, edit)))
  }

  ghost function DoWriteMark(s: State, f: nat, persist: Instant, commits: bool): (r: State)
    requires f in s.flights && s.flights[f].phase.Writing?
    ensures r.orders.Keys == s.orders.Keys && r.born == s.born && r.created == s.created && r.editors == s.editors
  {
    var flight := s.flights[f];
    var edit := AtPersist(flight.phase.edit, persist);
    if !commits || flight.phase.snapshot.id !in s.orders || Refusal(flight.phase.snapshot, edit).Some?
    then End(s, f, 500)
    else SetFlight(Write(s, flight.phase.snapshot, edit), f, flight.(phase := Clearing, marked := true))
  }

  ghost function DoReadForEdit(s: State, e: nat, id: Uuid, edit: Edit, readOk: bool): (r: State)
    ensures r.orders == s.orders && r.born == s.born && r.created == s.created && r.flights == s.flights
  {
    if !readOk || id !in s.orders || Refusal(s.orders[id], edit).Some? then s
    else s.(editors := s.editors[e := Editor(s.orders[id], edit)])
  }

  ghost function DoWriteEdit(s: State, e: nat, persist: Instant, commits: bool): (r: State)
    requires e in s.editors
    ensures r.orders.Keys == s.orders.Keys && r.born == s.born && r.created == s.created && r.flights == s.flights
  {
    var editor := s.editors[e];
    var edit := AtPersist(editor.edit, persist);
    var done := s.(editors := s.editors - {e});
    if !commits || editor.snapshot.id !in s.orders || Refusal(editor.snapshot, edit).Some? then done
    else Write(done, editor.snapshot, edit)
  }

  ghost function DoCreating(s: State, a: Action): (r: State)
    requires Enabled(s, a) && (a.CreateFromCart? || a.CreateDirectly?)
    ensures forall id :: id in s.orders ==> id in r.orders && r.orders[id] == s.orders[id]
    ensures forall id :: id in s.born ==> id in r.born && (id in s.orders ==> r.born[id] == s.born[id])
  {
    match a
    case CreateFromCart(f, call, id, itemIds, now, persist, stored, commits) =>
      var request := CartRequest(call.customer, s.flights[f].phase.cart, call.address);
      if !commits || stored.id in s.orders then End(s, f, 400)
      else DoCreate(s, f, stored, CreatedOrder(request, id, itemIds, now, persist).totalAmount)
    case CreateDirectly(_, _, _, _, persist, stored, commits) =>
      if !commits || stored.id in s.orders then s else Insert(s, stored)
  }

  /** The steps of a checkout that touch no order. */
  predicate IsLocal(a: Action) {
    a.Enter? || a.ReadCart? || a.SendPayment? || a.AnswerPayment? || a.ClearCart?
  }

  function Flown(flight: Option<Flight>, a: Action): Flight
    requires IsLocal(a) && (flight.Some? || a.Enter?)
  {
    match a
    case Enter(_, call) =>
      Flight(call.customer,
             if call.customer == "" then Returned(401) else if !Admitted(call) then Returned(400) else ReadingCart,
             None, 0.0, false, false, false, 0)
    case ReadCart(_, cart) =>
      flight.value.(phase := if cart.None? then Returned(502)
                             else if cart.value.items == [] then Returned(400) else Creating(cart.value))
    case SendPayment(_) => flight.value.(phase := AwaitingPayment, sent := true)
    case AnswerPayment(_, reply) =>
      if Confirms(reply) then flight.value.(phase := Marking(reply.body.id), confirmed := true)
      else flight.value.(phase := Returned(402))
    case ClearCart(_, _) => flight.value.(phase := Returned(200), clears := flight.value.clears + 1)
  }

  function ChargeOf(f: nat, flight: Flight): Charge {
    Charge(f, if flight.order.Some? then flight.order.value else 0, flight.amount)
  }

  ghost function DoLocal(s: State, a: Action): (r: State)
    requires Enabled(s, a) && IsLocal(a)
    ensures r.orders == s.orders && r.born == s.born && r.created == s.created && r.editors == s.editors
  {
    var f := a.flight;
    var flown := Flown(if f in s.flights then Some(s.flights[f]) else None, a);
    s.(flights := s.flights[f := flown],
       requests := if a.SendPayment? then s.requests + [ChargeOf(f, flown)] else s.requests,
       captures := if a.AnswerPayment? && Confirms(a.reply) then s.captures + [ChargeOf(f, flown)] else s.captures)
  }

  /** One step; an action that is not enabled changes nothing. */
  ghost function Do(s: State, a: Action): State {
    if !Enabled(s, a) then s
    else if IsLocal(a) then DoLocal(s, a)
    else if a.CreateFromCart? || a.CreateDirectly? then DoCreating(s, a)
    else if a.ReadForMark? then DoReadForMark(s, a.flight, a.gateway, a.now, a.today, a.readOk)
    else if a.WriteMark? then DoWriteMark(s, a.flight, a.persist, a.commits)
    else if a.ReadForEdit? then DoReadForEdit(s, a.editor, a.id, a.edit, a.readOk)
    else DoWriteEdit(s, a.editor, a.persist, a.commits)
  }

  const EMPTY := State(map[], map[], [], map[], map[], [], [], [])

  /** The state any sequence of steps leads to. */
  ghost function After(steps: seq<Action>): State {
    if steps == [] then EMPTY else Do(After(steps[..|steps| - 1]), steps[|steps| - 1])
  }

  // ---------------------------------------------------------------- rows and snapshots are chains of accepted edits

  /** a can be had from b by leaving elements out. */
  predicate Subsequence<T(==)>(a: seq<T>, b: seq<T>) {
    a == [] ||
    (b != [] && (Subsequence(a, b[..|b| - 1])
                 || (a[|a| - 1] == b[|b| - 1] && Subsequence(a[..|a| - 1], b[..|b| - 1]))))
  }

  /** The committed edits of one order, in order of commit. */
  function EditsOf(commits: seq<Commit>, id: Uuid): seq<Edit> {
    if commits == [] then []
    else
      var n := |commits| - 1;
      EditsOf(commits[..n], id) + if commits[n].order == id then [commits[n].edit] else []
  }

  /** o is what a chain of accepted edits, each committed and in order of commit, makes of b. */
  ghost predicate Derived(b: Order, o: Order, log: seq<Edit>) {
    exists edits: seq<Edit> :: Replay(b, edits) == Some(o) && Subsequence(edits, log)
  }

  ghost predicate BornWell(b: Order, id: Uuid) {
    b.id == id && IsNew(b) && Recalculated(b) == b
  }

  ghost predicate RowDerived(b: Order, o: Order, log: seq<Edit>, id: Uuid) {
    BornWell(b, id) && Derived(b, o, log)
  }

  ghost predicate RowsDerived(orders: map<Uuid, Order>, born: map<Uuid, Order>, commits: seq<Commit>) {
    orders.Keys == born.Keys
    && forall id :: id in orders ==> RowDerived(born[id], orders[id], EditsOf(commits, id), id)
  }

  ghost predicate SnapshotDerived(born: map<Uuid, Order>, commits: seq<Commit>, o: Order) {
    o.id in born && Derived(born[o.id], o, EditsOf(commits, o.id))
  }

  ghost predicate EditorsDerived(born: map<Uuid, Order>, commits: seq<Commit>, editors: map<nat, Editor>) {
    forall e :: e in editors ==> SnapshotDerived(born, commits, editors[e].snapshot)
  }

  ghost predicate FlightDerived(born: map<Uuid, Order>, commits: seq<Commit>, flight: Flight) {
    flight.phase.Writing? ==> SnapshotDerived(born, commits, flight.phase.snapshot)
  }

  ghost predicate FlightsDerived(born: map<Uuid, Order>, commits: seq<Commit>, flights: map<nat, Flight>) {
    forall f :: f in flights ==> FlightDerived(born, commits, flights[f])
  }

  ghost predicate AllDerived(s: State) {
    RowsDerived(s.orders, s.born, s.commits) && EditorsDerived(s.born, s.commits, s.editors)
    && FlightsDerived(s.born, s.commits, s.flights)
  }

  lemma DerivedKeeps(b: Order, id: Uuid, o: Order, log: seq<Edit>)
    requires BornWell(b, id) && Derived(b, o, log)
    ensures SameOrder(b, o) && Shaped(o) && o.id == id
  {
    var edits :| Replay(b, edits) == Some(o) && Subsequence(edits, log);
    ReplayIsRun(b, edits);
    RunKeepsOrder(b, AsCalls(edits));
    RunIsShaped(b, AsCalls(edits));
  }

  lemma DerivedExtends(b: Order, o: Order, log: seq<Edit>, e: Edit)
    requires Derived(b, o, log)
    ensures Derived(b, o, log + [e])
    ensures Refusal(o, e).None? ==> Derived(b, Edited(o, e), log + [e])
  {
    var edits :| Replay(b, edits) == Some(o) && Subsequence(edits, log);
    assert (log + [e])[..|log|] == log;
    assert Subsequence(edits, log + [e]);
    if Refusal(o, e).None? {
      assert (edits + [e])[..|edits|] == edits;
      assert Replay(b, edits + [e]) == Some(Edited(o, e));
      assert Subsequence(edits + [e], log + [e]);
    }
  }

  lemma EditsOfAppend(commits: seq<Commit>, c: Commit, id: Uuid)
    ensures EditsOf(commits + [c], id) == if c.order == id then EditsOf(commits, id) + [c.edit] else EditsOf(commits, id)
  {
    assert (commits + [c])[..|commits|] == commits;
  }

  lemma SnapshotGrows(born: map<Uuid, Order>, commits: seq<Commit>, c: Commit, o: Order)
    requires SnapshotDerived(born, commits, o)
    ensures SnapshotDerived(born, commits + [c], o)
  {
    EditsOfAppend(commits, c, o.id);
    if c.order == o.id {
      DerivedExtends(born[o.id], o, EditsOf(commits, o.id), c.edit);
    }
  }

  /** Writing a stale snapshot puts the snapshot's own chain, one edit longer, in the row: fields never mix. */
  lemma WriteBackIsEdited(b: Order, id: Uuid, current: Order, snapshot: Order, log: seq<Edit>, e: Edit)
    requires BornWell(b, id) && Derived(b, current, log) && Derived(b, snapshot, log) && Refusal(snapshot, e).None?
    ensures WriteBack(current, Edited(snapshot, e)) == Edited(snapshot, e)
    ensures Derived(b, Edited(snapshot, e), log + [e])
  {
    DerivedKeeps(b, id, current, log);
    DerivedKeeps(b, id, snapshot, log);
    EditKeepsItems(snapshot, e);
    DerivedExtends(b, snapshot, log, e);
  }

  lemma StoredIsBornWell(r: CreateRequest, id: Uuid, itemIds: seq<Uuid>, now: Instant, persist: Instant, stored: Order)
    requires Creatable(r, id, itemIds, now, persist, stored)
    ensures BornWell(stored, id)
  {
    CreatedIsNew(r, id, itemIds, now, persist);
  }

  lemma BirthKeepsDerived(s: State, stored: Order)
    requires AllDerived(s) && stored.id !in s.orders && BornWell(stored, stored.id)
    ensures AllDerived(Insert(s, stored))
  {
    var born, c := s.born[stored.id := stored], s.commits;
    assert Replay(stored, []) == Some(stored) && Subsequence([], EditsOf(c, stored.id));
    assert forall o :: SnapshotDerived(s.born, c, o) ==> SnapshotDerived(born, c, o);
    assert RowsDerived(s.orders[stored.id := stored], born, c);
    forall f | f in s.flights
      ensures FlightDerived(born, c, s.flights[f])
    {
      assert FlightDerived(s.born, c, s.flights[f]);
    }
  }

  lemma FlightKeepsDerived(s: State, f: nat, flight: Flight)
    requires AllDerived(s) && FlightDerived(s.born, s.commits, flight)
    ensures AllDerived(SetFlight(s, f, flight))
  {
    var flights := s.flights[f := flight];
    forall g | g in flights
      ensures FlightDerived(s.born, s.commits, flights[g])
    {
      if g != f {
        assert FlightDerived(s.born, s.commits, s.flights[g]);
      }
    }
  }

  /** One row, before and after the commit c of an edit that writes w. */
  lemma RowGrows(b: Order, o: Order, w: Order, commits: seq<Commit>, c: Commit, k: Uuid)
    requires RowDerived(b, o, EditsOf(commits, k), k)
    requires c.order == k ==> Derived(b, w, EditsOf(commits, k) + [c.edit])
    ensures RowDerived(b, if c.order == k then w else o, EditsOf(commits + [c], k), k)
  {
    EditsOfAppend(commits, c, k);
  }

  lemma WriteKeepsRows(s: State, snapshot: Order, e: Edit, c: Commit)
    requires RowsDerived(s.orders, s.born, s.commits) && SnapshotDerived(s.born, s.commits, snapshot)
    requires Refusal(snapshot, e).None? && c.order == snapshot.id && c.edit == e
    ensures snapshot.id in s.orders && WriteBack(s.orders[snapshot.id], Edited(snapshot, e)) == Edited(snapshot, e)
    ensures RowsDerived(s.orders[snapshot.id := Edited(snapshot, e)], s.born, s.commits + [c])
  {
    var id, w := snapshot.id, Edited(snapshot, e);
    assert RowDerived(s.born[id], s.orders[id], EditsOf(s.commits, id), id);
    WriteBackIsEdited(s.born[id], id, s.orders[id], snapshot, EditsOf(s.commits, id), e);
    RowsGrow(s, w, c);
  }

  lemma RowsGrow(s: State, w: Order, c: Commit)
    requires RowsDerived(s.orders, s.born, s.commits) && c.order in s.orders
    requires Derived(s.born[c.order], w, EditsOf(s.commits, c.order) + [c.edit])
    ensures RowsDerived(s.orders[c.order := w], s.born, s.commits + [c])
  {
    var orders := s.orders[c.order := w];
    forall k | k in orders
      ensures RowDerived(s.born[k], orders[k], EditsOf(s.commits + [c], k), k)
    {
      RowGrows(s.born[k], s.orders[k], w, s.commits, c, k);
    }
    assert orders.Keys == s.orders.Keys;
  }

  lemma WriteKeepsDerived(s: State, snapshot: Order, e: Edit)
    requires AllDerived(s) && SnapshotDerived(s.born, s.commits, snapshot) && Refusal(snapshot, e).None?
    ensures snapshot.id in s.orders && AllDerived(Write(s, snapshot, e))
    ensures Write(s, snapshot, e).orders[snapshot.id] == Edited(snapshot, e)
  {
    var c := Commit(snapshot.id, e, Harmless(s.orders[snapshot.id], snapshot, e));
    WriteKeepsRows(s, snapshot, e, c);
    forall k | k in s.editors
      ensures SnapshotDerived(s.born, s.commits + [c], s.editors[k].snapshot)
    {
      SnapshotGrows(s.born, s.commits, c, s.editors[k].snapshot);
    }
    forall f | f in s.flights
      ensures FlightDerived(s.born, s.commits + [c], s.flights[f])
    {
      assert FlightDerived(s.born, s.commits, s.flights[f]);
      if s.flights[f].phase.Writing? {
        SnapshotGrows(s.born, s.commits, c, s.flights[f].phase.snapshot);
      }
    }
  }

  /** Write, with the row written spelled out. */
  function Wrote(s: State, snapshot: Order, e: Edit): State
    requires snapshot.id in s.orders && Refusal(snapshot, e).None?
  {
    s.(orders := s.orders[snapshot.id := Edited(snapshot, e)],
       commits := s.commits + [Commit(snapshot.id, e, Harmless(s.orders[snapshot.id], snapshot, e))])
  }

  lemma WriteIsWrote(s: State, snapshot: Order, e: Edit)
    requires AllDerived(s) && SnapshotDerived(s.born, s.commits, snapshot) && Refusal(snapshot, e).None?
    ensures snapshot.id in s.orders && Write(s, snapshot, e) == Wrote(s, snapshot, e)
  {
    WriteKeepsRows(s, snapshot, e, Commit(snapshot.id, e, false));
  }

  /** What every snapshot has whatever it was derived by. */
  lemma SnapshotSound(s: State, o: Order)
    requires AllDerived(s) && SnapshotDerived(s.born, s.commits, o)
    ensures o.id in s.orders && Shaped(o) && o.createdAt != 0
    ensures SameOrder(o, s.orders[o.id]) && Shaped(s.orders[o.id])
  {
    assert RowDerived(s.born[o.id], s.orders[o.id], EditsOf(s.commits, o.id), o.id);
    DerivedKeeps(s.born[o.id], o.id, o, EditsOf(s.commits, o.id));
    DerivedKeeps(s.born[o.id], o.id, s.orders[o.id], EditsOf(s.commits, o.id));
  }

  /** What the write of a marking checkout does, when it does something. */
  lemma MarkIsWrote(s: State, f: nat, persist: Instant, commits: bool)
    requires AllDerived(s) && f in s.flights && s.flights[f].phase.Writing?
    ensures var snapshot, edit := s.flights[f].phase.snapshot, AtPersist(s.flights[f].phase.edit, persist);
            var t := DoWriteMark(s, f, persist, commits);
            snapshot.id in s.orders && Shaped(snapshot) && snapshot.createdAt != 0
            && SameOrder(snapshot, s.orders[snapshot.id]) && Shaped(s.orders[snapshot.id])
            && if !commits || Refusal(snapshot, edit).Some? then t == End(s, f, 500)
               else t == SetFlight(Wrote(s, snapshot, edit), f,
                                   s.flights[f].(phase := Clearing, marked := true))
  {
    var snapshot, edit := s.flights[f].phase.snapshot, AtPersist(s.flights[f].phase.edit, persist);
    assert FlightDerived(s.born, s.commits, s.flights[f]);
    SnapshotSound(s, snapshot);
    if Refusal(snapshot, edit).None? {
      WriteIsWrote(s, snapshot, edit);
    }
  }

  /** What the write of an edit does, when it does something. */
  lemma EditIsWrote(s: State, e: nat, persist: Instant, commits: bool)
    requires AllDerived(s) && e in s.editors
    ensures var snapshot, edit := s.editors[e].snapshot, AtPersist(s.editors[e].edit, persist);
            var t, rest := DoWriteEdit(s, e, persist, commits), s.(editors := s.editors - {e});
            snapshot.id in s.orders && Shaped(snapshot) && snapshot.createdAt != 0
            && SameOrder(snapshot, s.orders[snapshot.id]) && Shaped(s.orders[snapshot.id])
            && if !commits || Refusal(snapshot, edit).Some? then t == rest
               else t == Wrote(rest, snapshot, edit)
  {
    var snapshot, edit := s.editors[e].snapshot, AtPersist(s.editors[e].edit, persist);
    SnapshotSound(s, snapshot);
    if Refusal(snapshot, edit).None? {
      WriteIsWrote(s, snapshot, edit);
    }
  }

  lemma RowIsSnapshot(s: State, id: Uuid)
    requires AllDerived(s) && id in s.orders
    ensures SnapshotDerived(s.born, s.commits, s.orders[id]) && s.orders[id].id == id
  {
    DerivedKeeps(s.born[id], id, s.orders[id], EditsOf(s.commits, id));
  }

  lemma CreateKeepsDerived(s: State, f: nat, stored: Order, amount: Decimal)
    requires AllDerived(s) && f in s.flights && BornWell(stored, stored.id) && stored.id !in s.orders
    ensures AllDerived(DoCreate(s, f, stored, amount))
  {
    BirthKeepsDerived(s, stored);
    FlightKeepsDerived(Insert(s, stored), f,
                       s.flights[f].(phase := Charging, order := Some(stored.id), amount := amount));
  }

  lemma CreatingKeepsDerived(s: State, a: Action)
    requires AllDerived(s) && Enabled(s, a) && (a.CreateFromCart? || a.CreateDirectly?)
    ensures AllDerived(DoCreating(s, a))
  {
    if !a.commits || a.stored.id in s.orders {
      if a.CreateFromCart? {
        FlightKeepsDerived(s, a.flight, s.flights[a.flight].(phase := Returned(400)));
      }
    } else if a.CreateFromCart? {
      var request := CartRequest(a.call.customer, s.flights[a.flight].phase.cart, a.call.address);
      StoredIsBornWell(request, a.id, a.itemIds, a.now, a.persist, a.stored);
      CreateKeepsDerived(s, a.flight, a.stored,
                         CreatedOrder(request, a.id, a.itemIds, a.now, a.persist).totalAmount);
    } else {
      StoredIsBornWell(a.request, a.id, a.itemIds, a.now, a.persist, a.stored);
      BirthKeepsDerived(s, a.stored);
    }
  }

  lemma ReadForMarkKeepsDerived(s: State, f: nat, gateway: string, now: Instant, today: Instant, readOk: bool)
    requires AllDerived(s) && f in s.flights && s.flights[f].phase.Marking?
    ensures AllDerived(DoReadForMark(s, f, gateway, now, today, readOk))
  {
    var flight := s.flights[f];
    if !readOk || flight.order.None? || flight.order.value !in s.orders {
      FlightKeepsDerived(s, f, flight.(phase := Returned(500)));
    } else {
      var snapshot := s.orders[flight.order.value];
      var edit := UpdateStatus(MarkPaid(gateway, flight.phase.paymentId), now, now, today);
      RowIsSnapshot(s, flight.order.value);
      if Refusal(snapshot, edit).Some? {
        FlightKeepsDerived(s, f, flight.(phase := Returned(500)));
      } else {
        FlightKeepsDerived(s, f, flight.(phase := Writing(snapshot, edit)));
      }
    }
  }

  lemma WriteMarkKeepsDerived(s: State, f: nat, persist: Instant, commits: bool)
    requires AllDerived(s) && f in s.flights && s.flights[f].phase.Writing?
    ensures AllDerived(DoWriteMark(s, f, persist, commits))
  {
    var flight := s.flights[f];
    var snapshot, edit := flight.phase.snapshot, AtPersist(flight.phase.edit, persist);
    assert FlightDerived(s.born, s.commits, flight);
    if !commits || snapshot.id !in s.orders || Refusal(snapshot, edit).Some? {
      FlightKeepsDerived(s, f, flight.(phase := Returned(500)));
    } else {
      WriteThenFly(s, snapshot, edit, f, flight.(phase := Clearing, marked := true));
    }
  }

  lemma WriteThenFly(s: State, snapshot: Order, e: Edit, f: nat, flight: Flight)
    requires AllDerived(s) && SnapshotDerived(s.born, s.commits, snapshot) && Refusal(snapshot, e).None?
    requires !flight.phase.Writing?
    ensures snapshot.id in s.orders && AllDerived(SetFlight(Write(s, snapshot, e), f, flight))
  {
    WriteKeepsDerived(s, snapshot, e);
    FlightKeepsDerived(Write(s, snapshot, e), f, flight);
  }

  lemma ReadForEditKeepsDerived(s: State, e: nat, id: Uuid, edit: Edit, readOk: bool)
    requires AllDerived(s)
    ensures AllDerived(DoReadForEdit(s, e, id, edit, readOk))
  {
    if id in s.orders {
      RowIsSnapshot(s, id);
    }
  }

  lemma WriteEditKeepsDerived(s: State, e: nat, persist: Instant, commits: bool)
    requires AllDerived(s) && e in s.editors
    ensures AllDerived(DoWriteEdit(s, e, persist, commits))
  {
    var editor := s.editors[e];
    var edit := AtPersist(editor.edit, persist);
    if Refusal(editor.snapshot, edit).None? {
      WriteKeepsDerived(s.(editors := s.editors - {e}), editor.snapshot, edit);
    }
  }

  lemma LocalKeepsDerived(s: State, a: Action)
    requires AllDerived(s) && Enabled(s, a) && IsLocal(a)
    ensures AllDerived(DoLocal(s, a))
  {
    FlightKeepsDerived(s, a.flight, DoLocal(s, a).flights[a.flight]);
  }

  /** Every step keeps every row and every snapshot a chain of accepted edits of the order as created. */
  lemma DoKeepsDerived(s: State, a: Action)
    requires AllDerived(s)
    ensures AllDerived(Do(s, a))
  {
    if Enabled(s, a) {
      if IsLocal(a) {
        LocalKeepsDerived(s, a);
      } else if a.CreateFromCart? || a.CreateDirectly? {
        CreatingKeepsDerived(s, a);
      } else if a.ReadForMark? {
        ReadForMarkKeepsDerived(s, a.flight, a.gateway, a.now, a.today, a.readOk);
      } else if a.WriteMark? {
        WriteMarkKeepsDerived(s, a.flight, a.persist, a.commits);
      } else {
        if a.ReadForEdit? {
          ReadForEditKeepsDerived(s, a.editor, a.id, a.edit, a.readOk);
        } else {
          WriteEditKeepsDerived(s, a.editor, a.persist, a.commits);
        }
      }
    }
  }

  lemma {:induction false} EverythingIsDerived(steps: seq<Action>)
    ensures AllDerived(After(steps))
  {
    if steps != [] {
      EverythingIsDerived(steps[..|steps| - 1]);
      DoKeepsDerived(After(steps[..|steps| - 1]), steps[|steps| - 1]);
    }
  }

  /**
   Whatever is interleaved, every stored row is what a sequential chain of accepted edits makes of the
   order as created, the chain leaving out lost updates but otherwise following the order of commits;
   id, customer, items, total, currency, address and creation time are those of creation.
   */
  lemma InterleavedRows(steps: seq<Action>, id: Uuid)
    requires id in After(steps).orders
    ensures var s := After(steps);
            id in s.born && IsNew(s.born[id]) && SameOrder(s.born[id], s.orders[id]) && Shaped(s.orders[id])
            && exists edits :: Replay(s.born[id], edits) == Some(s.orders[id])
                               && Subsequence(edits, EditsOf(s.commits, id))
  {
    EverythingIsDerived(steps);
    var s := After(steps);
    DerivedKeeps(s.born[id], id, s.orders[id], EditsOf(s.commits, id));
  }

  /** A request has read o and not yet written it back. */
  ghost predicate InHand(s: State, o: Order) {
    (exists e :: e in s.editors && s.editors[e].snapshot == o)
    || (exists f :: f in s.flights && s.flights[f].phase.Writing? && s.flights[f].phase.snapshot == o)
  }

  /** So is every snapshot in the hand of an edit or a checkout. */
  lemma InterleavedSnapshots(steps: seq<Action>, o: Order)
    requires InHand(After(steps), o)
    ensures var s := After(steps);
            o.id in s.born && SameOrder(s.born[o.id], o) && Shaped(o)
            && exists edits :: Replay(s.born[o.id], edits) == Some(o) && Subsequence(edits, EditsOf(s.commits, o.id))
  {
    EverythingIsDerived(steps);
    var s := After(steps);
    assert forall f :: f in s.flights ==> FlightDerived(s.born, s.commits, s.flights[f]);
    assert SnapshotDerived(s.born, s.commits, o);
    DerivedKeeps(s.born[o.id], o.id, o, EditsOf(s.commits, o.id));
  }

  /** The order as created is never replaced. */
  lemma {:induction false} BornForever(steps: seq<Action>, more: seq<Action>, id: Uuid)
    requires id in After(steps).orders && id in After(steps).born
    ensures id in After(steps + more).orders && id in After(steps + more).born
    ensures After(steps + more).born[id] == After(steps).born[id]
  {
    if more == [] {
      assert steps + more == steps;
    } else {
      var init := more[..|more| - 1];
      BornForever(steps, init, id);
      BirthIsUnique(After(steps + init), more[|more| - 1], id);
      AfterOneMore(steps, more);
    }
  }

  lemma AfterOneMore(steps: seq<Action>, more: seq<Action>)
    requires more != []
    ensures After(steps + more) == Do(After(steps + more[..|more| - 1]), more[|more| - 1])
  {
    var all, n := steps + more, |steps + more| - 1;
    assert all[..n] == steps + more[..|more| - 1] && all[n] == more[|more| - 1];
    AfterLast(all);
  }

  lemma AfterLast(all: seq<Action>)
    requires all != []
    ensures After(all) == Do(After(all[..|all| - 1]), all[|all| - 1])
  {
  }

  lemma BirthIsUnique(s: State, a: Action, id: Uuid)
    requires id in s.orders && id in s.born
    ensures id in Do(s, a).orders && id in Do(s, a).born && Do(s, a).born[id] == s.born[id]
  {
  }
}
