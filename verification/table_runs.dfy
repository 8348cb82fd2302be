/**
 Whole interleaved runs on the two tables: every step of the machine that commits is the transaction it stands for.
 */
module TableRuns {
  import opened Sums
  import opened Money
  import opened Orders
  import opened Lifecycle
  import opened DbTables
  import opened Inserts
  import opened Store
  import opened Services
  import opened Checkouts
  import opened Interleaving
  import opened Races
  import opened Announcements
  import StoreRuns
  import Refinement

  /** The order a step of the machine writes, if it commits an edit. */
  function WrittenBy(s: State, a: Action): Option<Order> {
    var c := Committing(s, a);
    if c.Some? && Refusal(c.value.snapshot, c.value.edit).None? then Some(Edited(c.value.snapshot, c.value.edit)) else None
  }

  /** A step commits only what the tables admit, and what is read of a new order is what they give back. */
  ghost predicate AdmittedByTables(db: Tables, s: State, a: Action) {
    (Creation(s, a).Some? ==>
       var o := Creation(s, a).value;
       Insertable(db, o, NoFault) && Read(Inserted(db, o), o.id) == Some(a.stored))
    && (WrittenBy(s, a).Some? ==> Updatable(db, WrittenBy(s, a).value, NoFault))
  }

  ghost function TablesStep(db: Tables, s: State, a: Action): Tables {
    if Creation(s, a).Some? then Inserted(db, Creation(s, a).value)
    else if WrittenBy(s, a).Some? then Written(db, WrittenBy(s, a).value)
    else db
  }

  /** The tables after the steps. */
  ghost function TablesOf(steps: seq<Action>): Tables {
    if steps == [] then Tables(map[], map[])
    else TablesStep(TablesOf(steps[..|steps| - 1]), After(steps[..|steps| - 1]), steps[|steps| - 1])
  }

  ghost predicate OnTables(steps: seq<Action>) {
    steps != [] ==>
      OnTables(steps[..|steps| - 1])
      && AdmittedByTables(TablesOf(steps[..|steps| - 1]), After(steps[..|steps| - 1]), steps[|steps| - 1])
  }

  // ---------------------------------------------------------------- the machine's orders are the tables'

  lemma CreationRows(s: State, a: Action)
    requires Creation(s, a).Some?
    ensures var o := Creation(s, a).value;
            o.id == a.stored.id && Do(s, a).orders == s.orders[o.id := a.stored] && o.totalAmount == Total(o.items)
            && forall i :: 0 <= i < |o.items| ==> o.items[i].subtotal == ItemLine(o.items[i])
  {
    if a.CreateFromCart? {
      var r := CartRequest(a.call.customer, s.flights[a.flight].phase.cart, a.call.address);
      CreatedIsNew(r, a.id, a.itemIds, a.now, a.persist);
      var amount := CreatedOrder(r, a.id, a.itemIds, a.now, a.persist).totalAmount;
      assert Do(s, a) == DoCreate(s, a.flight, a.stored, amount);
    } else {
      CreatedIsNew(a.request, a.id, a.itemIds, a.now, a.persist);
    }
  }

  lemma CommittingIsAccepted(s: State, a: Action)
    ensures Committing(s, a).Some? <==> WrittenBy(s, a).Some?
  {
  }

  /** What a step writes has the items of the row, and their total. */
  lemma WrittenIsWhole(s: State, a: Action)
    requires AllDerived(s) && WrittenBy(s, a).Some?
    ensures var w := WrittenBy(s, a).value;
            w.id in s.orders && Do(s, a).orders == s.orders[w.id := w] && WriteBack(s.orders[w.id], w) == w
            && w.totalAmount == s.orders[w.id].totalAmount
  {
    WriteResult(s, a);
    var c := Committing(s, a).value;
    if a.WriteMark? {
      assert FlightDerived(s.born, s.commits, s.flights[a.flight]);
    }
    assert SnapshotDerived(s.born, s.commits, c.snapshot);
    WriteKeepsRows(s, c.snapshot, c.edit, Commit(c.snapshot.id, c.edit, false));
    SnapshotSound(s, c.snapshot);
    EditKeepsItems(c.snapshot, c.edit);
  }

  lemma QuietRows(s: State, a: Action)
    requires Creation(s, a).None? && WrittenBy(s, a).None? && AllDerived(s)
    ensures Do(s, a).orders == s.orders
  {
    if a.WriteMark? || a.WriteEdit? {
      WriteResult(s, a);
    } else if !a.CreateFromCart? && !a.CreateDirectly? {
      ReadsChangeNoRow(s, a);
    }
  }

  lemma StepSimulates(db: Tables, s: State, a: Action)
    requires ForeignKey(db) && Reads(db) == s.orders && AllDerived(s) && AdmittedByTables(db, s, a)
    ensures ForeignKey(TablesStep(db, s, a)) && Reads(TablesStep(db, s, a)) == Do(s, a).orders
  {
    if Creation(s, a).Some? {
      CreationRows(s, a);
      ReadsAfterInsert(db, Creation(s, a).value, NoFault);
      InsertKeepsForeignKey(db, Creation(s, a).value, NoFault);
    } else if WrittenBy(s, a).Some? {
      var w := WrittenBy(s, a).value;
      WrittenIsWhole(s, a);
      assert s.orders[w.id] == Read(db, w.id).value;
      Refinement.ReadsAfterAnyWrite(db, w);
    } else {
      QuietRows(s, a);
    }
  }

  /**
   At every point of every interleaved run on the tables, what Get returns of each order is what the machine says: every
   result about the machine's orders is one about the tables.
   */
  lemma {:induction false} RunsAreOnTables(steps: seq<Action>)
    requires OnTables(steps)
    ensures ForeignKey(TablesOf(steps)) && Reads(TablesOf(steps)) == After(steps).orders
  {
    if steps != [] {
      var init := steps[..|steps| - 1];
      RunsAreOnTables(init);
      EverythingIsDerived(init);
      StepSimulates(TablesOf(init), After(init), steps[|steps| - 1]);
    }
  }

  // ---------------------------------------------------------------- the balance of the columns

  predicate KeepsItsLines(o: Order) {
    Sum(StoredLine, o.items) == Sum(ItemLine, o.items)
  }

  /** The order as it was created. */
  ghost function Made(steps: seq<Action>, id: Uuid): Option<Order> {
    if steps == [] then None
    else
      var init := steps[..|steps| - 1];
      var o := Creation(After(init), steps[|steps| - 1]);
      if o.Some? && o.value.id == id then o else Made(init, id)
  }

  ghost function Keeping(steps: seq<Action>): set<Uuid> {
    if steps == [] then {}
    else
      var init := steps[..|steps| - 1];
      KeepingAfter(Keeping(init), Creation(After(init), steps[|steps| - 1]))
  }

  function KeepingAfter(kept: set<Uuid>, o: Option<Order>): set<Uuid> {
    if o.None? then kept else if KeepsItsLines(o.value) then kept + {o.value.id} else kept - {o.value.id}
  }

  lemma WriteKeepsAll(db: Tables, w: Order, kept: set<Uuid>)
    requires StoreRuns.AllTrack(db, kept) && w.id in db.orders && w.totalAmount == Read(db, w.id).value.totalAmount
    ensures StoreRuns.AllTrack(Written(db, w), kept)
  {
    forall id | id in db.orders
      ensures StoreRuns.Tracks(Written(db, w), id, id in kept)
    {
      Refinement.WriteKeepsTrack(db, w, id, id in kept);
    }
  }

  lemma StepTracks(db: Tables, s: State, a: Action, kept: set<Uuid>)
    requires ForeignKey(db) && Reads(db) == s.orders && AllDerived(s) && AdmittedByTables(db, s, a) && StoreRuns.AllTrack(db, kept)
    ensures StoreRuns.AllTrack(TablesStep(db, s, a), KeepingAfter(kept, Creation(s, a)))
  {
    if Creation(s, a).Some? {
      CreationRows(s, a);
      BirthTracks(db, Creation(s, a).value, kept);
    } else if WrittenBy(s, a).Some? {
      WrittenKeepsTotal(db, s, a);
      WriteKeepsAll(db, WrittenBy(s, a).value, kept);
    }
  }

  lemma WrittenKeepsTotal(db: Tables, s: State, a: Action)
    requires Reads(db) == s.orders && AllDerived(s) && WrittenBy(s, a).Some?
    ensures var w := WrittenBy(s, a).value; w.id in db.orders && w.totalAmount == Read(db, w.id).value.totalAmount
  {
    WrittenIsWhole(s, a);
    assert s.orders[WrittenBy(s, a).value.id] == Reads(db)[WrittenBy(s, a).value.id];
  }

  lemma BirthTracks(db: Tables, o: Order, kept: set<Uuid>)
    requires ForeignKey(db) && Insertable(db, o, NoFault) && StoreRuns.AllTrack(db, kept) && o.totalAmount == Total(o.items)
    requires forall i :: 0 <= i < |o.items| ==> o.items[i].subtotal == ItemLine(o.items[i])
    ensures StoreRuns.AllTrack(Inserted(db, o), KeepingAfter(kept, Some(o)))
  {
    StoreRuns.OrderTracks(db, o, NoFault);
    StoreRuns.CreateKeepsAll(db, o, NoFault, kept, KeepingAfter(kept, Some(o)));
  }

  lemma {:induction false} EveryTableTracks(steps: seq<Action>)
    requires OnTables(steps)
    ensures StoreRuns.AllTrack(TablesOf(steps), Keeping(steps))
  {
    if steps != [] {
      var init := steps[..|steps| - 1];
      EveryTableTracks(init);
      RunsAreOnTables(init);
      EverythingIsDerived(init);
      StepTracks(TablesOf(init), After(init), steps[|steps| - 1], Keeping(init));
    }
  }

  lemma {:induction false} EveryOrderWasMade(steps: seq<Action>, id: Uuid)
    requires id in After(steps).orders
    ensures Made(steps, id).Some? && (id in Keeping(steps) <==> KeepsItsLines(Made(steps, id).value))
  {
    var init, a := steps[..|steps| - 1], steps[|steps| - 1];
    OneMoreStep(steps);
    if !(Creation(After(init), a).Some? && Creation(After(init), a).value.id == id) {
      EveryOrderWasMade(init, id);
    }
  }

  lemma StepKeys(s: State, a: Action)
    requires AllDerived(s)
    ensures Do(s, a).orders.Keys ==
            if Creation(s, a).Some? then s.orders.Keys + {Creation(s, a).value.id} else s.orders.Keys
  {
    if Creation(s, a).Some? {
      CreationRows(s, a);
    } else if WrittenBy(s, a).Some? {
      WrittenKeys(s, a);
    } else {
      QuietRows(s, a);
    }
  }

  lemma WrittenKeys(s: State, a: Action)
    requires AllDerived(s) && WrittenBy(s, a).Some?
    ensures Do(s, a).orders.Keys == s.orders.Keys
  {
    WrittenIsWhole(s, a);
    var w := WrittenBy(s, a).value;
    assert s.orders[w.id := w].Keys == s.orders.Keys;
  }

  lemma OneMoreStep(steps: seq<Action>)
    requires steps != []
    ensures var init, a := steps[..|steps| - 1], steps[|steps| - 1];
            After(steps).orders.Keys ==
            if Creation(After(init), a).Some? then After(init).orders.Keys + {Creation(After(init), a).value.id}
            else After(init).orders.Keys
  {
    EverythingIsDerived(steps[..|steps| - 1]);
    StepKeys(After(steps[..|steps| - 1]), steps[|steps| - 1]);
  }

  /**
   In every interleaving, stale writes included, an order's total_amount, the sum of its items' total_price and the
   total Get returns are one value if and only if rounding the prices it was created with keeps the sum of its lines.
   */
  lemma InterleavedBalanceExactly(steps: seq<Action>, id: Uuid)
    requires OnTables(steps) && id in After(steps).orders
    ensures Made(steps, id).Some?
    ensures StoreRuns.Balanced(TablesOf(steps), id) <==> KeepsItsLines(Made(steps, id).value)
  {
    EveryTableTracks(steps);
    RunsAreOnTables(steps);
    EveryOrderWasMade(steps, id);
    assert id in Reads(TablesOf(steps));
    assert StoreRuns.Tracks(TablesOf(steps), id, id in Keeping(steps));
  }
}
