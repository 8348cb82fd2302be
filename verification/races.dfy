/** What the missing lock costs, and exactly when it costs nothing. */
module Races {
  import opened Money
  import opened Orders
  import opened Lifecycle
  import opened DbTables
  import opened Inserts
  import opened Services
  import opened Checkouts
  import opened Interleaving

  // ---------------------------------------------------------------- exactly when nothing is lost

  /**
   Of two rows of one order that both admit an edit: the edit makes the same of both
   exactly when they agree on the fields that edits keep.
   */
  lemma HarmlessExactly(current: Order, snapshot: Order, e: Edit)
    requires SameOrder(current, snapshot) && Shaped(current) && Shaped(snapshot) && Refusal(snapshot, e).None?
    ensures Harmless(current, snapshot, e) <==> Refusal(current, e).None? && Edited(current, e) == Edited(snapshot, e)
  {
  }

  /** The row is what all edits committed to the order, one after the other, make of it. */
  predicate NothingLost(s: State, id: Uuid) {
    id in s.orders ==> id in s.born && Replay(s.born[id], EditsOf(s.commits, id)) == Some(s.orders[id])
  }

  ghost predicate HarmlessCommits(commits: seq<Commit>, id: Uuid) {
    forall i :: 0 <= i < |commits| && commits[i].order == id ==> commits[i].harmless
  }

  ghost predicate CommitsKnown(s: State) {
    forall i :: 0 <= i < |s.commits| ==> s.commits[i].order in s.orders
  }

  lemma {:induction false} NoEditsOfStrangers(commits: seq<Commit>, id: Uuid)
    requires forall i :: 0 <= i < |commits| ==> commits[i].order != id
    ensures EditsOf(commits, id) == []
  {
    if commits != [] {
      NoEditsOfStrangers(commits[..|commits| - 1], id);
    }
  }

  lemma HarmlessAppend(commits: seq<Commit>, c: Commit, id: Uuid)
    ensures HarmlessCommits(commits + [c], id) <==> HarmlessCommits(commits, id) && (c.order == id ==> c.harmless)
  {
    var longer := commits + [c];
    assert longer[|commits|] == c;
    assert forall i :: 0 <= i < |commits| ==> longer[i] == commits[i];
  }

  lemma ReplayAppend(b: Order, log: seq<Edit>, e: Edit)
    ensures Replay(b, log + [e]) == (var before := Replay(b, log);
                                     if before.Some? && Refusal(before.value, e).None? then Some(Edited(before.value, e)) else None)
  {
    assert (log + [e])[..|log|] == log;
  }

  /** A write to an order of which nothing was lost so far loses nothing exactly when it is harmless. */
  lemma WroteLosesNothingExactly(s: State, snapshot: Order, e: Edit, id: Uuid)
    requires snapshot.id in s.orders && Refusal(snapshot, e).None? && NothingLost(s, id)
    requires SameOrder(s.orders[snapshot.id], snapshot) && Shaped(snapshot) && Shaped(s.orders[snapshot.id])
    ensures NothingLost(Wrote(s, snapshot, e), id) <==> (id == snapshot.id ==> Harmless(s.orders[id], snapshot, e))
  {
    EditsOfAppend(s.commits, Commit(snapshot.id, e, Harmless(s.orders[snapshot.id], snapshot, e)), id);
    if id == snapshot.id {
      ReplayLosesNothingExactly(s.born[id], EditsOf(s.commits, id), s.orders[id], snapshot, e);
    }
  }

  lemma ReplayLosesNothingExactly(b: Order, log: seq<Edit>, current: Order, snapshot: Order, e: Edit)
    requires Replay(b, log) == Some(current) && Refusal(snapshot, e).None?
    requires SameOrder(current, snapshot) && Shaped(current) && Shaped(snapshot)
    ensures Replay(b, log + [e]) == Some(Edited(snapshot, e)) <==> Harmless(current, snapshot, e)
  {
    HarmlessExactly(current, snapshot, e);
    ReplayAppend(b, log, e);
  }

  lemma WroteSplits(s: State, t: State, snapshot: Order, e: Edit, id: Uuid)
    requires snapshot.id in s.orders && Refusal(snapshot, e).None? && NothingLost(s, id) && CommitsKnown(s)
    requires SameOrder(snapshot, s.orders[snapshot.id]) && Shaped(snapshot) && Shaped(s.orders[snapshot.id])
    requires var w := Wrote(s, snapshot, e); t.orders == w.orders && t.born == w.born && t.commits == w.commits
    ensures HarmlessCommits(t.commits, id) <==> HarmlessCommits(s.commits, id) && NothingLost(t, id)
    ensures CommitsKnown(t)
  {
    WroteLosesNothingExactly(s, snapshot, e, id);
    HarmlessAppend(s.commits, Commit(snapshot.id, e, Harmless(s.orders[snapshot.id], snapshot, e)), id);
  }

  lemma BirthLosesNothing(s: State, stored: Order, id: Uuid)
    requires NothingLost(s, id) && CommitsKnown(s) && stored.id !in s.orders
    ensures NothingLost(Insert(s, stored), id) && CommitsKnown(Insert(s, stored))
  {
    if id == stored.id {
      NoEditsOfStrangers(s.commits, id);
    }
  }

  lemma MarkSplits(s: State, f: nat, persist: Instant, commits: bool, id: Uuid)
    requires AllDerived(s) && CommitsKnown(s) && NothingLost(s, id) && f in s.flights && s.flights[f].phase.Writing?
    ensures var t := DoWriteMark(s, f, persist, commits);
            HarmlessCommits(t.commits, id) <==> HarmlessCommits(s.commits, id) && NothingLost(t, id)
  {
    var snapshot, edit := s.flights[f].phase.snapshot, AtPersist(s.flights[f].phase.edit, persist);
    MarkIsWrote(s, f, persist, commits);
    if commits && Refusal(snapshot, edit).None? {
      WroteSplits(s, DoWriteMark(s, f, persist, commits), snapshot, edit, id);
    }
  }

  lemma EditSplits(s: State, e: nat, persist: Instant, commits: bool, id: Uuid)
    requires AllDerived(s) && CommitsKnown(s) && NothingLost(s, id) && e in s.editors
    ensures var t := DoWriteEdit(s, e, persist, commits);
            HarmlessCommits(t.commits, id) <==> HarmlessCommits(s.commits, id) && NothingLost(t, id)
  {
    var snapshot, edit := s.editors[e].snapshot, AtPersist(s.editors[e].edit, persist);
    EditIsWrote(s, e, persist, commits);
    if commits && Refusal(snapshot, edit).None? {
      WroteSplits(s, DoWriteEdit(s, e, persist, commits), snapshot, edit, id);
    }
  }

  /** One step from a state in which nothing was lost: the next loses nothing exactly if its commit, if any, is harmless. */
  lemma StepLosesNothingExactly(s: State, a: Action, id: Uuid)
    requires AllDerived(s) && CommitsKnown(s) && NothingLost(s, id)
    ensures var t := Do(s, a); HarmlessCommits(t.commits, id) <==> HarmlessCommits(s.commits, id) && NothingLost(t, id)
  {
    if Enabled(s, a) {
      if a.CreateFromCart? || a.CreateDirectly? {
        CreatingLosesNothing(s, a, id);
      } else if a.WriteMark? {
        MarkSplits(s, a.flight, a.persist, a.commits, id);
      } else if a.WriteEdit? {
        EditSplits(s, a.editor, a.persist, a.commits, id);
      } else {
        ReadsChangeNoRow(s, a);
      }
    }
  }

  lemma CreatingLosesNothing(s: State, a: Action, id: Uuid)
    requires CommitsKnown(s) && NothingLost(s, id) && Enabled(s, a) && (a.CreateFromCart? || a.CreateDirectly?)
    ensures var t := DoCreating(s, a); NothingLost(t, id) && t.commits == s.commits
  {
    if a.commits && a.stored.id !in s.orders {
      BirthLosesNothing(s, a.stored, id);
    }
  }

  lemma DoKeepsKnown(s: State, a: Action)
    requires CommitsKnown(s)
    ensures CommitsKnown(Do(s, a))
  {
  }

  lemma {:induction false} EveryCommitIsKnown(steps: seq<Action>)
    ensures CommitsKnown(After(steps))
  {
    if steps != [] {
      EveryCommitIsKnown(steps[..|steps| - 1]);
      DoKeepsKnown(After(steps[..|steps| - 1]), steps[|steps| - 1]);
    }
  }

  lemma ReadsChangeNoRow(s: State, a: Action)
    requires IsLocal(a) || a.ReadForMark? || a.ReadForEdit?
    ensures Do(s, a).orders == s.orders && Do(s, a).born == s.born && Do(s, a).commits == s.commits
  {
  }

  /** Nothing is lost of the order at any point of the run. */
  ghost predicate NeverLost(steps: seq<Action>, id: Uuid) {
    NothingLost(After(steps), id) && (steps != [] ==> NeverLost(steps[..|steps| - 1], id))
  }

  /**
   The missing lock costs nothing exactly when every commit to the order was harmless: at every point of the run its
   row is what all the edits committed until then, in order, make of it, if and only if each was written
   over a row that still admitted it and had its payment time, shipping time, tracking and carrier as read.
   */
  lemma {:induction false} NothingLostExactly(steps: seq<Action>, id: Uuid)
    ensures NeverLost(steps, id) <==> HarmlessCommits(After(steps).commits, id)
  {
    if steps != [] {
      var init, a := steps[..|steps| - 1], steps[|steps| - 1];
      NothingLostExactly(init, id);
      EverythingIsDerived(init);
      EveryCommitIsKnown(init);
      CommitsGrow(After(init), a, id);
      if NeverLost(init, id) {
        LastLost(init, id);
        StepLosesNothingExactly(After(init), a, id);
      }
    }
  }

  lemma LastLost(steps: seq<Action>, id: Uuid)
    requires NeverLost(steps, id)
    ensures NothingLost(After(steps), id)
  {
  }

  lemma CommitsGrow(s: State, a: Action, id: Uuid)
    ensures HarmlessCommits(Do(s, a).commits, id) ==> HarmlessCommits(s.commits, id)
  {
    var c := Do(s, a).commits;
    assert |s.commits| <= |c| && forall i :: 0 <= i < |s.commits| ==> c[i] == s.commits[i];
  }

  function Paying(now: Instant): Edit {
    UpdateStatus(MarkPaid("", ""), now, now, now)
  }

  function Cancelling(now: Instant): Edit {
    Cancel("", "", now, now)
  }

  /**
   A stale write does lose one: from any state with a PENDING order, a payment read before a cancel commits
   and written after it leaves the order PAID with no trace of the cancel, although both were accepted and committed.
   So CANCELLED can be left, which no uninterrupted run allows; LeavesTerminalExactly and KeepsStatusExactly say when.
   */
  lemma StaleWriteLosesCancel(steps: seq<Action>, id: Uuid, e: nat, g: nat, now: Instant)
    returns (s1: State, s2: State, s3: State, s4: State)
    requires id in After(steps).orders && After(steps).orders[id].status == Pending
    requires e !in After(steps).editors && g !in After(steps).editors && e != g
    ensures s1 == Do(After(steps), ReadForEdit(e, id, Cancelling(now), true))
    ensures s2 == Do(s1, ReadForEdit(g, id, Paying(now), true))
    ensures s3 == Do(s2, WriteEdit(e, now, true))
    ensures s4 == Do(s3, WriteEdit(g, now, true))
    ensures id in s3.orders && s3.orders[id].status == Cancelled && s3.orders[id].cancelledAt == Some(now)
    ensures id in s4.orders && s4.orders[id].status == Paid && s4.orders[id].cancelledAt == None
    ensures s4.commits == After(steps).commits + [Commit(id, Cancelling(now), true), Commit(id, Paying(now), false)]
  {
    RowFacts(steps, id);
    s1, s2, s3, s4 := StaleWriteFrom(After(steps), id, e, g, now);
  }

  lemma RowFacts(steps: seq<Action>, id: Uuid)
    requires id in After(steps).orders
    ensures var o := After(steps).orders[id]; o.id == id && o.totalAmount == Total(o.items) && Shaped(o)
  {
    EverythingIsDerived(steps);
    var s := After(steps);
    RowIsSnapshot(s, id);
    SnapshotSound(s, s.orders[id]);
    assert RowDerived(s.born[id], s.orders[id], EditsOf(s.commits, id), id);
    DerivedKeeps(s.born[id], id, s.orders[id], EditsOf(s.commits, id));
  }

  lemma StaleWriteFrom(s: State, id: Uuid, e: nat, g: nat, now: Instant)
    returns (s1: State, s2: State, s3: State, s4: State)
    requires id in s.orders && s.orders[id].status == Pending
    requires var o := s.orders[id]; o.id == id && o.totalAmount == Total(o.items) && o.cancelledAt == None
    requires e !in s.editors && g !in s.editors && e != g
    ensures s1 == Do(s, ReadForEdit(e, id, Cancelling(now), true))
    ensures s2 == Do(s1, ReadForEdit(g, id, Paying(now), true))
    ensures s3 == Do(s2, WriteEdit(e, now, true))
    ensures s4 == Do(s3, WriteEdit(g, now, true))
    ensures id in s3.orders && s3.orders[id].status == Cancelled && s3.orders[id].cancelledAt == Some(now)
    ensures id in s4.orders && s4.orders[id].status == Paid && s4.orders[id].cancelledAt == None
    ensures s4.commits == s.commits + [Commit(id, Cancelling(now), true), Commit(id, Paying(now), false)]
  {
    var o := s.orders[id];
    s1 := OneRead(s, id, e, Cancelling(now));
    s2 := OneRead(s1, id, g, Paying(now));
    s3 := OneWrite(s2, o, e, Cancelling(now), now);
    s4 := OneWrite(s3, o, g, Paying(now), now);
  }

  lemma OneRead(s: State, id: Uuid, e: nat, edit: Edit) returns (t: State)
    requires id in s.orders && e !in s.editors && Refusal(s.orders[id], edit).None?
    ensures t == Do(s, ReadForEdit(e, id, edit, true))
    ensures t.orders == s.orders && t.commits == s.commits && t.editors == s.editors[e := Editor(s.orders[id], edit)]
  {
    t := Do(s, ReadForEdit(e, id, edit, true));
  }

  lemma OneWrite(s: State, o: Order, e: nat, edit: Edit, now: Instant) returns (t: State)
    requires e in s.editors && s.editors[e] == Editor(o, edit) && edit.persist == now && Refusal(o, edit).None?
    requires o.id in s.orders && s.orders[o.id].items == o.items && o.totalAmount == Total(o.items)
    ensures t == Do(s, WriteEdit(e, now, true))
    ensures t.orders == s.orders[o.id := Edited(o, edit)] && t.editors == s.editors - {e}
    ensures t.commits == s.commits + [Commit(o.id, edit, Harmless(s.orders[o.id], o, edit))]
  {
    t := Do(s, WriteEdit(e, now, true));
    EditKeepsItems(o, edit);
  }

  lemma StoredFormOf(r: CreateRequest, id: Uuid, itemIds: seq<Uuid>, now: Instant, persist: Instant) returns (stored: Order)
    requires ValidRequest(r) && |itemIds| == |r.items| && id != 0 && 0 !in itemIds
    ensures Creatable(r, id, itemIds, now, persist, stored) && stored.status == Pending && stored.id == id
  {
    var p := CreatedOrder(r, id, itemIds, now, persist);
    CreatedIsNew(r, id, itemIds, now, persist);
    stored := p.(items := StoredItems(p), totalAmount := Total(StoredItems(p)));
    assert SubtotaledAll(StoredItems(p)) == StoredItems(p);
  }

  lemma AfterAppend(steps: seq<Action>, a: Action)
    ensures After(steps + [a]) == Do(After(steps), a)
  {
    assert (steps + [a])[..|steps|] == steps;
  }

  lemma OneBirth(r: CreateRequest, id: Uuid, itemIds: seq<Uuid>, now: Instant, stored: Order) returns (s: State)
    requires Creatable(r, id, itemIds, now, now, stored)
    ensures s == Do(EMPTY, CreateDirectly(r, id, itemIds, now, now, stored, true))
    ensures s.orders == map[stored.id := stored] && s.editors == map[] && s.commits == []
  {
    s := Do(EMPTY, CreateDirectly(r, id, itemIds, now, now, stored, true));
  }

  /** Such a state is always within reach: every valid request starts a run of five steps that loses a committed cancel. */
  lemma CancelIsLostSomewhere(r: CreateRequest, id: Uuid, itemIds: seq<Uuid>, now: Instant) returns (steps: seq<Action>)
    requires ValidRequest(r) && |itemIds| == |r.items| && id != 0 && 0 !in itemIds
    ensures !NeverLost(steps, id) && id in After(steps).orders && After(steps).orders[id].status == Paid
    ensures After(steps).commits == [Commit(id, Cancelling(now), true), Commit(id, Paying(now), false)]
  {
    var stored := StoredFormOf(r, id, itemIds, now, now);
    var a := CreateDirectly(r, id, itemIds, now, now, stored, true);
    AfterAppend([], a);
    var s := OneBirth(r, id, itemIds, now, stored);
    steps := LostFrom([] + [a], id, now);
    assert After(steps).commits[1] == Commit(id, Paying(now), false);
    NothingLostExactly(steps, id);
  }

  lemma LostFrom(begun: seq<Action>, id: Uuid, now: Instant) returns (steps: seq<Action>)
    requires id in After(begun).orders && After(begun).orders[id].status == Pending && After(begun).editors == map[]
    ensures id in After(steps).orders && After(steps).orders[id].status == Paid
    ensures After(steps).commits == After(begun).commits + [Commit(id, Cancelling(now), true), Commit(id, Paying(now), false)]
  {
    var s1, s2, s3, s4 := StaleWriteLosesCancel(begun, id, 0, 1, now);
    steps := LostRun(begun, id, now);
  }

  lemma LostRun(begun: seq<Action>, id: Uuid, now: Instant) returns (steps: seq<Action>)
    ensures After(steps) == Do(Do(Do(Do(After(begun), ReadForEdit(0, id, Cancelling(now), true)),
                                     ReadForEdit(1, id, Paying(now), true)), WriteEdit(0, now, true)), WriteEdit(1, now, true))
  {
    var a, b := ReadForEdit(0, id, Cancelling(now), true), ReadForEdit(1, id, Paying(now), true);
    AfterAppend(begun, a);
    AfterAppend(begun + [a], b);
    AfterAppend(begun + [a] + [b], WriteEdit(0, now, true));
    AfterAppend(begun + [a] + [b] + [WriteEdit(0, now, true)], WriteEdit(1, now, true));
    steps := begun + [a] + [b] + [WriteEdit(0, now, true)] + [WriteEdit(1, now, true)];
  }

  // ---------------------------------------------------------------- exactly when a terminal status is left

  predicate Terminal(o: Order) {
    o.status == Completed || o.status == Cancelled
  }

  /** The snapshot and the edit that a step commits, if it commits one. */
  function Committing(s: State, a: Action): Option<Editor> {
    var held :=
      if a.WriteEdit? && a.editor in s.editors && a.commits then
        Some(Editor(s.editors[a.editor].snapshot, AtPersist(s.editors[a.editor].edit, a.persist)))
      else if a.WriteMark? && a.flight in s.flights && s.flights[a.flight].phase.Writing? && a.commits then
        Some(Editor(s.flights[a.flight].phase.snapshot, AtPersist(s.flights[a.flight].phase.edit, a.persist)))
      else None;
    if held.Some? && Refusal(held.value.snapshot, held.value.edit).Some? then None else held
  }

  /** Rows and commits after a step that commits c, or nothing. */
  predicate Result(s: State, t: State, c: Option<Editor>) {
    if c.None? then t.orders == s.orders && t.commits == s.commits
    else
      c.value.snapshot.id in s.orders && Refusal(c.value.snapshot, c.value.edit).None?
      && t.orders == s.orders[c.value.snapshot.id := Edited(c.value.snapshot, c.value.edit)]
      && t.commits == s.commits + [Commit(c.value.snapshot.id, c.value.edit,
                                          Harmless(s.orders[c.value.snapshot.id], c.value.snapshot, c.value.edit))]
  }

  lemma MarkResult(s: State, f: nat, persist: Instant, commits: bool)
    requires AllDerived(s) && f in s.flights && s.flights[f].phase.Writing?
    ensures Result(s, DoWriteMark(s, f, persist, commits), Committing(s, WriteMark(f, persist, commits)))
  {
    MarkIsWrote(s, f, persist, commits);
  }

  lemma EditResult(s: State, e: nat, persist: Instant, commits: bool)
    requires AllDerived(s) && e in s.editors
    ensures Result(s, DoWriteEdit(s, e, persist, commits), Committing(s, WriteEdit(e, persist, commits)))
  {
    EditIsWrote(s, e, persist, commits);
  }

  lemma WriteResult(s: State, a: Action)
    requires AllDerived(s) && (a.WriteMark? || a.WriteEdit?)
    ensures Result(s, Do(s, a), Committing(s, a))
  {
    if a.WriteMark? && a.flight in s.flights && s.flights[a.flight].phase.Writing? {
      MarkResult(s, a.flight, a.persist, a.commits);
    } else if a.WriteEdit? && a.editor in s.editors {
      EditResult(s, a.editor, a.persist, a.commits);
    }
  }

  /** A step changes the row of an order exactly to what it commits to that order. */
  lemma RowAfterStep(s: State, a: Action, id: Uuid)
    requires AllDerived(s) && id in s.orders
    ensures var c := Committing(s, a);
            id in Do(s, a).orders
            && Do(s, a).orders[id] == if c.Some? && c.value.snapshot.id == id then Edited(c.value.snapshot, c.value.edit)
                                      else s.orders[id]
  {
    if a.WriteMark? || a.WriteEdit? {
      WriteResult(s, a);
      ResultRow(s, Do(s, a), Committing(s, a), id);
    } else {
      OthersKeepRows(s, a, id);
    }
  }

  lemma ResultRow(s: State, t: State, c: Option<Editor>, id: Uuid)
    requires Result(s, t, c) && id in s.orders
    ensures id in t.orders
    ensures t.orders[id] == if c.Some? && c.value.snapshot.id == id then Edited(c.value.snapshot, c.value.edit) else s.orders[id]
  {
  }

  lemma ResultKeepsTerminal(s: State, t: State, c: Option<Editor>, id: Uuid)
    requires Result(s, t, c) && id in s.orders && Terminal(s.orders[id]) && HarmlessCommits(t.commits, id)
    ensures id in t.orders && t.orders[id].status == s.orders[id].status
  {
    if c.Some? && c.value.snapshot.id == id {
      HarmlessAppend(s.commits, Commit(id, c.value.edit, Harmless(s.orders[id], c.value.snapshot, c.value.edit)), id);
      HarmlessKeepsTerminal(s.orders[id], c.value.snapshot, c.value.edit);
    }
  }

  lemma OthersKeepRows(s: State, a: Action, id: Uuid)
    requires id in s.orders && !a.WriteMark? && !a.WriteEdit?
    ensures id in Do(s, a).orders && Do(s, a).orders[id] == s.orders[id]
  {
    if Enabled(s, a) && !a.CreateFromCart? && !a.CreateDirectly? {
      ReadsChangeNoRow(s, a);
    }
  }

  /** A harmless edit leaves a terminal status as it is. */
  lemma HarmlessKeepsTerminal(current: Order, snapshot: Order, e: Edit)
    requires Terminal(current) && Refusal(snapshot, e).None? && Harmless(current, snapshot, e)
    ensures Edited(snapshot, e).status == current.status
  {
  }

  /**
   A step takes an order out of COMPLETED or CANCELLED exactly when it commits to it an edit that asks for another
   status; such a commit is never harmless.
   */
  lemma LeavesTerminalExactly(steps: seq<Action>, a: Action, id: Uuid)
    requires id in After(steps).orders && Terminal(After(steps).orders[id])
    ensures var s, c := After(steps), Committing(After(steps), a);
            id in After(steps + [a]).orders
            && (After(steps + [a]).orders[id].status != s.orders[id].status <==>
                c.Some? && c.value.snapshot.id == id && Target(c.value.edit) != s.orders[id].status)
            && (After(steps + [a]).orders[id].status != s.orders[id].status ==>
                  !Harmless(s.orders[id], c.value.snapshot, c.value.edit))
  {
    AfterAppend(steps, a);
    EverythingIsDerived(steps);
    var s, c := After(steps), Committing(After(steps), a);
    RowAfterStep(s, a, id);
    if c.Some? {
      EditedHasTarget(c.value.snapshot, c.value.edit);
      if Harmless(s.orders[id], c.value.snapshot, c.value.edit) {
        HarmlessKeepsTerminal(s.orders[id], c.value.snapshot, c.value.edit);
      }
    }
  }

  /** The status of the order is the given one at every point of the run from steps on. */
  ghost predicate StaysAt(steps: seq<Action>, more: seq<Action>, id: Uuid, status: OrderStatus) {
    id in After(steps + more).orders && After(steps + more).orders[id].status == status
    && (more != [] ==> StaysAt(steps, more[..|more| - 1], id, status))
  }

  /** Every commit to the order from the n-th on asks for the status. */
  ghost predicate AllAskFor(commits: seq<Commit>, n: nat, id: Uuid, status: OrderStatus) {
    forall k :: n <= k < |commits| && commits[k].order == id ==> Target(commits[k].edit) == status
  }

  lemma ResultAsks(s: State, t: State, c: Option<Editor>, n: nat, id: Uuid, status: OrderStatus)
    requires Result(s, t, c) && n <= |s.commits| && id in s.orders && s.orders[id].status == status
    ensures id in t.orders
    ensures AllAskFor(t.commits, n, id, status) <==> AllAskFor(s.commits, n, id, status) && t.orders[id].status == status
  {
    if c.Some? {
      EditedHasTarget(c.value.snapshot, c.value.edit);
      assert t.commits[|s.commits|].edit == c.value.edit && t.commits[|s.commits|].order == c.value.snapshot.id;
      assert forall k :: 0 <= k < |s.commits| ==> t.commits[k] == s.commits[k];
    }
  }

  lemma OthersCommitNothing(s: State, a: Action)
    requires !a.WriteMark? && !a.WriteEdit?
    ensures Do(s, a).commits == s.commits
  {
  }

  lemma StepAsks(s: State, a: Action, n: nat, id: Uuid, status: OrderStatus)
    requires AllDerived(s) && n <= |s.commits| && id in s.orders && s.orders[id].status == status
    ensures n <= |Do(s, a).commits| && id in Do(s, a).orders
    ensures AllAskFor(Do(s, a).commits, n, id, status) <==>
            AllAskFor(s.commits, n, id, status) && Do(s, a).orders[id].status == status
  {
    if a.WriteMark? || a.WriteEdit? {
      WriteResult(s, a);
      ResultAsks(s, Do(s, a), Committing(s, a), n, id, status);
    } else {
      OthersKeepRows(s, a, id);
      OthersCommitNothing(s, a);
    }
  }

  lemma CommitsAccumulate(s: State, a: Action)
    ensures |s.commits| <= |Do(s, a).commits| && forall k :: 0 <= k < |s.commits| ==> Do(s, a).commits[k] == s.commits[k]
  {
  }

  /**
   In every interleaving an order keeps the status it has at every later point of the run if and only if every later
   commit to it asks for that status: so a COMPLETED or CANCELLED order is left exactly when some commit asks for another.
   */
  lemma {:induction false} KeepsStatusExactly(steps: seq<Action>, more: seq<Action>, id: Uuid)
    requires id in After(steps).orders
    ensures |After(steps).commits| <= |After(steps + more).commits|
    ensures StaysAt(steps, more, id, After(steps).orders[id].status) <==>
            AllAskFor(After(steps + more).commits, |After(steps).commits|, id, After(steps).orders[id].status)
  {
    if more == [] {
      assert steps + more == steps;
    } else {
      var init, a := more[..|more| - 1], more[|more| - 1];
      var n, status := |After(steps).commits|, After(steps).orders[id].status;
      KeepsStatusExactly(steps, init, id);
      AfterOneMore(steps, more);
      CommitsAccumulate(After(steps + init), a);
      EverythingIsDerived(steps + init);
      if StaysAt(steps, init, id, status) {
        StepAsks(After(steps + init), a, n, id, status);
      }
    }
  }

  lemma HarmlessStepKeepsTerminal(s: State, a: Action, id: Uuid)
    requires AllDerived(s) && id in s.orders && Terminal(s.orders[id]) && HarmlessCommits(Do(s, a).commits, id)
    ensures id in Do(s, a).orders && Do(s, a).orders[id].status == s.orders[id].status
  {
    if a.WriteMark? || a.WriteEdit? {
      WriteResult(s, a);
      ResultKeepsTerminal(s, Do(s, a), Committing(s, a), id);
    } else {
      OthersKeepRows(s, a, id);
    }
  }

  /** While every commit to the order is harmless, COMPLETED and CANCELLED are never left, whatever is interleaved. */
  lemma {:induction false} HarmlessRunsKeepTerminal(steps: seq<Action>, more: seq<Action>, id: Uuid)
    requires id in After(steps).orders && Terminal(After(steps).orders[id])
    requires HarmlessCommits(After(steps + more).commits, id)
    ensures id in After(steps + more).orders && After(steps + more).orders[id].status == After(steps).orders[id].status
  {
    if more == [] {
      assert steps + more == steps;
    } else {
      var init, a := more[..|more| - 1], more[|more| - 1];
      AfterOneMore(steps, more);
      CommitsGrow(After(steps + init), a, id);
      HarmlessRunsKeepTerminal(steps, init, id);
      EverythingIsDerived(steps + init);
      HarmlessStepKeepsTerminal(After(steps + init), a, id);
    }
  }
}
