/** The language of an order's events when requests interleave: of those its commits call for, and of those attempted. */
module EventLanguage {
  import opened Sums
  import opened Orders
  import opened Lifecycle
  import opened Services
  import opened Interleaving
  import opened Races
  import opened Announcements

  // ---------------------------------------------------------------- what the commits call for

  /** The kinds of event the edits committed to an order call for, in order of commit. */
  function KindsOf(edits: seq<Edit>): seq<EventType> {
    if edits == [] then [] else KindsOf(edits[..|edits| - 1]) + Kinds(edits[|edits| - 1])
  }

  lemma KindsOfAnnounced(o: Order, e: Edit)
    requires Refusal(o, e).None?
    ensures Types(Attempts(o, Call(e, false))) == Kinds(e)
  {
  }

  lemma {:induction false} ReplayAttemptsKinds(b: Order, edits: seq<Edit>)
    requires Replay(b, edits).Some?
    ensures Types(Attempted(b, AsCalls(edits))) == KindsOf(edits)
  {
    if edits != [] {
      var n := |edits| - 1;
      ReplayAttemptsKinds(b, edits[..n]);
      ReplayIsRun(b, edits[..n]);
      assert AsCalls(edits)[..n] == AsCalls(edits[..n]);
      TypesConcat(Attempted(b, AsCalls(edits[..n])), Attempts(Run(b, AsCalls(edits[..n])), AsCalls(edits)[n]));
      KindsOfAnnounced(Run(b, AsCalls(edits[..n])), edits[n]);
    }
  }

  /** While every commit to an order is harmless, the events its commits call for are a word of the language. */
  lemma HarmlessCommitsCallForALifeWord(steps: seq<Action>, id: Uuid)
    requires id in After(steps).orders && HarmlessCommits(After(steps).commits, id)
    ensures IsLifeWord([OrderCreated] + KindsOf(EditsOf(After(steps).commits, id)))
  {
    NothingLostExactly(steps, id);
    LastLost(steps, id);
    EverythingIsDerived(steps);
    var s := After(steps);
    assert RowDerived(s.born[id], s.orders[id], EditsOf(s.commits, id), id);
    ReplayAttemptsKinds(s.born[id], EditsOf(s.commits, id));
    RunAttemptsALifeWord(s.born[id], AsCalls(EditsOf(s.commits, id)));
  }

  /** A stale commit can leave the language: after created and cancelled comes paid. */
  lemma StaleCommitLeavesTheLanguage(r: CreateRequest, id: Uuid, itemIds: seq<Uuid>, now: Instant) returns (steps: seq<Action>)
    requires ValidRequest(r) && |itemIds| == |r.items| && id != 0 && 0 !in itemIds
    ensures id in After(steps).orders
    ensures KindsOf(EditsOf(After(steps).commits, id)) == [OrderCancelled, OrderPaid]
    ensures !IsLifeWord([OrderCreated] + KindsOf(EditsOf(After(steps).commits, id)))
  {
    steps := CancelIsLostSomewhere(r, id, itemIds, now);
    var a, b := Commit(id, Cancelling(now), true), Commit(id, Paying(now), false);
    assert After(steps).commits == [] + [a] + [b];
    EditsOfAppend([], a, id);
    EditsOfAppend([] + [a], b, id);
    var edits := [Cancelling(now), Paying(now)];
    assert EditsOf([], id) + [Cancelling(now)] + [Paying(now)] == edits;
    assert edits[..1] == [Cancelling(now)] && edits[..1][..0] == [];
    assert KindsOf(edits[..1]) == [OrderCancelled];
    var life := [OrderCreated] + [OrderCancelled, OrderPaid];
    assert life[1..][1] == OrderPaid && life[1] == OrderCancelled;
  }

  /** The last event that the commits to an order call for, its creation first. */
  function LastCalled(commits: seq<Commit>, id: Uuid): EventType {
    if commits == [] then OrderCreated
    else
      var n := |commits| - 1;
      if commits[n].order == id && CallsForEvent(commits[n].edit) then Kinds(commits[n].edit)[0] else LastCalled(commits[..n], id)
  }

  /** Each commit to the order that calls for an event does so when that event is due. */
  predicate CommittedWhenDue(commits: seq<Commit>, id: Uuid) {
    forall k :: 0 <= k < |commits| && commits[k].order == id && CallsForEvent(commits[k].edit) ==>
                  Due(Some(LastCalled(commits[..k], id)), Kinds(commits[k].edit)[0])
  }

  function WordOf(commits: seq<Commit>, id: Uuid): seq<EventType> {
    [OrderCreated] + KindsOf(EditsOf(commits, id))
  }

  lemma WordGrows(commits: seq<Commit>, c: Commit, id: Uuid)
    ensures WordOf(commits + [c], id) == WordOf(commits, id) + if c.order == id then Kinds(c.edit) else []
  {
    EditsOfAppend(commits, c, id);
    if c.order == id {
      var log := EditsOf(commits, id);
      assert (log + [c.edit])[..|log|] == log;
    }
  }

  lemma DueGrows(commits: seq<Commit>, c: Commit, id: Uuid)
    ensures CommittedWhenDue(commits + [c], id) <==>
            CommittedWhenDue(commits, id)
            && (c.order == id && CallsForEvent(c.edit) ==> Due(Some(LastCalled(commits, id)), Kinds(c.edit)[0]))
  {
    var longer := commits + [c];
    assert longer[..|commits|] == commits && longer[|commits|] == c;
    assert forall k :: 0 <= k < |commits| ==> longer[k] == commits[k] && longer[..k] == commits[..k];
  }

  lemma {:induction false} WordExactly(commits: seq<Commit>, id: Uuid)
    ensures EachDue(WordOf(commits, id)) <==> CommittedWhenDue(commits, id)
    ensures LastOf(WordOf(commits, id)) == Some(LastCalled(commits, id))
  {
    if commits == [] {
      assert WordOf(commits, id)[..0] == [];
    } else {
      var init, c := commits[..|commits| - 1], commits[|commits| - 1];
      assert commits == init + [c];
      WordExactly(init, id);
      WordGrows(init, c, id);
      DueGrows(init, c, id);
      WordStep(WordOf(init, id), LastCalled(init, id), c, id);
    }
  }

  lemma WordStep(w: seq<EventType>, last: EventType, c: Commit, id: Uuid)
    requires LastOf(w) == Some(last)
    ensures var next, called := w + (if c.order == id then Kinds(c.edit) else []), c.order == id && CallsForEvent(c.edit);
            (EachDue(next) <==> EachDue(w) && (called ==> Due(Some(last), Kinds(c.edit)[0])))
            && LastOf(next) == Some(if called then Kinds(c.edit)[0] else last)
  {
    if c.order == id && CallsForEvent(c.edit) {
      assert Kinds(c.edit) == [Kinds(c.edit)[0]];
      DueAppend(w, Kinds(c.edit)[0]);
    } else {
      assert w + [] == w;
    }
  }

  /**
   In every interleaving the events an order's commits call for are a word of the language if and only if
   each was due when its edit was committed, after the last one called for.
   */
  lemma CommitsCallForALifeWordExactly(steps: seq<Action>, id: Uuid)
    ensures var commits := After(steps).commits;
            IsLifeWord([OrderCreated] + KindsOf(EditsOf(commits, id))) <==> CommittedWhenDue(commits, id)
  {
    LifeWordExactly(WordOf(After(steps).commits, id));
    WordExactly(After(steps).commits, id);
  }

  /** A commit need not be harmless for that: a cancel and then a stale update to CANCELLED call for one event only. */
  lemma StaleCommitMayKeepTheLanguage(current: Order, snapshot: Order, now: Instant)
    requires current.status == Cancelled && snapshot.status == Pending
    ensures !Harmless(current, snapshot, To(Cancelled, now).edit) && Refusal(snapshot, To(Cancelled, now).edit).None?
    ensures Kinds(To(Cancelled, now).edit) == []
  {
  }

  // ---------------------------------------------------------------- what is attempted

  /** The types of the events attempted of an order, in order. */
  function TypesFor(attempts: seq<Attempt>, id: Uuid): seq<EventType> {
    if attempts == [] then []
    else
      var n := |attempts| - 1;
      TypesFor(attempts[..n], id) + if attempts[n].event.orderId == id then [TypeOf(attempts[n].event)] else []
  }

  /** Each event of the order is announced when it is due, after the last one announced. */
  ghost predicate AnnouncedWhenDue(moves: seq<Move>, id: Uuid) {
    moves != [] ==>
      var init, m := moves[..|moves| - 1], moves[|moves| - 1];
      var u := NoticesAfter(init);
      AnnouncedWhenDue(init, id)
      && (m.Announce? && m.occasion in u.owed && u.owed[m.occasion].orderId == id ==>
            Due(LastOf(TypesFor(u.attempts, id)), TypeOf(u.owed[m.occasion])))
  }

  lemma TypesGrow(attempts: seq<Attempt>, p: Attempt, id: Uuid)
    ensures TypesFor(attempts + [p], id) == TypesFor(attempts, id) + if p.event.orderId == id then [TypeOf(p.event)] else []
  {
    assert (attempts + [p])[..|attempts|] == attempts;
  }

  lemma {:induction false} AttemptsAreDueExactly(moves: seq<Move>, id: Uuid)
    ensures EachDue(TypesFor(NoticesAfter(moves).attempts, id)) <==> AnnouncedWhenDue(moves, id)
  {
    if moves != [] {
      var init, m := moves[..|moves| - 1], moves[|moves| - 1];
      AttemptsAreDueExactly(init, id);
      var u := NoticesAfter(init);
      if m.Announce? && m.occasion in u.owed {
        var e := u.owed[m.occasion];
        TypesGrow(u.attempts, Attempt(m.occasion, e), id);
        DueAppend(TypesFor(u.attempts, id), TypeOf(e));
        assert e.orderId != id ==> TypesFor(NoticesAfter(moves).attempts, id) == TypesFor(u.attempts, id);
      }
    }
  }

  /**
   However requests and announcements interleave, the events attempted of an order, once there is one, are a word
   of the language if and only if each was announced when it was due.
   */
  lemma AttemptsAreALifeWordExactly(moves: seq<Move>, id: Uuid)
    ensures var w := TypesFor(NoticesAfter(moves).attempts, id);
            IsLifeWord(w) <==> w != [] && AnnouncedWhenDue(moves, id)
  {
    AttemptsAreDueExactly(moves, id);
    LifeWordExactly(TypesFor(NoticesAfter(moves).attempts, id));
  }

  // ---------------------------------------------------------------- announcements in turn

  function OccasionsOf(commits: seq<Commit>, id: Uuid): seq<Occasion> {
    if commits == [] then [Birth(id)]
    else
      var n := |commits| - 1;
      OccasionsOf(commits[..n], id) +
      if commits[n].order == id && CallsForEvent(commits[n].edit) then [OfCommit(n)] else []
  }

  function AttemptedOf(attempts: seq<Attempt>, id: Uuid): seq<Occasion> {
    if attempts == [] then []
    else
      var n := |attempts| - 1;
      AttemptedOf(attempts[..n], id) + if attempts[n].event.orderId == id then [attempts[n].occasion] else []
  }

  /** What was announced of the order was announced birth first and then in order of commit, leaving nothing out. */
  predicate InTurn(u: Notices, id: Uuid) {
    AttemptedOf(u.attempts, id) <= OccasionsOf(u.state.commits, id)
  }

  function TypeAt(commits: seq<Commit>, x: Occasion): EventType {
    if x.OfCommit? && x.number < |commits| && CallsForEvent(commits[x.number].edit) then Kinds(commits[x.number].edit)[0]
    else OrderCreated
  }

  lemma {:induction false} TypesOfOccasions(commits: seq<Commit>, all: seq<Commit>, id: Uuid)
    requires commits <= all
    ensures |OccasionsOf(commits, id)| == |WordOf(commits, id)|
    ensures forall i :: 0 <= i < |OccasionsOf(commits, id)| ==> TypeAt(all, OccasionsOf(commits, id)[i]) == WordOf(commits, id)[i]
    ensures forall i :: 0 <= i < |OccasionsOf(commits, id)| ==>
                          var x := OccasionsOf(commits, id)[i];
                          x == Birth(id) || (x.OfCommit? && x.number < |commits| && commits[x.number].order == id
                                             && CallsForEvent(commits[x.number].edit))
    ensures forall i, j :: 0 <= i < j < |OccasionsOf(commits, id)| ==> OccasionsOf(commits, id)[i] != OccasionsOf(commits, id)[j]
  {
    if commits != [] {
      var init, c := commits[..|commits| - 1], commits[|commits| - 1];
      assert commits == init + [c];
      TypesOfOccasions(init, all, id);
      WordGrows(init, c, id);
    }
  }

  ghost predicate TypedBy(commits: seq<Commit>, attempts: seq<Attempt>) {
    forall i :: 0 <= i < |attempts| ==> TypeOf(attempts[i].event) == TypeAt(commits, attempts[i].occasion)
  }

  lemma {:induction false} TypesOfAttempted(commits: seq<Commit>, attempts: seq<Attempt>, id: Uuid)
    requires TypedBy(commits, attempts)
    ensures |AttemptedOf(attempts, id)| == |TypesFor(attempts, id)|
    ensures forall i :: 0 <= i < |TypesFor(attempts, id)| ==> TypesFor(attempts, id)[i] == TypeAt(commits, AttemptedOf(attempts, id)[i])
    ensures forall i :: 0 <= i < |attempts| && attempts[i].event.orderId == id ==> attempts[i].occasion in AttemptedOf(attempts, id)
  {
    if attempts != [] {
      TypesOfAttempted(commits, attempts[..|attempts| - 1], id);
    }
  }

  lemma AttemptsAreTyped(moves: seq<Move>)
    ensures TypedBy(NoticesAfter(moves).state.commits, NoticesAfter(moves).attempts)
  {
    var u := NoticesAfter(moves);
    forall i | 0 <= i < |u.attempts|
      ensures TypeOf(u.attempts[i].event) == TypeAt(u.state.commits, u.attempts[i].occasion)
    {
      AnnouncementsFollowCommits(moves, i);
    }
  }

  /** Announced in turn, the events attempted are those the commits call for, as far as they have come. */
  lemma InTurnTypes(moves: seq<Move>, id: Uuid)
    requires InTurn(NoticesAfter(moves), id)
    ensures var u := NoticesAfter(moves); TypesFor(u.attempts, id) <= WordOf(u.state.commits, id)
  {
    var u := NoticesAfter(moves);
    AttemptsAreTyped(moves);
    TypesOfAttempted(u.state.commits, u.attempts, id);
    TypesOfOccasions(u.state.commits, u.state.commits, id);
  }

  lemma DuePrefix(v: seq<EventType>, w: seq<EventType>)
    requires v <= w && EachDue(w)
    ensures EachDue(v)
  {
    assert forall i :: 0 <= i < |v| ==> v[..i] == w[..i] && v[i] == w[i];
  }

  /** Commits in turn, announced birth first and in order of commit, make the events attempted a word of the language. */
  lemma InTurnIsALifeWord(moves: seq<Move>, id: Uuid)
    requires var u := NoticesAfter(moves);
             InTurn(u, id) && CommittedWhenDue(u.state.commits, id) && TypesFor(u.attempts, id) != []
    ensures IsLifeWord(TypesFor(NoticesAfter(moves).attempts, id))
  {
    var u := NoticesAfter(moves);
    InTurnTypes(moves, id);
    WordExactly(u.state.commits, id);
    DuePrefix(TypesFor(u.attempts, id), WordOf(u.state.commits, id));
    LifeWordExactly(TypesFor(u.attempts, id));
  }

  lemma AllAttempted(moves: seq<Move>, id: Uuid)
    requires var u := NoticesAfter(moves); InTurn(u, id) && u.owed == map[] && id in u.state.orders
    ensures var u := NoticesAfter(moves); AttemptedOf(u.attempts, id) == OccasionsOf(u.state.commits, id)
  {
    var u := NoticesAfter(moves);
    var done, all := AttemptedOf(u.attempts, id), OccasionsOf(u.state.commits, id);
    TypesOfOccasions(u.state.commits, u.state.commits, id);
    forall x | x in all
      ensures x in done
    {
      OccasionAttempted(moves, id, x);
    }
    assert Distinct(done) && Distinct(all);
    DistinctPermutation(done, all);
    assert |done| == |multiset(done)| == |multiset(all)| == |all|;
  }

  lemma OccasionAttempted(moves: seq<Move>, id: Uuid, x: Occasion)
    requires NoticesAfter(moves).owed == map[] && id in NoticesAfter(moves).state.orders
    requires x in OccasionsOf(NoticesAfter(moves).state.commits, id)
    ensures x in AttemptedOf(NoticesAfter(moves).attempts, id)
  {
    var u := NoticesAfter(moves);
    AnnouncedExactlyOnce(moves);
    AttemptsAreTyped(moves);
    TypesOfAttempted(u.state.commits, u.attempts, id);
    TypesOfOccasions(u.state.commits, u.state.commits, id);
    assert WasAttempted(u.attempts, x);
    var i :| 0 <= i < |u.attempts| && u.attempts[i].occasion == x;
    AnnouncementsFollowCommits(moves, i);
  }

  /**
   Once nothing is owed, the events attempted of an order that were announced in turn are a word of the
   language if and only if each was due when its edit was committed.
   */
  lemma InTurnIsALifeWordExactly(moves: seq<Move>, id: Uuid)
    requires var u := NoticesAfter(moves); InTurn(u, id) && u.owed == map[] && id in u.state.orders
    ensures var u := NoticesAfter(moves);
            TypesFor(u.attempts, id) == [OrderCreated] + KindsOf(EditsOf(u.state.commits, id))
            && (IsLifeWord(TypesFor(u.attempts, id)) <==> CommittedWhenDue(u.state.commits, id))
  {
    var u := NoticesAfter(moves);
    AllAttempted(moves, id);
    AttemptsAreTyped(moves);
    TypesOfAttempted(u.state.commits, u.attempts, id);
    TypesOfOccasions(u.state.commits, u.state.commits, id);
    assert TypesFor(u.attempts, id) == WordOf(u.state.commits, id);
    WordExactly(u.state.commits, id);
    LifeWordExactly(WordOf(u.state.commits, id));
  }

  // ---------------------------------------------------------------- announcements out of turn

  lemma NextNotices(moves: seq<Move>, m: Move)
    ensures NoticesAfter(moves + [m]) == Next(NoticesAfter(moves), m)
  {
    assert (moves + [m])[..|moves|] == moves;
  }

  lemma OneReadForEdit(s: State, id: Uuid, e: nat, edit: Edit) returns (t: State)
    requires id in s.orders && e !in s.editors && Refusal(s.orders[id], edit).None?
    ensures t == Do(s, ReadForEdit(e, id, edit, true)) && Creation(s, ReadForEdit(e, id, edit, true)).None?
    ensures t.orders == s.orders && t.commits == s.commits && t.editors == s.editors[e := Editor(s.orders[id], edit)]
  {
    t := Do(s, ReadForEdit(e, id, edit, true));
  }

  lemma FiveMoves(a: Move, b: Move, c: Move, d: Move, e: Move) returns (moves: seq<Move>)
    ensures NoticesAfter(moves) == Next(Next(Next(Next(Next(Notices(EMPTY, map[], []), a), b), c), d), e)
  {
    moves := [] + [a] + [b] + [c] + [d] + [e];
    NextNotices([], a);
    NextNotices([] + [a], b);
    NextNotices([] + [a] + [b], c);
    NextNotices([] + [a] + [b] + [c], d);
    NextNotices([] + [a] + [b] + [c] + [d], e);
  }

  /** The order is created, and the announcement owed. */
  lemma BirthOwed(r: CreateRequest, id: Uuid, itemIds: seq<Uuid>, now: Instant, stored: Order) returns (u: Notices)
    requires Creatable(r, id, itemIds, now, now, stored)
    ensures u == Next(Notices(EMPTY, map[], []), Act(CreateDirectly(r, id, itemIds, now, now, stored, true)))
    ensures u.state.orders == map[id := stored] && u.state.editors == map[] && u.state.commits == [] && u.attempts == []
    ensures u.owed == map[Birth(id) := CreatedEvent(CreatedOrder(r, id, itemIds, now, now))]
  {
    CreatedIsNew(r, id, itemIds, now, now);
    u := Next(Notices(EMPTY, map[], []), Act(CreateDirectly(r, id, itemIds, now, now, stored, true)));
  }

  lemma ReadOwesNothing(u: Notices, id: Uuid, e: nat, edit: Edit) returns (v: Notices)
    requires id in u.state.orders && e !in u.state.editors && Refusal(u.state.orders[id], edit).None?
    ensures v == Next(u, Act(ReadForEdit(e, id, edit, true)))
    ensures v.owed == u.owed && v.attempts == u.attempts && v.state.orders == u.state.orders && v.state.commits == u.state.commits
    ensures v.state.editors == u.state.editors[e := Editor(u.state.orders[id], edit)]
  {
    var t := OneReadForEdit(u.state, id, e, edit);
    v := Next(u, Act(ReadForEdit(e, id, edit, true)));
    assert u.owed + map[] == u.owed;
  }

  /** A payment read and written without interruption is harmless, and owes its announcement. */
  lemma PaymentOwed(u: Notices, o: Order, e: nat, now: Instant) returns (v: Notices)
    requires o.status == Pending && e in u.state.editors && u.state.editors[e] == Editor(o, Paying(now))
    requires o.id in u.state.orders && u.state.orders[o.id] == o && o.totalAmount == Total(o.items)
    ensures v == Next(u, Act(WriteEdit(e, now, true)))
    ensures v.state.orders == u.state.orders[o.id := Edited(o, Paying(now))] && v.attempts == u.attempts
    ensures v.state.commits == u.state.commits + [Commit(o.id, Paying(now), true)]
    ensures v.owed == u.owed[OfCommit(|u.state.commits|) := Announced(Edited(o, Paying(now)), Paying(now))[0]]
  {
    var t := OneWrite(u.state, o, e, Paying(now), now);
    v := Next(u, Act(WriteEdit(e, now, true)));
  }

  /** Both owed events announced, the later commit's first. */
  lemma AnnouncedBackwards(u: Notices, x: Occasion, y: Occasion) returns (v: Notices)
    requires u.owed.Keys == {x, y} && x != y && u.attempts == []
    ensures v == Next(Next(u, Announce(x)), Announce(y))
    ensures v.owed == map[] && v.attempts == [Attempt(x, u.owed[x]), Attempt(y, u.owed[y])] && v.state == u.state
  {
    v := Next(Next(u, Announce(x)), Announce(y));
  }

  /**
   In turn matters: every valid request starts a run of three steps, every commit harmless, after which the payment is
   announced before the creation, so that with nothing owed the events attempted are no word of the language.
   */
  lemma AnnouncedOutOfTurn(r: CreateRequest, id: Uuid, itemIds: seq<Uuid>, now: Instant) returns (moves: seq<Move>)
    requires ValidRequest(r) && |itemIds| == |r.items| && id != 0 && 0 !in itemIds
    ensures var u := NoticesAfter(moves);
            id in u.state.orders && u.owed == map[] && HarmlessCommits(u.state.commits, id)
            && CommittedWhenDue(u.state.commits, id)
            && TypesFor(u.attempts, id) == [OrderPaid, OrderCreated] && !IsLifeWord(TypesFor(u.attempts, id))
  {
    var stored := StoredFormOf(r, id, itemIds, now, now);
    var a, b, c := CreateDirectly(r, id, itemIds, now, now, stored, true), ReadForEdit(0, id, Paying(now), true), WriteEdit(0, now, true);
    moves := FiveMoves(Act(a), Act(b), Act(c), Announce(OfCommit(0)), Announce(Birth(id)));
    var u := BirthOwed(r, id, itemIds, now, stored);
    u := ReadOwesNothing(u, id, 0, Paying(now));
    u := PaymentOwed(u, stored, 0, now);
    var paid := u.owed[OfCommit(0)];
    u := AnnouncedBackwards(u, OfCommit(0), Birth(id));
    BackwardsIsNoWord(u, id, stored, paid, CreatedEvent(CreatedOrder(r, id, itemIds, now, now)), now);
  }

  lemma BackwardsIsNoWord(u: Notices, id: Uuid, o: Order, paid: Event, created: Event, now: Instant)
    requires o.id == id && o.status == Pending && created.OrderCreatedEvent? && created.orderId == id
    requires paid == Announced(Edited(o, Paying(now)), Paying(now))[0]
    requires u.state.commits == [Commit(id, Paying(now), true)]
    requires u.attempts == [Attempt(OfCommit(0), paid), Attempt(Birth(id), created)]
    ensures HarmlessCommits(u.state.commits, id) && CommittedWhenDue(u.state.commits, id)
    ensures TypesFor(u.attempts, id) == [OrderPaid, OrderCreated] && !IsLifeWord(TypesFor(u.attempts, id))
  {
    assert u.state.commits[..0] == [];
    TypesGrow([], u.attempts[0], id);
    TypesGrow([] + [u.attempts[0]], u.attempts[1], id);
    assert [] + [u.attempts[0]] + [u.attempts[1]] == u.attempts;
  }
}
