/**
 Stamps lose precision when they are stored: the clock reads nanoseconds and TIMESTAMPTZ keeps microseconds. Rows that
 keep every stamp only at some precision hold what the lifecycle makes of readings at that precision.
 */
module Precision {
  import opened Orders
  import opened Lifecycle

  function StampAt(t: Option<Time>, keep: Time -> Time): Option<Time> {
    if t.Some? then Some(keep(t.value)) else None
  }

  /** The order with every stamp as its column keeps it. */
  function StoredAt(o: Order, keep: Time -> Time): Order {
    o.(createdAt := keep(o.createdAt), updatedAt := keep(o.updatedAt), paidAt := StampAt(o.paidAt, keep),
       shippedAt := StampAt(o.shippedAt, keep), completedAt := StampAt(o.completedAt, keep),
       cancelledAt := StampAt(o.cancelledAt, keep))
  }

  /** Dropping precision twice is dropping it once, and no reading from the moment first on becomes the zero time. */
  ghost predicate IsPrecision(keep: Time -> Time, first: Time) {
    keep(0) == 0 && forall t :: keep(keep(t)) == keep(t) && (first <= t ==> 0 < keep(t))
  }

  ghost predicate Monotone(keep: Time -> Time) {
    forall s, t :: s <= t ==> keep(s) <= keep(t)
  }

  function Microseconds(): Time -> Time {
    (t: Time) => t - t % 1000
  }

  /** What a column of microseconds keeps of nanoseconds, from the first whole microsecond on. */
  lemma MicrosecondsAreAPrecision()
    ensures IsPrecision(Microseconds(), 1000) && Monotone(Microseconds())
  {
    forall t: Time
      ensures Microseconds()(Microseconds()(t)) == Microseconds()(t) && (1000 <= t ==> 0 < Microseconds()(t))
    {
      assert t == 1000 * (t / 1000) + t % 1000;
    }
    forall s: Time, t: Time | s <= t
      ensures Microseconds()(s) <= Microseconds()(t)
    {
      assert s == 1000 * (s / 1000) + s % 1000 && t == 1000 * (t / 1000) + t % 1000;
    }
  }

  predicate ReadFrom(e: Edit, first: Time) {
    first <= e.now && first <= e.persist
  }

  predicate AllReadFrom(calls: seq<Call>, first: Time) {
    forall i :: 0 <= i < |calls| ==> ReadFrom(calls[i].edit, first)
  }

  ghost function EditAt(e: Edit, keep: Time -> Time, first: Time): Edit
    requires IsPrecision(keep, first) && ReadFrom(e, first)
  {
    match e
    case UpdateStatus(req, now, persist, today) => UpdateStatus(req, keep(now), keep(persist), today)
    case Cancel(reason, who, now, persist) => Cancel(reason, who, keep(now), keep(persist))
  }

  ghost function CallAt(c: Call, keep: Time -> Time, first: Time): Call
    requires IsPrecision(keep, first) && ReadFrom(c.edit, first)
  {
    Call(EditAt(c.edit, keep, first), c.writeFails)
  }

  ghost function CallsAt(calls: seq<Call>, keep: Time -> Time, first: Time): seq<Call>
    requires IsPrecision(keep, first) && AllReadFrom(calls, first)
  {
    seq(|calls|, i requires 0 <= i < |calls| => CallAt(calls[i], keep, first))
  }

  /** The row after the calls, each of which reads it, changes it at full precision and stores it. */
  function StoredRun(o: Order, calls: seq<Call>, keep: Time -> Time): Order {
    if calls == [] then o else StoredAt(Step(StoredRun(o, calls[..|calls| - 1], keep), calls[|calls| - 1]), keep)
  }

  /** The types of the events attempted on the way. */
  function StoredTypes(o: Order, calls: seq<Call>, keep: Time -> Time): seq<EventType> {
    if calls == [] then []
    else
      var init := calls[..|calls| - 1];
      StoredTypes(o, init, keep) + Types(Attempts(StoredRun(o, init, keep), calls[|calls| - 1]))
  }

  lemma StoredStep(o: Order, c: Call, keep: Time -> Time, first: Time)
    requires IsPrecision(keep, first) && ReadFrom(c.edit, first) && StoredAt(o, keep) == o && o.createdAt != 0
    ensures StoredAt(Step(o, c), keep) == Step(o, CallAt(c, keep, first))
    ensures Types(Attempts(o, c)) == Types(Attempts(o, CallAt(c, keep, first)))
  {
    if Accepts(o, c) {
      StoredEdit(o, c.edit, keep, first);
    }
  }

  lemma StoredTwice(o: Order, keep: Time -> Time, first: Time)
    requires IsPrecision(keep, first)
    ensures StoredAt(StoredAt(o, keep), keep) == StoredAt(o, keep)
  {
  }

  lemma StoredEdit(o: Order, e: Edit, keep: Time -> Time, first: Time)
    requires IsPrecision(keep, first) && ReadFrom(e, first) && StoredAt(o, keep) == o && o.createdAt != 0
    requires Refusal(o, e).None?
    ensures Refusal(o, EditAt(e, keep, first)).None?
    ensures StoredAt(Edited(o, e), keep) == Edited(o, EditAt(e, keep, first))
    ensures Types(Announced(Edited(o, e), e)) == Types(Announced(Edited(o, EditAt(e, keep, first)), EditAt(e, keep, first)))
  {
    if e.UpdateStatus? {
      StoredUpdate(o, e, keep, first);
    } else {
      StoredCancel(o, e, keep, first);
    }
  }

  lemma StoredUpdate(o: Order, e: Edit, keep: Time -> Time, first: Time)
    requires IsPrecision(keep, first) && ReadFrom(e, first) && StoredAt(o, keep) == o && o.createdAt != 0
    requires e.UpdateStatus? && Refusal(o, e).None?
    ensures StoredAt(Edited(o, e), keep) == Edited(o, EditAt(e, keep, first))
  {
    var w, v := Edited(o, e), Edited(o, EditAt(e, keep, first));
    assert w.paidAt == (if w.status == Paid then Some(e.now) else o.paidAt);
    assert w.shippedAt == (if w.status == Shipped then Some(e.now) else o.shippedAt);
    assert w.completedAt == (if w.status == Completed then Some(e.now) else o.completedAt);
    assert v.paidAt == (if w.status == Paid then Some(keep(e.now)) else o.paidAt);
    assert v.shippedAt == (if w.status == Shipped then Some(keep(e.now)) else o.shippedAt);
    assert v.completedAt == (if w.status == Completed then Some(keep(e.now)) else o.completedAt);
    assert w.trackingNumber == v.trackingNumber && w.carrier == v.carrier;
  }

  lemma StoredCancel(o: Order, e: Edit, keep: Time -> Time, first: Time)
    requires IsPrecision(keep, first) && ReadFrom(e, first) && StoredAt(o, keep) == o && o.createdAt != 0
    requires e.Cancel? && Refusal(o, e).None?
    ensures StoredAt(Edited(o, e), keep) == Edited(o, EditAt(e, keep, first))
  {
  }

  /** The rows of a store of any precision go through a run of the lifecycle, and the same types of events are attempted. */
  lemma {:induction false} StoredRunIsARun(o: Order, calls: seq<Call>, keep: Time -> Time, first: Time)
    requires IsPrecision(keep, first) && AllReadFrom(calls, first) && StoredAt(o, keep) == o && o.createdAt != 0
    ensures StoredRun(o, calls, keep) == Run(o, CallsAt(calls, keep, first))
    ensures StoredTypes(o, calls, keep) == Types(Attempted(o, CallsAt(calls, keep, first)))
    ensures StoredAt(StoredRun(o, calls, keep), keep) == StoredRun(o, calls, keep)
  {
    if calls != [] {
      var init, last := calls[..|calls| - 1], calls[|calls| - 1];
      StoredRunIsARun(o, init, keep, first);
      var lower := CallsAt(init, keep, first);
      assert CallsAt(calls, keep, first)[..|calls| - 1] == lower;
      RunKeepsOrder(o, lower);
      StoredStep(Run(o, lower), last, keep, first);
      StoredTwice(Step(Run(o, lower), last), keep, first);
      TypesConcat(Attempted(o, lower), Attempts(Run(o, lower), CallAt(last, keep, first)));
    }
  }

  /** Readings in order stay in order at a lower precision. */
  lemma {:induction false} TickingAtPrecision(start: Time, calls: seq<Call>, keep: Time -> Time, first: Time)
    requires IsPrecision(keep, first) && AllReadFrom(calls, first) && Monotone(keep) && Ticking(start, calls)
    ensures Ticking(keep(start), CallsAt(calls, keep, first))
    ensures LastReading(keep(start), CallsAt(calls, keep, first)) == keep(LastReading(start, calls))
  {
    if calls != [] {
      var init := calls[..|calls| - 1];
      TickingAtPrecision(start, init, keep, first);
      assert CallsAt(calls, keep, first)[..|calls| - 1] == CallsAt(init, keep, first);
    }
  }

  /** With a clock that never goes back, the stored stamps are in order and present as the status demands. */
  lemma StoredTimesOrdered(o: Order, calls: seq<Call>, start: Time, keep: Time -> Time, first: Time)
    requires IsPrecision(keep, first) && AllReadFrom(calls, first) && Monotone(keep) && StoredAt(o, keep) == o
    requires IsNew(o) && o.createdAt <= o.updatedAt <= start && Ticking(start, calls)
    ensures TimesOrdered(StoredRun(o, calls, keep)) && Shaped(StoredRun(o, calls, keep))
  {
    StoredRunIsARun(o, calls, keep, first);
    TickingAtPrecision(start, calls, keep, first);
    assert keep(o.updatedAt) == o.updatedAt;
    RunOrdersTimes(o, CallsAt(calls, keep, first), keep(start));
    RunIsShaped(o, CallsAt(calls, keep, first));
  }

  /** In particular for columns of microseconds: the rows go through a run, and their stamps are in order. */
  lemma MicrosecondRows(o: Order, calls: seq<Call>, start: Time)
    requires StoredAt(o, Microseconds()) == o && AllReadFrom(calls, 1000)
    requires IsNew(o) && o.createdAt <= o.updatedAt <= start && Ticking(start, calls)
    ensures IsPrecision(Microseconds(), 1000)
    ensures StoredRun(o, calls, Microseconds()) == Run(o, CallsAt(calls, Microseconds(), 1000))
    ensures TimesOrdered(StoredRun(o, calls, Microseconds())) && Shaped(StoredRun(o, calls, Microseconds()))
  {
    MicrosecondsAreAPrecision();
    StoredRunIsARun(o, calls, Microseconds(), 1000);
    StoredTimesOrdered(o, calls, start, Microseconds(), 1000);
  }
}
