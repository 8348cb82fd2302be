/** Orders, their items and the transition table (go/internal/order/model.go). */
module Orders {
  import opened Sums
  import opened Money

  datatype Option<+T> = None | Some(value: T)

  datatype Result<+T> = Ok(value: T) | Err(error: Error)

  datatype Error =
    | Invalid
    | NotFound
    | InvalidTransition(from: OrderStatus, to: OrderStatus)
    | CancelNotAllowed(status: OrderStatus)
    | StoreFailure

  /** A 128-bit identifier, ordered as the database orders it; 0 is uuid.Nil. */
  type Uuid = nat

  /** Nanoseconds; 0 is the zero time.Time. */
  type Time = nat

  /** What a clock read returns: never the zero time. */
  type Instant = t: nat | 0 < t witness 1

  datatype OrderStatus = Pending | Paid | Processing | Shipped | Completed | Cancelled {
    predicate CanTransitionTo(next: OrderStatus) {
      match this
      case Pending => next == Paid || next == Cancelled
      case Paid => next == Processing || next == Cancelled
      case Processing => next == Shipped || next == Cancelled
      case Shipped => next == Completed
      case Completed => false
      case Cancelled => false
    }
  }

  datatype ShippingAddress =
    ShippingAddress(street: string, city: string, state: string, postalCode: string, country: string)

  datatype OrderItem = OrderItem(
    id: Uuid, orderId: Uuid, productId: string, productName: string,
    quantity: int, unitPrice: Decimal, subtotal: Decimal)

  /** The value of an order at one moment. */
  datatype Order = Order(
    id: Uuid, customerId: string, status: OrderStatus, items: seq<OrderItem>, totalAmount: Decimal,
    currency: string, shippingAddress: Option<ShippingAddress>,
    trackingNumber: Option<string>, carrier: Option<string>,
    createdAt: Time, updatedAt: Time,
    paidAt: Option<Time>, shippedAt: Option<Time>, completedAt: Option<Time>, cancelledAt: Option<Time>,
    cancellationReason: Option<string>)

  /** stringPtr: the empty string is stored as no string. */
  function StringPtr(value: string): Option<string> {
    if value == "" then None else Some(value)
  }

  function StringValue(value: Option<string>): string {
    if value.Some? then value.value else ""
  }

  function ItemLine(item: OrderItem): Decimal {
    Line(item.unitPrice, item.quantity)
  }

  function ItemExact(item: OrderItem): Decimal {
    item.unitPrice * item.quantity as real
  }

  function Subtotaled(item: OrderItem): OrderItem {
    item.(subtotal := ItemLine(item))
  }

  function SubtotaledAll(items: seq<OrderItem>): seq<OrderItem> {
    seq(|items|, i requires 0 <= i < |items| => Subtotaled(items[i]))
  }

  function Total(items: seq<OrderItem>): Decimal {
    Round2(Sum(ItemLine, items))
  }

  /** The order after RecalculateTotals. */
  function Recalculated(o: Order): Order {
    o.(items := SubtotaledAll(o.items), totalAmount := Total(o.items))
  }

  /** The order after AddItem; newId is what uuid.New() would return. */
  function WithItem(o: Order, item: OrderItem, newId: Uuid): Order {
    var item' := item.(id := if item.id == 0 then newId else item.id, orderId := o.id);
    Recalculated(o.(items := o.items + [item']))
  }

  class OrderEntity {
    var id: Uuid
    var customerId: string
    var status: OrderStatus
    var items: seq<OrderItem>
    var totalAmount: Decimal
    var currency: string
    var shippingAddress: Option<ShippingAddress>
    var trackingNumber: Option<string>
    var carrier: Option<string>
    var createdAt: Time
    var updatedAt: Time
    var paidAt: Option<Time>
    var shippedAt: Option<Time>
    var completedAt: Option<Time>
    var cancelledAt: Option<Time>
    var cancellationReason: Option<string>

    function View(): Order
      reads this
    {
      Order(id, customerId, status, items, totalAmount, currency, shippingAddress, trackingNumber, carrier,
            createdAt, updatedAt, paidAt, shippedAt, completedAt, cancelledAt, cancellationReason)
    }

    constructor NewOrder(newId: Uuid, customerId: string, currency: string, now: Instant)
      ensures View() == Order(newId, customerId, Pending, [], 0.0, if currency == "" then "USD" else currency,
                              None, None, None, now, now, None, None, None, None, None)
    {
      this.id, this.customerId, this.status, this.items, this.totalAmount := newId, customerId, Pending, [], 0.0;
      this.currency := if currency == "" then "USD" else currency;
      this.shippingAddress, this.trackingNumber, this.carrier := None, None, None;
      this.createdAt, this.updatedAt := now, now;
      this.paidAt, this.shippedAt, this.completedAt, this.cancelledAt := None, None, None, None;
      this.cancellationReason := None;
    }

    /** An entity holding a given value: what scanning a row leaves behind. */
    constructor Holding(o: Order)
      ensures View() == o
    {
      id, customerId, status, items, totalAmount := o.id, o.customerId, o.status, o.items, o.totalAmount;
      currency, shippingAddress, trackingNumber, carrier := o.currency, o.shippingAddress, o.trackingNumber, o.carrier;
      createdAt, updatedAt, paidAt, shippedAt := o.createdAt, o.updatedAt, o.paidAt, o.shippedAt;
      completedAt, cancelledAt, cancellationReason := o.completedAt, o.cancelledAt, o.cancellationReason;
    }

    method RecalculateTotals()
      modifies this
      ensures View() == Recalculated(old(View()))
    {
      ghost var before := items;
      var total := 0.0;
      var i := 0;
      while i < |items|
        modifies this`items
        invariant 0 <= i <= |items| == |before|
        invariant forall k :: 0 <= k < i ==> items[k] == Subtotaled(before[k])
        invariant forall k :: i <= k < |items| ==> items[k] == before[k]
        invariant total == Sum(ItemLine, before[..i])
      {
        items := items[i := Subtotaled(items[i])];
        SumAppend(ItemLine, before[..i], before[i]);
        assert before[..i + 1] == before[..i] + [before[i]];
        total := total + items[i].subtotal;
        i := i + 1;
      }
      assert before[..i] == before;
      assert items == SubtotaledAll(before);
      totalAmount := Round2(total);
    }

    method AddItem(item: OrderItem, newId: Uuid)
      modifies this
      ensures View() == WithItem(old(View()), item, newId)
    {
      var added := item;
      if added.id == 0 {
        added := added.(id := newId);
      }
      added := added.(orderId := id);
      added := Subtotaled(added);
      items := items + [added];
      RecalculateTotals();
      assert SubtotaledAll(old(items) + [added]) == SubtotaledAll(old(items) + [added.(subtotal := item.subtotal)]);
      SumAppend(ItemLine, old(items), added);
      SumAppend(ItemLine, old(items), added.(subtotal := item.subtotal));
    }

    method UpdateTimestampsOnPersist(first: Instant, second: Instant)
      modifies this`createdAt, this`updatedAt
      ensures createdAt == (if old(createdAt) == 0 then first else old(createdAt)) && updatedAt == second
    {
      if createdAt == 0 {
        createdAt := first;
      }
      updatedAt := second;
    }
  }

  // ---------------------------------------------------------------- totals

  ghost predicate CentPrices(items: seq<OrderItem>) {
    forall i :: 0 <= i < |items| ==> CentExact(items[i].unitPrice)
  }

  lemma {:induction false} LineSumCentExact(items: seq<OrderItem>)
    ensures CentExact(Sum(ItemLine, items))
  {
    if items != [] {
      var last := items[|items| - 1];
      LineSumCentExact(items[..|items| - 1]);
      RoundFixesExactly(ItemExact(last));
      CentExactSum(Sum(ItemLine, items[..|items| - 1]), ItemLine(last));
    }
  }

  /** The last Round(2) of RecalculateTotals never changes anything. */
  lemma FinalRoundingIsIdentity(items: seq<OrderItem>)
    ensures Total(items) == Sum(ItemLine, items)
    ensures CentExact(Total(items))
  {
    LineSumCentExact(items);
    RoundFixesExactly(Sum(ItemLine, items));
  }

  /** Reordering the items never changes the total. */
  lemma TotalIgnoresOrder(a: seq<OrderItem>, b: seq<OrderItem>)
    requires multiset(a) == multiset(b)
    ensures Total(a) == Total(b)
  {
    SumPermuted(ItemLine, a, b);
  }

  function HalfCent(item: OrderItem): Decimal { 0.005 }

  lemma {:induction false} HalfCents(items: seq<OrderItem>)
    ensures Sum(HalfCent, items) == 0.005 * |items| as real
  {
    if items != [] {
      HalfCents(items[..|items| - 1]);
    }
  }

  lemma LineNearExact(item: OrderItem)
    ensures -0.005 <= ItemLine(item) - ItemExact(item) <= 0.005
  {
    RoundingCharacterised(ItemExact(item), ItemLine(item));
  }

  /** The total is within half a cent per line of the exact total. */
  lemma TotalNearExact(items: seq<OrderItem>)
    ensures -(0.005 * |items| as real) <= Total(items) - Sum(ItemExact, items) <= 0.005 * |items| as real
  {
    FinalRoundingIsIdentity(items);
    forall x | x in items
      ensures -HalfCent(x) <= ItemLine(x) - ItemExact(x) <= HalfCent(x)
    {
      LineNearExact(x);
    }
    SumClose(ItemLine, ItemExact, HalfCent, items);
    HalfCents(items);
  }

  lemma {:induction false} LineSumExactOnCents(items: seq<OrderItem>)
    requires CentPrices(items)
    ensures Sum(ItemLine, items) == Sum(ItemExact, items)
  {
    if items != [] {
      var last := items[|items| - 1];
      LineSumExactOnCents(items[..|items| - 1]);
      ExactLine(last.unitPrice, last.quantity);
    }
  }

  /** On whole-cent prices the total is the exact total. */
  lemma TotalExactOnCents(items: seq<OrderItem>)
    requires CentPrices(items)
    ensures Total(items) == Sum(ItemExact, items)
  {
    LineSumExactOnCents(items);
    FinalRoundingIsIdentity(items);
  }

  lemma SubtotaledAllKeeps(items: seq<OrderItem>)
    ensures SubtotaledAll(SubtotaledAll(items)) == SubtotaledAll(items)
    ensures Total(SubtotaledAll(items)) == Total(items)
  {
    SumMapped(ItemLine, Subtotaled, ItemLine, items, SubtotaledAll(items));
  }

  lemma RecalculatedIsFixpoint(o: Order)
    ensures Recalculated(Recalculated(o)) == Recalculated(o)
  {
    SubtotaledAllKeeps(o.items);
  }

  /** AddItem appends the item as it is given but for a missing id, its order and its subtotal, and keeps the items before it. */
  lemma AddedItem(o: Order, item: OrderItem, newId: Uuid)
    requires newId != 0
    ensures var w := WithItem(o, item, newId);
            var n, last := |o.items|, w.items[|w.items| - 1];
            |w.items| == n + 1 && w == o.(items := w.items, totalAmount := w.totalAmount)
            && last.id != 0 && (item.id != 0 ==> last.id == item.id) && (item.id == 0 ==> last.id == newId) && last.orderId == o.id
            && last.productId == item.productId && last.productName == item.productName && last.quantity == item.quantity
            && last.unitPrice == item.unitPrice && last.subtotal == Line(item.unitPrice, item.quantity)
            && forall k :: 0 <= k < n ==> w.items[k] == o.items[k].(subtotal := w.items[k].subtotal)
  {
  }

  // ---------------------------------------------------------------- lines

  /** Product, name, quantity and unit price. */
  type OrderLine = (string, string, int, Decimal)

  function LineOf(i: OrderItem): OrderLine {
    (i.productId, i.productName, i.quantity, i.unitPrice)
  }

  function LinesOf(items: seq<OrderItem>): seq<OrderLine> {
    seq(|items|, i requires 0 <= i < |items| => LineOf(items[i]))
  }

  // ---------------------------------------------------------------- building an order item by item

  /** The order built by one AddItem per item. */
  function AddAll(o: Order, items: seq<OrderItem>): Order {
    if items == [] then o else WithItem(AddAll(o, items[..|items| - 1]), items[|items| - 1], 0)
  }

  lemma LineSumOverSubtotaled(init: seq<OrderItem>, last: OrderItem)
    ensures Sum(ItemLine, SubtotaledAll(init) + [last]) == Sum(ItemLine, init + [last])
  {
    SumMapped(ItemLine, Subtotaled, ItemLine, init, SubtotaledAll(init));
    SumAppend(ItemLine, SubtotaledAll(init), last);
    SumAppend(ItemLine, init, last);
  }

  lemma WithItemRecalculates(o: Order, init: seq<OrderItem>, last: OrderItem)
    requires last.id != 0 && last.orderId == o.id
    ensures WithItem(Recalculated(o.(items := init)), last, 0) == Recalculated(o.(items := init + [last]))
  {
    LineSumOverSubtotaled(init, last);
    assert SubtotaledAll(SubtotaledAll(init) + [last]) == SubtotaledAll(init + [last]);
  }

  lemma EmptyTotal(o: Order)
    requires o.items == [] && o.totalAmount == 0.0
    ensures Recalculated(o.(items := [])) == o
  {
    CentsOfWhole(0);
  }

  /** Adding items one by one gives what filling the list and recalculating once gives. */
  lemma {:induction false} AddItemAgreesWithRecalculation(o: Order, items: seq<OrderItem>)
    requires o.items == [] && o.totalAmount == 0.0
    requires forall i :: 0 <= i < |items| ==> items[i].id != 0 && items[i].orderId == o.id
    ensures AddAll(o, items) == Recalculated(o.(items := items))
  {
    if items == [] {
      EmptyTotal(o);
    } else {
      var n := |items| - 1;
      AddItemAgreesWithRecalculation(o, items[..n]);
      WithItemRecalculates(o, items[..n], items[n]);
      assert items[..n] + [items[n]] == items;
    }
  }
}
