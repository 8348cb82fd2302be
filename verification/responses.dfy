/** What a client is shown of an order (toOrderResponse of go/internal/order/handler.go). */
module Responses {
  import opened Sums
  import opened Money
  import opened Orders
  import opened Queries
  import opened DbTables

  datatype ItemResponse =
    ItemResponse(id: Uuid, productId: string, productName: string, quantity: int, unitPrice: Decimal, subtotal: Decimal)

  datatype OrderResponse = OrderResponse(
    id: Uuid, customerId: string, status: OrderStatus, items: seq<ItemResponse>, totalAmount: Decimal, currency: string,
    shippingAddress: Option<ShippingAddress>, trackingNumber: Option<string>, carrier: Option<string>,
    createdAt: Time, updatedAt: Time, paidAt: Option<Time>, shippedAt: Option<Time>, completedAt: Option<Time>,
    cancelledAt: Option<Time>, cancellationReason: Option<string>)

  function ItemShown(i: OrderItem): ItemResponse {
    ItemResponse(i.id, i.productId, i.productName, i.quantity, Round2(i.unitPrice), Round2(i.subtotal))
  }

  function ItemsShown(items: seq<OrderItem>): seq<ItemResponse> {
    seq(|items|, i requires 0 <= i < |items| => ItemShown(items[i]))
  }

  function Shown(o: Order): OrderResponse {
    OrderResponse(o.id, o.customerId, o.status, ItemsShown(o.items), Round2(o.totalAmount), o.currency, o.shippingAddress,
                  o.trackingNumber, o.carrier, o.createdAt, o.updatedAt, o.paidAt, o.shippedAt, o.completedAt,
                  o.cancelledAt, o.cancellationReason)
  }

  method ToOrderResponse(o: OrderEntity) returns (response: OrderResponse)
    ensures response == Shown(o.View())
  {
    response := OrderResponse(o.id, o.customerId, o.status, [], Round2(o.totalAmount), o.currency, None,
                              o.trackingNumber, o.carrier, o.createdAt, o.updatedAt, o.paidAt, o.shippedAt, o.completedAt,
                              o.cancelledAt, o.cancellationReason);
    if o.shippingAddress.Some? {
      var a := o.shippingAddress.value;
      response := response.(shippingAddress := Some(ShippingAddress(a.street, a.city, a.state, a.postalCode, a.country)));
    }
    var items: seq<ItemResponse> := [];
    for i := 0 to |o.items|
      invariant |items| == i && items == ItemsShown(o.items)[..i]
    {
      var item := o.items[i];
      items := items + [ItemResponse(item.id, item.productId, item.productName, item.quantity,
                                     Round2(item.unitPrice), Round2(item.subtotal))];
    }
    response := response.(items := items);
  }

  function SubtotalShown(i: ItemResponse): Decimal { i.subtotal }

  /** The total shown is the sum of the subtotals shown, for any order whose totals were recalculated last. */
  lemma ShownTotalAddsUp(o: Order)
    requires Recalculated(o) == o
    ensures Shown(o).totalAmount == Sum(SubtotalShown, Shown(o).items) == o.totalAmount
  {
    FinalRoundingIsIdentity(o.items);
    RoundFixesExactly(o.totalAmount);
    forall i | i in o.items
      ensures ItemLine(i) == SubtotalShown(ItemShown(i))
    {
      assert i.subtotal == ItemLine(i) by {
        var k :| 0 <= k < |o.items| && o.items[k] == i;
        assert SubtotaledAll(o.items)[k] == Subtotaled(i);
      }
      RoundFixesExactly(i.unitPrice * i.quantity as real);
      RoundFixesExactly(i.subtotal);
    }
    SumMapped(SubtotalShown, ItemShown, ItemLine, o.items, Shown(o).items);
  }

  lemma LineMultipliesOut(i: OrderItem)
    requires CentExact(i.unitPrice) && i.subtotal == ItemLine(i)
    ensures ItemShown(i).subtotal == ItemShown(i).unitPrice * i.quantity as real
  {
    RoundFixesExactly(i.unitPrice);
    ExactLine(i.unitPrice, i.quantity);
    RoundFixesExactly(i.unitPrice * i.quantity as real);
  }

  lemma ItemsReadAreExact(db: Tables, id: Uuid)
    requires forall k :: k in db.items ==> CentExact(db.items[k].unitPrice)
    ensures forall i :: i in ReadItems(db, id) ==> CentExact(i.unitPrice) && i.subtotal == ItemLine(i)
  {
  }

  /** Over stored prices, which are whole cents, what is read back shows lines that multiply out and a total that adds up. */
  lemma ReadOrderShowsItsSums(db: Tables, id: Uuid)
    requires id in db.orders && forall k :: k in db.items ==> CentExact(db.items[k].unitPrice)
    ensures var o := Read(db, id).value;
            Shown(o).totalAmount == Sum(SubtotalShown, Shown(o).items)
            && forall i :: i in o.items ==> ItemShown(i).subtotal == ItemShown(i).unitPrice * i.quantity as real
  {
    ReadIsNormal(db, id);
    ShownTotalAddsUp(Read(db, id).value);
    ItemsReadAreExact(db, id);
    forall i | i in ReadItems(db, id)
      ensures ItemShown(i).subtotal == ItemShown(i).unitPrice * i.quantity as real
    {
      LineMultipliesOut(i);
    }
  }
}
