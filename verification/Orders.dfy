/** Orders, their declared transition table and the row update that writes an event. */
module Orders {
  datatype OrderStatus = Draft | Pending | Processing | Paid | Failed | Cancelled | Expired | Refunded

  datatype OrderEventKind = OrderCreated | OrderUpdated | OrderCancelled | OrderExpired | OrderPaid

  datatype OrderEvent = OrderEvent(kind: OrderEventKind, status: OrderStatus)

  datatype Order = Order(merchant: nat, amount: int, status: OrderStatus, expiresAt: int, events: seq<OrderEvent>)

  const PENDING_TTL := 1800

  function AllowedFrom(status: OrderStatus): set<OrderStatus> {
    match status
    case Draft => {Pending, Cancelled}
    case Pending => {Processing, Paid, Cancelled, Expired}
    case Processing => {Paid, Failed, Cancelled}
    case Paid => {Refunded}
    case Failed => {Pending, Cancelled}
    case Cancelled => {}
    case Expired => {}
    case Refunded => {}
  }

  predicate Validates(current: OrderStatus, target: OrderStatus) {
    current == target || target in AllowedFrom(current)
  }

  function EventKindFor(status: OrderStatus): OrderEventKind {
    match status
    case Cancelled => OrderCancelled
    case Expired => OrderExpired
    case Paid => OrderPaid
    case _ => OrderUpdated
  }

  function NewOrder(merchant: nat, amount: int, expiresAt: int): Order {
    Order(merchant, amount, Pending, expiresAt, [OrderEvent(OrderCreated, Pending)])
  }

  function WithStatus(o: Order, status: OrderStatus): Order {
    o.(status := status, events := o.events + [OrderEvent(EventKindFor(status), status)])
  }

  /** Every recorded status change is one the table allows, and the last event is the current status. */
  ghost predicate FollowsTable(o: Order) {
    && o.events != []
    && o.events[|o.events| - 1].status == o.status
    && forall i :: 0 < i < |o.events| ==> Validates(o.events[i - 1].status, o.events[i].status)
  }

  /** One more status keeps the history on the table exactly when the table allows it. */
  lemma StatusFollowsTable(o: Order, status: OrderStatus)
    requires o.events != [] && o.events[|o.events| - 1].status == o.status
    ensures FollowsTable(WithStatus(o, status)) <==> FollowsTable(o) && Validates(o.status, status)
  {
    var o' := WithStatus(o, status);
    var n := |o.events|;
    assert o'.events[n - 1].status == o.status && o'.events[n].status == status;
    if FollowsTable(o') {
      forall i | 0 < i < n ensures Validates(o.events[i - 1].status, o.events[i].status) {
        assert Validates(o'.events[i - 1].status, o'.events[i].status);
      }
    }
  }
}
