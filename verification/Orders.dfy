/** Orders as the client applications receive them, and the status machine of orders.service.ts. */
module Orders {
  import opened Options

  datatype OrderStatus = Pending | Preparing | Ready | Delivered | Paid | Cancelled
  datatype OrderType = DineIn | Takeaway | Delivery

  datatype Order = Order(id: string, status: OrderStatus, createdAt: int, tableId: Option<string>, tableNumber: Option<int>,
                         orderType: Option<OrderType>, grandTotal: Option<real>, remainingAmount: real,
                         version: int)

  /** The comparison by which every client sorts its orders. */
  const ByTime: (Order, Order) -> bool := (a: Order, b: Order) => a.createdAt <= b.createdAt

  function NotId(id: string): Order -> bool { (o: Order) => o.id != id }

  const TABLE_SERVICE: set<OrderStatus> := {Pending, Preparing, Ready, Delivered}
  const KITCHEN_SERVICE: set<OrderStatus> := {Pending, Preparing, Ready}

  function ActiveIn(active: set<OrderStatus>): Order -> bool { (o: Order) => o.id != "" && o.status in active }

  predicate CanTransition(current: OrderStatus, next: OrderStatus) {
    match current
    case Pending => next == Preparing || next == Cancelled
    case Preparing => next == Ready || next == Cancelled
    case Ready => next == Delivered || next == Cancelled
    case Delivered => next == Paid
    case Paid => false
    case Cancelled => false
  }

  /** How far an order has come. */
  function Stage(status: OrderStatus): int {
    match status
    case Pending => 0
    case Preparing => 1
    case Ready => 2
    case Delivered => 3
    case Paid => 4
    case Cancelled => 5
  }

  /** An order moves one stage at a time up to being paid, or is cancelled before it is delivered; nothing else. */
  lemma TransitionIff(current: OrderStatus, next: OrderStatus)
    ensures CanTransition(current, next) <==>
            if next == Cancelled then Stage(current) <= 2 else Stage(next) == Stage(current) + 1
  {
  }

  /** The statuses that the applications show. */
  lemma ServiceIff(status: OrderStatus)
    ensures status in TABLE_SERVICE <==> Stage(status) <= 3
    ensures status in KITCHEN_SERVICE <==> Stage(status) <= 2
  {
  }
}
