/**
 Settling orders at the POS, `collectPayment` in apps/pos-app/src/hooks/use-pos-order-actions.ts,
 against the payment ledger, the order summary and the status machine of the server, and the
 POS's own order list.
 */
module Settlement {
  import opened Options
  import opened Orders
  import opened OrderStores
  import opened Reals
  import opened Sequences
  import P = Payments
  import Text

  /** `orders` holds the rows; what remains to pay is computed from the ledger on every read. */
  datatype Server = Server(ledger: P.Ledger, orders: map<string, Order>)

  /** The server together with the POS's order list. */
  datatype Till = Till(server: Server, list: seq<Order>)

  datatype CheckoutTarget = OneOrder(orderId: string) | OneTable(tableId: string)

  datatype SettleError = PaymentRejected | OrderNotFound | CannotTransition | ConnectionLost

  /** What the network does to one iteration: nothing, or it loses the payment request, the answer to it (or to
      the read that follows), the status request, or the answer to that. */
  datatype Loss = NoLoss | PaymentRequestLost | PaymentAnswerLost | StatusRequestLost | StatusAnswerLost

  predicate Known(s: Server, id: string, restaurant: string) {
    id in s.orders && s.orders[id].id == id && id != "" && P.Owned(s.ledger, id, restaurant)
  }

  function Due(o: Order): real { if o.grandTotal.Some? then o.grandTotal.value else 0.0 }

  /** `remainingAmount` of the order summary: the grand total less what is paid, not below zero. */
  function Remaining(s: Server, id: string): real {
    if id in s.orders then Max(Due(s.orders[id]) - P.PaidAmount(s.ledger.rows, id), 0.0) else 0.0
  }

  /** What the server answers when the order is read. */
  function Snapshot(s: Server, id: string): Order
    requires id in s.orders
  {
    s.orders[id].(remainingAmount := Remaining(s, id))
  }

  const CHECKOUT_REASON: string := "POS checkout settlement"

  /** createPayment, then getPosOrder, then upsert into the list. */
  function PayAndFetch(t: Till, o: Order, restaurant: string): (Till, Result<Order, SettleError>) {
    var (ledger, paid) := P.Create(t.server.ledger, o.id, o.remainingAmount, P.Cash, CHECKOUT_REASON, restaurant);
    if paid.Err? then (t, Err(PaymentRejected))
    else
      var s := t.server.(ledger := ledger);
      if !Known(s, o.id, restaurant) then (t.(server := s), Err(OrderNotFound))
      else (Till(s, FilterUpsert(t.list, Snapshot(s, o.id), TABLE_SERVICE)), Ok(Snapshot(s, o.id)))
  }

  /** updateOrderStatus to PAID, then upsert into the list. */
  function MarkPaid(t: Till, o: Order, restaurant: string): (Till, Result<Order, SettleError>) {
    if !Known(t.server, o.id, restaurant) then (t, Err(OrderNotFound))
    else if !CanTransition(t.server.orders[o.id].status, Paid) then (t, Err(CannotTransition))
    else
      var row := t.server.orders[o.id];
      var s := t.server.(orders := t.server.orders[o.id := row.(status := Paid, version := row.version + 1)]);
      (Till(s, FilterUpsert(t.list, Snapshot(s, o.id), TABLE_SERVICE)), Ok(Snapshot(s, o.id)))
  }

  predicate NeedsPayment(o: Order) { o.status != Cancelled && o.remainingAmount > 0.0 }

  /** One iteration on a network that may fail; what has reached the server is done, what has not come back
      is not in the list. */
  function Iterate(t: Till, target: Order, restaurant: string, loss: Loss): (Till, Result<Order, SettleError>) {
    if NeedsPayment(target) && loss == PaymentRequestLost then (t, Err(ConnectionLost))
    else if NeedsPayment(target) && loss == PaymentAnswerLost then
      (t.(server := PayAndFetch(t, target, restaurant).0.server), Err(ConnectionLost))
    else
      var (t1, r) := if NeedsPayment(target) then PayAndFetch(t, target, restaurant) else (t, Ok(target));
      if r.Err? then (t1, r)
      else if r.value.status != Cancelled && r.value.status != Paid && r.value.remainingAmount <= 0.0 then
        if loss == StatusRequestLost then (t1, Err(ConnectionLost))
        else if loss == StatusAnswerLost then (t1.(server := MarkPaid(t1, r.value, restaurant).0.server), Err(ConnectionLost))
        else MarkPaid(t1, r.value, restaurant)
      else (t1, r)
  }

  function SettleOne(t: Till, target: Order, restaurant: string): (Till, Result<Order, SettleError>) {
    Iterate(t, target, restaurant, NoLoss)
  }

  /** The loop when the network does `losses(i)` to iteration `i`. */
  function SettleWith(t: Till, targets: seq<Order>, restaurant: string, losses: nat -> Loss): (Till, seq<Order>, Option<SettleError>) {
    if targets == [] then (t, [], None)
    else
      var (t1, updated, error) := SettleWith(t, Front(targets), restaurant, losses);
      if error.Some? then (t1, updated, error)
      else
        var (t2, r) := Iterate(t1, Last(targets), restaurant, losses(|targets| - 1));
        if r.Err? then (t2, updated, Some(r.error)) else (t2, updated + [r.value], None)
  }

  /** The loop on a network that loses nothing: an error ends it, with what was done so far in place. */
  function Settle(t: Till, targets: seq<Order>, restaurant: string): (Till, seq<Order>, Option<SettleError>) {
    if targets == [] then (t, [], None)
    else
      var (t1, updated, error) := Settle(t, Front(targets), restaurant);
      if error.Some? then (t1, updated, error)
      else
        var (t2, r) := SettleOne(t1, Last(targets), restaurant);
        if r.Err? then (t2, updated, Some(r.error)) else (t2, updated + [r.value], None)
  }

  function IsTarget(target: CheckoutTarget): Order -> bool {
    (o: Order) =>
      match target
      case OneOrder(id) => o.id == id
      case OneTable(tableId) => o.tableId == Some(tableId) && o.status != Paid && o.status != Cancelled
  }

  function Targets(list: seq<Order>, target: CheckoutTarget): seq<Order> { Filter(list, IsTarget(target)) }

  class PosOrderActions {
    var server: Server
    var list: seq<Order>

    constructor (server: Server, list: seq<Order>)
      ensures State() == Till(server, list)
    {
      this.server, this.list := server, list;
    }

    function State(): Till
      reads this
    {
      Till(server, list)
    }

    method UpsertOrder(o: Order)
      modifies this`list
      ensures list == FilterUpsert(old(list), o, TABLE_SERVICE)
    {
      list := FilterUpsert(list, o, TABLE_SERVICE);
    }

    /** The body of the loop. */
    method SettleOrder(target: Order, restaurant: string, loss: Loss) returns (r: Result<Order, SettleError>)
      modifies this
      ensures (State(), r) == Iterate(old(State()), target, restaurant, loss)
      ensures loss == NoLoss ==> (State(), r) == SettleOne(old(State()), target, restaurant)
    {
      hide Snapshot, FilterUpsert, P.Create;
      var current := target;
      if current.status != Cancelled && current.remainingAmount > 0.0 {
        if loss == PaymentRequestLost {
          return Err(ConnectionLost);
        }
        var (ledger, paid) := P.Create(server.ledger, current.id, current.remainingAmount, P.Cash, CHECKOUT_REASON, restaurant);
        if paid.Ok? {
          server := server.(ledger := ledger);
        }
        if loss == PaymentAnswerLost {
          return Err(ConnectionLost);
        }
        if paid.Err? {
          return Err(PaymentRejected);
        }
        if !Known(server, current.id, restaurant) {
          return Err(OrderNotFound);
        }
        current := Snapshot(server, current.id);
        UpsertOrder(current);
      }
      if current.status != Cancelled && current.status != Paid && current.remainingAmount <= 0.0 {
        if loss == StatusRequestLost {
          return Err(ConnectionLost);
        }
        var changed := Known(server, current.id, restaurant) && CanTransition(server.orders[current.id].status, Paid);
        var known := Known(server, current.id, restaurant);
        if changed {
          var row := server.orders[current.id];
          server := server.(orders := server.orders[current.id := row.(status := Paid, version := row.version + 1)]);
        }
        if loss == StatusAnswerLost {
          return Err(ConnectionLost);
        }
        if !known {
          return Err(OrderNotFound);
        }
        if !changed {
          return Err(CannotTransition);
        }
        current := Snapshot(server, current.id);
        UpsertOrder(current);
      }
      r := Ok(current);
    }

    method CollectPayment(target: CheckoutTarget, restaurant: string, losses: nat -> Loss)
      returns (updated: seq<Order>, error: Option<SettleError>)
      modifies this
      ensures (State(), updated, error) == SettleWith(old(State()), Targets(old(list), target), restaurant, losses)
      ensures (forall i :: losses(i) == NoLoss) ==>
                (State(), updated, error) == Settle(old(State()), Targets(old(list), target), restaurant)
    {
      hide SettleOne, Iterate, Targets;
      var targetOrders := Targets(list, target);
      updated, error := [], None;
      ghost var start := State();
      if forall i :: losses(i) == NoLoss {
        WithoutLosses(start, targetOrders, restaurant, losses);
      }
      for i := 0 to |targetOrders|
        invariant (State(), updated, error) == SettleWith(start, targetOrders[..i], restaurant, losses) && error.None?
      {
        FrontLast(targetOrders[..i], targetOrders[i]);
        assert targetOrders[..i + 1] == targetOrders[..i] + [targetOrders[i]];
        SettlePrefix(start, targetOrders, i + 1, restaurant, losses);
        var r := SettleOrder(targetOrders[i], restaurant, losses(i));
        if r.Err? {
          return updated, Some(r.error);
        }
        updated := updated + [r.value];
      }
      assert targetOrders[..|targetOrders|] == targetOrders;
    }
  }

  lemma {:induction false} WithoutLosses(t: Till, targets: seq<Order>, restaurant: string, losses: nat -> Loss)
    requires forall i :: losses(i) == NoLoss
    ensures SettleWith(t, targets, restaurant, losses) == Settle(t, targets, restaurant)
  {
    if targets != [] {
      WithoutLosses(t, Front(targets), restaurant, losses);
    }
  }

  /** An error in a prefix of the targets is the error of the whole. */
  lemma {:induction false} SettlePrefix(t: Till, targets: seq<Order>, k: nat, restaurant: string, losses: nat -> Loss)
    requires k <= |targets|
    ensures SettleWith(t, targets[..k], restaurant, losses).2.Some? ==>
              SettleWith(t, targets, restaurant, losses) == SettleWith(t, targets[..k], restaurant, losses)
  {
    if k < |targets| {
      assert targets[..k] == Front(targets)[..k];
      SettlePrefix(t, Front(targets), k, restaurant, losses);
    } else {
      assert targets[..k] == targets;
    }
  }

  // ---------- What settling does ----------

  /** What is paid of an order and what remains add up to its total, unless more was paid; then nothing remains. */
  lemma RemainingIs(s: Server, id: string)
    requires id in s.orders && s.orders[id].grandTotal.Some?
    ensures var (total, paid) := (s.orders[id].grandTotal.value, P.PaidAmount(s.ledger.rows, id));
            && (paid <= total ==> Remaining(s, id) + paid == total) && (paid >= total ==> Remaining(s, id) == 0.0)
            && Snapshot(s, id) == s.orders[id].(remainingAmount := Remaining(s, id))
  {
    hide P.PaidAmount;
  }

  /** Every listed order is what the server would answer now, and is listed once. */
  ghost predicate Fresh(t: Till, restaurant: string) {
    && (forall o :: o in t.list ==> Known(t.server, o.id, restaurant) && o == Snapshot(t.server, o.id))
    && (forall o :: multiset(t.list)[o] <= 1)
  }

  /** What checkout charges for an order. */
  const Charge: Order -> real := (o: Order) =>
    if NeedsPayment(o) then o.remainingAmount else 0.0

  const PaymentAmount: P.Payment -> real := (p: P.Payment) => p.amount

  /** The order `id` is as it was. */
  ghost predicate Untouched(s: Server, s': Server, id: string) {
    && P.PaidAmount(s'.ledger.rows, id) == P.PaidAmount(s.ledger.rows, id)
    && (id in s'.orders <==> id in s.orders)
    && (id in s.orders ==> s'.orders[id] == s.orders[id])
  }

  lemma CheckoutReasonGiven()
    ensures !Text.IsBlank(CHECKOUT_REASON)
  {
    assert Text.TrimStart(CHECKOUT_REASON) == CHECKOUT_REASON;
    assert Text.TrimEnd(CHECKOUT_REASON) == CHECKOUT_REASON;
  }

  /** Paying what remains settles the order and charges nothing else: one cash payment of exactly what
      remained is booked, every earlier one kept, and the order's new snapshot goes into the list. */
  lemma PayEffect(t: Till, target: Order, restaurant: string)
    requires Known(t.server, target.id, restaurant) && target == Snapshot(t.server, target.id)
    requires target.remainingAmount > 0.0
    ensures var (t', r) := PayAndFetch(t, target, restaurant);
            && t'.server.orders == t.server.orders && t'.server.ledger.orders == t.server.ledger.orders
            && P.PaidAmount(t'.server.ledger.rows, target.id) == P.PaidAmount(t.server.ledger.rows, target.id) + target.remainingAmount
            && (forall id :: id != target.id ==> Untouched(t.server, t'.server, id))
            && Sum(t'.server.ledger.rows, PaymentAmount) == Sum(t.server.ledger.rows, PaymentAmount) + target.remainingAmount
            && Remaining(t'.server, target.id) == 0.0
            && r == Ok(Snapshot(t'.server, target.id))
            && t'.list == FilterUpsert(t.list, Snapshot(t'.server, target.id), TABLE_SERVICE)
            && |t'.server.ledger.rows| == |t.server.ledger.rows| + 1
            && t'.server.ledger.rows[..|t.server.ledger.rows|] == t.server.ledger.rows
            && var paid := Last(t'.server.ledger.rows);
               && paid.orderId == target.id && paid.amount == paid.remainingAmount == target.remainingAmount
               && paid.paymentMethod == P.Cash && paid.status == P.Paid && paid.refundedAmount == 0.0
  {
    CheckoutReasonGiven();
    hide Text.IsBlank;
    var l := t.server.ledger;
    var (l', made) := P.Create(l, target.id, target.remainingAmount, P.Cash, CHECKOUT_REASON, restaurant);
    SumSnoc(l.rows, made.value, PaymentAmount);
    P.CreateRaises(l, target.id, target.remainingAmount, P.Cash, CHECKOUT_REASON, restaurant, target.id);
    forall id | id != target.id
      ensures Untouched(t.server, PayAndFetch(t, target, restaurant).0.server, id)
    {
      P.CreateRaises(l, target.id, target.remainingAmount, P.Cash, CHECKOUT_REASON, restaurant, id);
    }
  }

  /** Replacing one order's snapshot in a fresh list, after a change of that order only, keeps it fresh. */
  lemma UpsertKeepsFresh(t: Till, s: Server, id: string, restaurant: string)
    requires Fresh(t, restaurant) && Known(s, id, restaurant) && s.ledger.orders == t.server.ledger.orders
    requires forall id' :: id' != id ==> Untouched(t.server, s, id')
    ensures Fresh(Till(s, FilterUpsert(t.list, Snapshot(s, id), TABLE_SERVICE)), restaurant)
  {
    var o := Snapshot(s, id);
    var without := Filter(t.list, NotId(id));
    FilterMembers(t.list, NotId(id));
    SortPermutes(without + [o], ByTime);
    SnocMultiset(without, o);
    var list := FilterUpsert(t.list, o, TABLE_SERVICE);
    forall x
      ensures multiset(list)[x] <= 1
    {
      FilterCounts(t.list, NotId(id), x);
    }
    forall x | x in list
      ensures Known(s, x.id, restaurant) && x == Snapshot(s, x.id)
    {
      if x != o {
        assert x in without;
        assert x.id != id && Untouched(t.server, s, x.id);
      }
    }
  }

  predicate Closable(o: Order) { o.status == Cancelled || o.status == Paid || o.status == Delivered }

  /** Closing an order changes its status and counts up its version, and nothing else. */
  lemma CloseEffect(t: Till, o: Order, restaurant: string)
    requires Fresh(t, restaurant) && Known(t.server, o.id, restaurant)
    ensures var (t', r) := MarkPaid(t, o, restaurant);
            && Fresh(t', restaurant) && t'.server.ledger == t.server.ledger && Known(t'.server, o.id, restaurant)
            && (forall id :: id != o.id ==> Untouched(t.server, t'.server, id))
            && Remaining(t'.server, o.id) == Remaining(t.server, o.id)
            && (r.Ok? <==> t.server.orders[o.id].status == Delivered)
            && (r.Ok? ==> r.value == Snapshot(t'.server, o.id) && r.value.status == Paid
                          && t'.server.orders[o.id].version == t.server.orders[o.id].version + 1)
  {
    hide FilterUpsert, Fresh;
    var t' := MarkPaid(t, o, restaurant).0;
    if t' != t {
      UpsertKeepsFresh(t, t'.server, o.id, restaurant);
    }
  }

  /** One iteration on a fresh snapshot: charges exactly what remains unless cancelled, leaves nothing to
      pay, touches no other order, and succeeds exactly for cancelled, paid and delivered orders. */
  lemma SettleOneEffect(t: Till, target: Order, restaurant: string)
    requires Fresh(t, restaurant) && Known(t.server, target.id, restaurant) && target == Snapshot(t.server, target.id)
    ensures var (t', r) := SettleOne(t, target, restaurant);
            && Fresh(t', restaurant) && t'.server.ledger.orders == t.server.ledger.orders
            && Known(t'.server, target.id, restaurant)
            && (forall id :: id != target.id ==> Untouched(t.server, t'.server, id))
            && P.PaidAmount(t'.server.ledger.rows, target.id) == P.PaidAmount(t.server.ledger.rows, target.id) + Charge(target)
            && Sum(t'.server.ledger.rows, PaymentAmount) == Sum(t.server.ledger.rows, PaymentAmount) + Charge(target)
            && Remaining(t'.server, target.id) == (if target.status == Cancelled then Remaining(t.server, target.id) else 0.0)
            && (r.Ok? <==> Closable(target))
            && (r.Ok? ==> r.value == Snapshot(t'.server, target.id)
                          && r.value.status == if target.status == Cancelled then Cancelled else Paid)
  {
    hide FilterUpsert, Fresh, MarkPaid, PayAndFetch, Sum, P.PaidAmount;
    var t1 := t;
    if target.status != Cancelled && target.remainingAmount > 0.0 {
      PayEffect(t, target, restaurant);
      t1 := PayAndFetch(t, target, restaurant).0;
      UpsertKeepsFresh(t, t1.server, target.id, restaurant);
    }
    CloseEffect(t1, target, restaurant);
    CloseEffect(t1, Snapshot(t1.server, target.id), restaurant);
    var t' := SettleOne(t, target, restaurant).0;
    forall id | id != target.id
      ensures Untouched(t.server, t'.server, id)
    {
      assert Untouched(t.server, t1.server, id) && Untouched(t1.server, t'.server, id);
    }
  }

  /** Whether an iteration on a snapshot asks to close the order: after a payment that is told by what the server
      answers, otherwise by the snapshot. */
  predicate AsksToClose(s: Server, o: Order)
    requires o.id in s.orders
  {
    if NeedsPayment(o) then s.orders[o.id].status != Cancelled && s.orders[o.id].status != Paid && Remaining(s, o.id) <= o.remainingAmount
    else o.status != Cancelled && o.status != Paid
  }

  /** The order has paid `paid` more and its row is at `status`, counted up if that is new; nothing else has changed. */
  ghost predicate Advanced(s: Server, s': Server, id: string, paid: real, status: OrderStatus)
    requires id in s.orders
  {
    && P.PaidAmount(s'.ledger.rows, id) == P.PaidAmount(s.ledger.rows, id) + paid
    && id in s'.orders && s'.orders[id].status == status
    && s'.orders[id].version == s.orders[id].version + (if status == s.orders[id].status then 0 else 1)
    && forall other :: other != id ==> Untouched(s, s', other)
  }

  /** What the server has done when a request or an answer is lost: all up to a lost answer, and nothing from a lost
      request on. A loss of what is not sent changes nothing. */
  lemma LossEffect(t: Till, o: Order, restaurant: string, loss: Loss)
    requires Known(t.server, o.id, restaurant)
    ensures var ((t', r), row) := (Iterate(t, o, restaurant, loss), t.server.orders[o.id]);
            var paid := if NeedsPayment(o) then o.remainingAmount else 0.0;
            match loss
            case NoLoss => true
            case PaymentRequestLost => if NeedsPayment(o) then t' == t && r == Err(ConnectionLost) else (t', r) == SettleOne(t, o, restaurant)
            case PaymentAnswerLost =>
              if NeedsPayment(o) then Advanced(t.server, t'.server, o.id, paid, row.status) && t'.list == t.list && r == Err(ConnectionLost)
              else (t', r) == SettleOne(t, o, restaurant)
            case StatusRequestLost =>
              if AsksToClose(t.server, o) then Advanced(t.server, t'.server, o.id, paid, row.status) && r == Err(ConnectionLost)
              else (t', r) == SettleOne(t, o, restaurant)
            case StatusAnswerLost =>
              if AsksToClose(t.server, o)
              then Advanced(t.server, t'.server, o.id, paid, if row.status == Delivered then Paid else row.status) && r == Err(ConnectionLost)
              else (t', r) == SettleOne(t, o, restaurant)
  {
    hide FilterUpsert, P.PaidAmount, Text.IsBlank;
    if NeedsPayment(o) {
      CheckoutReasonGiven();
      var l := t.server.ledger;
      var l' := P.Create(l, o.id, o.remainingAmount, P.Cash, CHECKOUT_REASON, restaurant).0;
      forall id
        ensures P.PaidAmount(l'.rows, id) == P.PaidAmount(l.rows, id) + (if id == o.id then o.remainingAmount else 0.0)
      {
        P.CreateRaises(l, o.id, o.remainingAmount, P.Cash, CHECKOUT_REASON, restaurant, id);
      }
    }
  }

  /** Nothing happens to an order of another restaurant, whatever the network does: an iteration that has anything
      to ask for ends with an error. */
  lemma ForeignOrder(t: Till, o: Order, restaurant: string, loss: Loss)
    requires o.id in t.server.ledger.orders ==> t.server.ledger.orders[o.id] != restaurant
    ensures var (t', r) := Iterate(t, o, restaurant, loss);
            t' == t && (r.Ok? <==> o.status == Cancelled || (o.status == Paid && o.remainingAmount <= 0.0))
  {
    hide Text.IsBlank;
  }

  ghost predicate FreshTargets(t: Till, targets: seq<Order>, restaurant: string) {
    && (forall o :: o in targets ==> Known(t.server, o.id, restaurant) && o == Snapshot(t.server, o.id))
    && (forall i, j :: 0 <= i < j < |targets| ==> targets[i].id != targets[j].id)
  }

  /** An order is never charged more than what remained: either nothing happened to it, or exactly the
      rest was charged and nothing remains. */
  ghost predicate ChargedAtMostOnce(s: Server, s': Server, id: string) {
    || (P.PaidAmount(s'.ledger.rows, id) == P.PaidAmount(s.ledger.rows, id) && Remaining(s', id) == Remaining(s, id))
    || (P.PaidAmount(s'.ledger.rows, id) == P.PaidAmount(s.ledger.rows, id) + Remaining(s, id) && Remaining(s', id) == 0.0)
  }

  /** The loop touches no order but its targets. */
  lemma {:induction false} SettleFrame(t: Till, targets: seq<Order>, restaurant: string, id: string)
    requires Fresh(t, restaurant) && FreshTargets(t, targets, restaurant)
    requires forall o :: o in targets ==> o.id != id
    ensures var t' := Settle(t, targets, restaurant).0;
            Fresh(t', restaurant) && t'.server.ledger.orders == t.server.ledger.orders && Untouched(t.server, t'.server, id)
    decreases targets, 0
  {
    hide Fresh, SettleOne, Known, Snapshot;
    if targets != [] {
      var front, last := Front(targets), Last(targets);
      assert forall o :: o in front ==> o in targets;
      assert last in targets;
      FrontTargets(t, targets, restaurant);
      SettleFrame(t, front, restaurant, id);
      LastIsFresh(t, targets, restaurant);
      var t1 := Settle(t, front, restaurant).0;
      SettleOneEffect(t1, last, restaurant);
      assert Untouched(t1.server, SettleOne(t1, last, restaurant).0.server, id);
    }
  }

  lemma FrontTargets(t: Till, targets: seq<Order>, restaurant: string)
    requires targets != [] && FreshTargets(t, targets, restaurant)
    ensures FreshTargets(t, Front(targets), restaurant)
    ensures forall o :: o in Front(targets) ==> o in targets && o.id != Last(targets).id
  {
  }

  /** When the loop reaches its last target, that target's snapshot is still what the server would answer. */
  lemma LastIsFresh(t: Till, targets: seq<Order>, restaurant: string)
    requires targets != [] && Fresh(t, restaurant) && FreshTargets(t, targets, restaurant)
    ensures var (t1, last) := (Settle(t, Front(targets), restaurant).0, Last(targets));
            && Fresh(t1, restaurant) && Untouched(t.server, t1.server, last.id)
            && Known(t1.server, last.id, restaurant) && last == Snapshot(t1.server, last.id)
    decreases Front(targets), 1
  {
    assert Last(targets) in targets;
    FrontTargets(t, targets, restaurant);
    SettleFrame(t, Front(targets), restaurant, Last(targets).id);
  }

  lemma SettleKeepsFresh(t: Till, targets: seq<Order>, restaurant: string)
    requires Fresh(t, restaurant) && FreshTargets(t, targets, restaurant)
    ensures Fresh(Settle(t, targets, restaurant).0, restaurant)
  {
    if targets != [] {
      LastIsFresh(t, targets, restaurant);
      SettleOneEffect(Settle(t, Front(targets), restaurant).0, Last(targets), restaurant);
    }
  }

  /** Every target is charged at most once; after a run without error, each that is not cancelled is paid. */
  lemma {:induction false} SettleCharges(t: Till, targets: seq<Order>, restaurant: string, o: Order)
    requires Fresh(t, restaurant) && FreshTargets(t, targets, restaurant) && o in targets
    ensures var (t', updated, error) := Settle(t, targets, restaurant);
            && Known(t'.server, o.id, restaurant) && ChargedAtMostOnce(t.server, t'.server, o.id)
            && (error.None? && o.status != Cancelled ==> Remaining(t'.server, o.id) == 0.0 && t'.server.orders[o.id].status == Paid)
  {
    hide Fresh, SettleOne, ChargedAtMostOnce, Remaining, P.PaidAmount, P.Owned;
    var front, last := Front(targets), Last(targets);
    assert targets == front + [last];
    FrontTargets(t, targets, restaurant);
    LastIsFresh(t, targets, restaurant);
    if o == last {
      LastCharged(t, targets, restaurant);
    } else {
      SettleCharges(t, front, restaurant, o);
      EarlierCharged(t, targets, restaurant, o);
    }
  }

  /** The last target, when the loop gets to it. */
  lemma LastCharged(t: Till, targets: seq<Order>, restaurant: string)
    requires targets != [] && Fresh(t, restaurant) && FreshTargets(t, targets, restaurant)
    ensures var ((t', updated, error), o) := (Settle(t, targets, restaurant), Last(targets));
            && Known(t'.server, o.id, restaurant) && ChargedAtMostOnce(t.server, t'.server, o.id)
            && (error.None? && o.status != Cancelled ==> Remaining(t'.server, o.id) == 0.0 && t'.server.orders[o.id].status == Paid)
  {
    hide Fresh, SettleOne;
    var o := Last(targets);
    var (t1, updated, error) := Settle(t, Front(targets), restaurant);
    LastIsFresh(t, targets, restaurant);
    SettleOneEffect(t1, o, restaurant);
    assert Remaining(t1.server, o.id) == Remaining(t.server, o.id) == o.remainingAmount;
    var (t2, r) := SettleOne(t1, o, restaurant);
    assert r.Ok? ==> r.value == Snapshot(t2.server, o.id);
  }

  /** The other targets, which the last iteration leaves alone. */
  lemma EarlierCharged(t: Till, targets: seq<Order>, restaurant: string, o: Order)
    requires targets != [] && Fresh(t, restaurant) && FreshTargets(t, targets, restaurant) && o in Front(targets)
    ensures var (t1, t') := (Settle(t, Front(targets), restaurant).0, Settle(t, targets, restaurant).0);
            && (Known(t1.server, o.id, restaurant) ==> Known(t'.server, o.id, restaurant))
            && PaidAndRemaining(t1.server, t'.server, o.id)
            && (o.id in t1.server.orders ==> o.id in t'.server.orders && t'.server.orders[o.id].status == t1.server.orders[o.id].status)
            && (ChargedAtMostOnce(t.server, t1.server, o.id) ==> ChargedAtMostOnce(t.server, t'.server, o.id))
            && (Settle(t, targets, restaurant).2.None? ==> Settle(t, Front(targets), restaurant).2.None?)
  {
    hide Fresh, SettleOne, P.PaidAmount;
    FrontTargets(t, targets, restaurant);
    LastIsFresh(t, targets, restaurant);
    var t1 := Settle(t, Front(targets), restaurant).0;
    SettleOneEffect(t1, Last(targets), restaurant);
    assert Untouched(t1.server, SettleOne(t1, Last(targets), restaurant).0.server, o.id);
  }

  predicate PaidAndRemaining(s: Server, s': Server, id: string) {
    P.PaidAmount(s'.ledger.rows, id) == P.PaidAmount(s.ledger.rows, id) && Remaining(s', id) == Remaining(s, id)
  }

  /** The loop ends without an error exactly when every target can be closed, and has then charged the sum
      of what remained. */
  lemma {:induction false} SettleTotal(t: Till, targets: seq<Order>, restaurant: string)
    requires Fresh(t, restaurant) && FreshTargets(t, targets, restaurant)
    ensures var (t', updated, error) := Settle(t, targets, restaurant);
            && (error.None? <==> forall o :: o in targets ==> Closable(o))
            && (error.None? ==> Sum(t'.server.ledger.rows, PaymentAmount) == Sum(t.server.ledger.rows, PaymentAmount) + Sum(targets, Charge))
  {
    hide Fresh, SettleOne, Known, Snapshot;
    if targets != [] {
      var front, last := Front(targets), Last(targets);
      assert targets == front + [last];
      assert forall o :: o in targets <==> o in front || o == last;
      FrontTargets(t, targets, restaurant);
      LastIsFresh(t, targets, restaurant);
      var (t1, updated, error) := Settle(t, front, restaurant);
      SettleOneEffect(t1, last, restaurant);
      SettleTotal(t, front, restaurant);
      if error.Some? {
        var o :| o in front && !Closable(o);
        assert o in targets;
      } else {
        assert Settle(t, targets, restaurant).2.None? <==> SettleOne(t1, last, restaurant).1.Ok?;
      }
    }
  }

  // ---------- Collecting, again and again ----------

  lemma TargetsAreFresh(t: Till, target: CheckoutTarget, k: nat, restaurant: string)
    requires Fresh(t, restaurant) && k <= |Targets(t.list, target)|
    ensures FreshTargets(t, Targets(t.list, target)[..k], restaurant)
  {
    var targets := Targets(t.list, target);
    FilterMembers(t.list, IsTarget(target));
    forall i, j | 0 <= i < j < |targets|
      ensures targets[i].id != targets[j].id
    {
      assert targets[i] in targets && targets[j] in targets;
      if targets[i].id == targets[j].id {
        CountTwo(targets, i, j);
        FilterCounts(t.list, IsTarget(target), targets[i]);
      }
    }
    assert forall o :: o in targets[..k] ==> o in targets;
  }

  /** The paid orders of one list are among those of another. */
  ghost predicate NoNewPaid(list: seq<Order>, before: seq<Order>) {
    forall x :: x in list && x.status == Paid ==> x in before
  }

  lemma UpsertAddsNoPaid(list: seq<Order>, o: Order)
    ensures NoNewPaid(FilterUpsert(list, o, TABLE_SERVICE), list)
  {
    var without := Filter(list, NotId(o.id));
    FilterMembers(list, NotId(o.id));
    SortPermutes(without + [o], ByTime);
    hide StableSort, Filter;
    forall x | x in FilterUpsert(list, o, TABLE_SERVICE) && x.status == Paid
      ensures x in list
    {
      assert x in StableSort(without + [o], ByTime) <==> x in multiset(StableSort(without + [o], ByTime));
      assert x in without + [o] <==> x in multiset(without + [o]);
    }
  }

  lemma SettleOneAddsNoPaid(t: Till, target: Order, restaurant: string)
    ensures NoNewPaid(SettleOne(t, target, restaurant).0.list, t.list)
  {
    hide FilterUpsert, P.Create, Known, Remaining;
    forall list, o
      ensures NoNewPaid(FilterUpsert(list, o, TABLE_SERVICE), list)
    {
      UpsertAddsNoPaid(list, o);
    }
  }

  lemma {:induction false} SettleAddsNoPaid(t: Till, targets: seq<Order>, restaurant: string)
    ensures NoNewPaid(Settle(t, targets, restaurant).0.list, t.list)
  {
    hide SettleOne;
    if targets != [] {
      SettleAddsNoPaid(t, Front(targets), restaurant);
      SettleOneAddsNoPaid(Settle(t, Front(targets), restaurant).0, Last(targets), restaurant);
    }
  }

  /** With a fresh list, checkout charges exactly what remains of the target's orders, and goes through
      exactly when each of them is cancelled, paid or delivered; then each that is not cancelled is
      paid with nothing left, and has left the list unless it was already paid before. */
  lemma CollectSettlesExactly(t: Till, target: CheckoutTarget, restaurant: string)
    requires Fresh(t, restaurant)
    ensures var targets := Targets(t.list, target);
            var (t', updated, error) := Settle(t, targets, restaurant);
            && (error.None? <==> forall o :: o in targets ==> Closable(o))
            && (error.None? ==>
                  && Sum(t'.server.ledger.rows, PaymentAmount) == Sum(t.server.ledger.rows, PaymentAmount) + Sum(targets, Charge)
                  && (forall o :: o in targets && o.status != Cancelled ==>
                        o.id in t'.server.orders && Remaining(t'.server, o.id) == 0.0 && t'.server.orders[o.id].status == Paid)
                  && (forall o :: o in targets && o.status != Cancelled && o.status != Paid ==> IsGone(t'.list, o.id)))
  {
    hide Settle, SettleOne;
    var targets := Targets(t.list, target);
    TargetsAreFresh(t, target, |targets|, restaurant);
    assert targets[..|targets|] == targets;
    SettleTotal(t, targets, restaurant);
    var (t', updated, error) := Settle(t, targets, restaurant);
    forall o | o in targets && error.None? && o.status != Cancelled
      ensures o.id in t'.server.orders && Remaining(t'.server, o.id) == 0.0 && t'.server.orders[o.id].status == Paid
      ensures o.status != Paid ==> IsGone(t'.list, o.id)
    {
      SettleCharges(t, targets, restaurant, o);
      if o.status != Paid {
        FilterMembers(t.list, IsTarget(target));
        PaidIsGone(t, targets, restaurant, o);
      }
    }
  }

  ghost predicate IsGone(list: seq<Order>, id: string) { forall x :: x in list ==> x.id != id }

  lemma PaidIsGone(t: Till, targets: seq<Order>, restaurant: string, o: Order)
    requires Fresh(t, restaurant) && FreshTargets(t, targets, restaurant) && o in t.list && o.status != Paid
    requires var s := Settle(t, targets, restaurant).0.server; o.id in s.orders && s.orders[o.id].status == Paid
    ensures IsGone(Settle(t, targets, restaurant).0.list, o.id)
  {
    hide Settle, P.Owned, Remaining;
    SettleKeepsFresh(t, targets, restaurant);
    SettleAddsNoPaid(t, targets, restaurant);
    var t' := Settle(t, targets, restaurant).0;
    forall x | x in t'.list
      ensures x.id != o.id
    {
      assert x == Snapshot(t'.server, x.id);
      if x in t.list {
        assert x == Snapshot(t.server, x.id);
      }
    }
  }

  /** Checkout as a whole, on a network that loses nothing. */
  function Collect(t: Till, target: CheckoutTarget, restaurant: string): (Till, seq<Order>, Option<SettleError>) {
    Settle(t, Targets(t.list, target), restaurant)
  }

  /** Every target that is cancelled is left as it is. */
  lemma {:induction false} CancelledUntouched(t: Till, targets: seq<Order>, restaurant: string, o: Order)
    requires Fresh(t, restaurant) && FreshTargets(t, targets, restaurant) && o in targets && o.status == Cancelled
    ensures Untouched(t.server, Settle(t, targets, restaurant).0.server, o.id)
  {
    hide Fresh, Known;
    var front, last := Front(targets), Last(targets);
    var t1 := Settle(t, front, restaurant).0;
    assert targets == front + [last];
    FrontTargets(t, targets, restaurant);
    LastIsFresh(t, targets, restaurant);
    if o == last {
      assert SettleOne(t1, o, restaurant).0 == t1;
    } else {
      CancelledUntouched(t, front, restaurant, o);
      SettleOneEffect(t1, last, restaurant);
      hide SettleOne;
      assert Untouched(t1.server, SettleOne(t1, last, restaurant).0.server, o.id);
    }
  }

  /** A listed order that is not a target is left as it is. */
  lemma OthersUntouched(t: Till, target: CheckoutTarget, restaurant: string, o: Order)
    requires Fresh(t, restaurant) && o in t.list && !IsTarget(target)(o)
    ensures Untouched(t.server, Collect(t, target, restaurant).0.server, o.id)
  {
    var targets := Targets(t.list, target);
    TargetsAreFresh(t, target, |targets|, restaurant);
    assert targets[..|targets|] == targets;
    FilterMembers(t.list, IsTarget(target));
    hide Settle;
    forall x | x in targets
      ensures x.id != o.id
    {
      assert x in t.list && x == Snapshot(t.server, x.id) && o == Snapshot(t.server, o.id);
    }
    SettleFrame(t, targets, restaurant, o.id);
  }

  lemma TargetsSettled(t: Till, target: CheckoutTarget, restaurant: string, o: Order)
    requires Fresh(t, restaurant) && o in t.list && IsTarget(target)(o)
    ensures var (t', updated, error) := Collect(t, target, restaurant);
            && (error.None? && o.status != Cancelled ==>
                  o.id in t'.server.orders && Remaining(t'.server, o.id) == 0.0 && t'.server.orders[o.id].status == Paid)
            && (error.None? ==> Closable(o))
            && (o.status == Cancelled ==> Untouched(t.server, t'.server, o.id))
  {
    var targets := Targets(t.list, target);
    TargetsAreFresh(t, target, |targets|, restaurant);
    assert targets[..|targets|] == targets;
    FilterMembers(t.list, IsTarget(target));
    hide Settle, Fresh;
    SettleCharges(t, targets, restaurant, o);
    SettleTotal(t, targets, restaurant);
    if o.status == Cancelled {
      CancelledUntouched(t, targets, restaurant, o);
    }
  }

  lemma CollectEndsIff(t: Till, target: CheckoutTarget, restaurant: string)
    requires Fresh(t, restaurant)
    ensures Collect(t, target, restaurant).2.None? <==> forall o :: o in t.list && IsTarget(target)(o) ==> Closable(o)
  {
    var targets := Targets(t.list, target);
    TargetsAreFresh(t, target, |targets|, restaurant);
    assert targets[..|targets|] == targets;
    FilterMembers(t.list, IsTarget(target));
    hide Settle, Fresh;
    SettleTotal(t, targets, restaurant);
  }

  /** Collecting a table: with a fresh list it goes through exactly if every listed order of the table that is
      neither paid nor cancelled is delivered; these are then paid with nothing remaining, and whether it goes
      through or not every other listed order keeps its row and what is paid of it. */
  lemma CollectTable(t: Till, tableId: string, restaurant: string)
    requires Fresh(t, restaurant)
    ensures var (t', updated, error) := Collect(t, OneTable(tableId), restaurant);
            && (error.None? <==> forall o :: o in t.list && o.tableId == Some(tableId) ==>
                                   o.status == Delivered || o.status == Paid || o.status == Cancelled)
            && forall o :: o in t.list ==>
                 if o.tableId == Some(tableId) && o.status != Paid && o.status != Cancelled
                 then error.None? ==> o.id in t'.server.orders && Remaining(t'.server, o.id) == 0.0 && t'.server.orders[o.id].status == Paid
                 else Untouched(t.server, t'.server, o.id)
  {
    hide Collect, Fresh, Remaining, P.PaidAmount;
    CollectEndsIff(t, OneTable(tableId), restaurant);
    var (t', updated, error) := Collect(t, OneTable(tableId), restaurant);
    forall o | o in t.list
      ensures if o.tableId == Some(tableId) && o.status != Paid && o.status != Cancelled
              then error.None? ==> o.id in t'.server.orders && Remaining(t'.server, o.id) == 0.0 && t'.server.orders[o.id].status == Paid
              else Untouched(t.server, t'.server, o.id)
    {
      if IsTarget(OneTable(tableId))(o) {
        TargetsSettled(t, OneTable(tableId), restaurant, o);
      } else {
        OthersUntouched(t, OneTable(tableId), restaurant, o);
      }
    }
  }

  /** Collecting one order: with a fresh list it goes through exactly if the listed order with the id is delivered,
      paid or cancelled, or there is none; it is then paid with nothing remaining unless cancelled, and every
      other listed order, and a cancelled one, keeps its row and what is paid of it. */
  lemma CollectOrder(t: Till, id: string, restaurant: string)
    requires Fresh(t, restaurant)
    ensures var (t', updated, error) := Collect(t, OneOrder(id), restaurant);
            && (error.None? <==> forall o :: o in t.list && o.id == id ==>
                                   o.status == Delivered || o.status == Paid || o.status == Cancelled)
            && forall o :: o in t.list ==>
                 if o.id == id && o.status != Cancelled
                 then error.None? ==> o.id in t'.server.orders && Remaining(t'.server, o.id) == 0.0 && t'.server.orders[o.id].status == Paid
                 else Untouched(t.server, t'.server, o.id)
  {
    hide Collect, Fresh, Remaining, P.PaidAmount;
    CollectEndsIff(t, OneOrder(id), restaurant);
    var (t', updated, error) := Collect(t, OneOrder(id), restaurant);
    forall o | o in t.list
      ensures if o.id == id && o.status != Cancelled
              then error.None? ==> o.id in t'.server.orders && Remaining(t'.server, o.id) == 0.0 && t'.server.orders[o.id].status == Paid
              else Untouched(t.server, t'.server, o.id)
    {
      if o.id == id {
        TargetsSettled(t, OneOrder(id), restaurant, o);
      } else {
        OthersUntouched(t, OneOrder(id), restaurant, o);
      }
    }
  }

  /** One press of the button, possibly interrupted after `stop` orders. */
  datatype Attempt = Attempt(target: CheckoutTarget, stop: nat)

  function Try(t: Till, a: Attempt, restaurant: string): Till {
    var targets := Targets(t.list, a.target);
    Settle(t, if a.stop < |targets| then targets[..a.stop] else targets, restaurant).0
  }

  function TryAll(t: Till, attempts: seq<Attempt>, restaurant: string): Till {
    if attempts == [] then t else Try(TryAll(t, Front(attempts), restaurant), Last(attempts), restaurant)
  }

  lemma TryEffect(t: Till, a: Attempt, restaurant: string, id: string)
    requires Fresh(t, restaurant) && Known(t.server, id, restaurant)
    ensures Fresh(Try(t, a, restaurant), restaurant) && Known(Try(t, a, restaurant).server, id, restaurant)
    ensures ChargedAtMostOnce(t.server, Try(t, a, restaurant).server, id)
  {
    var targets := Targets(t.list, a.target);
    var k := if a.stop < |targets| then a.stop else |targets|;
    TargetsAreFresh(t, a.target, k, restaurant);
    assert targets[..|targets|] == targets;
    if o :| o in targets[..k] && o.id == id {
      SettleCharges(t, targets[..k], restaurant, o);
      SettleKeepsFresh(t, targets[..k], restaurant);
    } else {
      SettleFrame(t, targets[..k], restaurant, id);
    }
  }

  /** As long as every answer arrives and nobody else acts: however often checkout is tried, for whatever targets,
      whether it stops between orders or a change of status is refused, no order is ever charged more than what
      remained of it at the start. Module Checkout drops both provisos. */
  lemma {:induction false} NeverPaysTwice(t: Till, attempts: seq<Attempt>, restaurant: string, id: string)
    requires Fresh(t, restaurant) && Known(t.server, id, restaurant)
    ensures Fresh(TryAll(t, attempts, restaurant), restaurant) && Known(TryAll(t, attempts, restaurant).server, id, restaurant)
    ensures ChargedAtMostOnce(t.server, TryAll(t, attempts, restaurant).server, id)
  {
    if attempts != [] {
      NeverPaysTwice(t, Front(attempts), restaurant, id);
      TryEffect(TryAll(t, Front(attempts), restaurant), Last(attempts), restaurant, id);
    }
  }

  /** Freshness is what this rests on: charging a snapshot's figure overpays the order exactly when the
      snapshot shows more than what remains on the server. */
  lemma OverpaysIff(t: Till, target: Order, restaurant: string)
    requires Known(t.server, target.id, restaurant) && target.remainingAmount > 0.0
    requires P.PaidAmount(t.server.ledger.rows, target.id) <= Due(t.server.orders[target.id])
    ensures var after := PayAndFetch(t, target, restaurant).0.server;
            P.PaidAmount(after.ledger.rows, target.id) > Due(after.orders[target.id]) <==>
              target.remainingAmount > Remaining(t.server, target.id)
  {
    CheckoutReasonGiven();
    hide Text.IsBlank;
    P.CreateRaises(t.server.ledger, target.id, target.remainingAmount, P.Cash, CHECKOUT_REASON, restaurant, target.id);
  }
}
