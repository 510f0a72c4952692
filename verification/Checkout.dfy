/**
 Checkout over time: the loop of `collectPayment` one iteration at a time, on a network that loses requests
 and answers, while payments are taken, changed, cancelled and refunded elsewhere, totals and statuses change,
 and snapshots arrive late or twice.
 */
module Checkout {
  import opened Options
  import opened Orders
  import opened OrderStores
  import opened Reals
  import opened Sequences
  import opened Settlement
  import P = Payments
  import Text

  /** A snapshot of an order, and by how much the order's balance has changed since it was taken. */
  datatype Snap = Snap(order: Order, drift: real)

  /** `queue` are the target snapshots that the running loop has still to settle, `wire` those that the server
      has sent out; `drifts` says of the listed snapshots how much their orders' balances have changed. */
  datatype World = World(till: Till, queue: seq<Snap>, wire: seq<Snap>, drifts: map<string, real>)

  datatype Event =
    | Press(target: CheckoutTarget)
    | Next(loss: Loss)
    | LedgerCall(call: P.Call)
    | TotalChanged(id: string, total: Option<real>)
    | StatusChanged(id: string, status: OrderStatus)
    | SnapshotSent(id: string)
    | SnapshotArrived(index: nat)

  /** What is still to be paid of an order; negative when it is overpaid. */
  function Balance(s: Server, id: string): real {
    if id in s.orders then Due(s.orders[id]) - P.PaidAmount(s.ledger.rows, id) else 0.0
  }

  predicate Overpaid(s: Server, id: string) { Balance(s, id) < 0.0 }

  function Moved(snaps: seq<Snap>, id: string, d: real): seq<Snap> {
    seq(|snaps|, i requires 0 <= i < |snaps| => if snaps[i].order.id == id then snaps[i].(drift := snaps[i].drift + d) else snaps[i])
  }

  function DriftOf(drifts: map<string, real>, id: string): real { if id in drifts then drifts[id] else 0.0 }

  function MovedListed(drifts: map<string, real>, id: string, d: real): map<string, real> { drifts[id := DriftOf(drifts, id) + d] }

  function Captured(orders: seq<Order>, drifts: map<string, real>): seq<Snap> {
    seq(|orders|, i requires 0 <= i < |orders| => Snap(orders[i], DriftOf(drifts, orders[i].id)))
  }

  /** Whether the iteration gets a payment recorded, and whether it gets the order back afterwards. */
  predicate Records(o: Order, loss: Loss) { NeedsPayment(o) && loss != PaymentRequestLost }

  predicate Refreshes(o: Order, loss: Loss) { Records(o, loss) && loss != PaymentAnswerLost }

  /** By how much the balance of order `id` changes in a call of the ledger or a change of a total. */
  function Change(s: Server, e: Event, id: string): real {
    match e
    case LedgerCall(call) => -P.PaidChange(s.ledger, call, id)
    case TotalChanged(changed, total) =>
      if changed == id && id in s.orders then Due(s.orders[id].(grandTotal := total)) - Due(s.orders[id]) else 0.0
    case _ => 0.0
  }

  /** The order that such an event is about. */
  function Subject(s: Server, e: Event): Option<string> {
    match e
    case LedgerCall(call) => P.ChargedOrder(s.ledger, call)
    case TotalChanged(id, _) => Some(id)
    case _ => None
  }

  function ServerAfter(s: Server, e: Event): Server {
    match e
    case LedgerCall(call) => s.(ledger := P.Step(s.ledger, call))
    case TotalChanged(id, total) =>
      if id in s.orders then s.(orders := s.orders[id := s.orders[id].(grandTotal := total, version := s.orders[id].version + 1)]) else s
    case StatusChanged(id, status) =>
      if id in s.orders && CanTransition(s.orders[id].status, status)
      then s.(orders := s.orders[id := s.orders[id].(status := status, version := s.orders[id].version + 1)]) else s
    case _ => s
  }

  function Step(w: World, e: Event, restaurant: string): World {
    var s := w.till.server;
    match e
    case Press(target) =>
      if w.queue == [] then w.(queue := Captured(Targets(w.till.list, target), w.drifts)) else w
    case Next(loss) =>
      if w.queue == [] then w else IterateNext(w, loss, restaurant)
    case SnapshotSent(id) =>
      if Known(s, id, restaurant) then w.(wire := w.wire + [Snap(Snapshot(s, id), 0.0)]) else w
    case SnapshotArrived(i) =>
      if i < |w.wire| then
        w.(till := w.till.(list := FilterUpsert(w.till.list, w.wire[i].order, TABLE_SERVICE)),
           drifts := w.drifts[w.wire[i].order.id := w.wire[i].drift])
      else w
    case _ => Elsewhere(w, e)
  }

  /** A change at the server that this till does not see. */
  function Elsewhere(w: World, e: Event): World {
    var s := w.till.server;
    var till := w.till.(server := ServerAfter(s, e));
    match Subject(s, e)
    case None => w.(till := till)
    case Some(id) =>
      var d := Change(s, e, id);
      World(till, Moved(w.queue, id, d), Moved(w.wire, id, d), MovedListed(w.drifts, id, d))
  }

  /** The loop's next iteration: an error ends the loop. */
  function IterateNext(w: World, loss: Loss, restaurant: string): World
    requires w.queue != []
  {
    var o := w.queue[0].order;
    var (till, r) := Iterate(w.till, o, restaurant, loss);
    var rest := if r.Err? then [] else w.queue[1..];
    if Records(o, loss) then
      World(till, Moved(rest, o.id, -o.remainingAmount), Moved(w.wire, o.id, -o.remainingAmount),
            if Refreshes(o, loss) then w.drifts[o.id := 0.0] else MovedListed(w.drifts, o.id, -o.remainingAmount))
    else w.(till := till, queue := rest)
  }

  function Run(w: World, events: seq<Event>, restaurant: string): World {
    if events == [] then w else Step(Run(w, Front(events), restaurant), Last(events), restaurant)
  }

  // ---------- What a snapshot tells ----------

  /** A snapshot shows what remained when it was taken: the balance of then, not below zero. */
  predicate Honest(s: Server, snap: Snap, restaurant: string) {
    var o := snap.order;
    Known(s, o.id, restaurant) && o.remainingAmount == Max(Balance(s, o.id) - snap.drift, 0.0)
  }

  ghost predicate AllHonest(s: Server, snaps: seq<Snap>, restaurant: string) {
    forall i :: 0 <= i < |snaps| ==> Honest(s, snaps[i], restaurant)
  }

  ghost predicate ListHonest(w: World, restaurant: string) {
    forall o :: o in w.till.list ==> Honest(w.till.server, Snap(o, DriftOf(w.drifts, o.id)), restaurant)
  }

  ghost predicate Tracked(w: World, restaurant: string) {
    && ListHonest(w, restaurant)
    && AllHonest(w.till.server, w.queue, restaurant) && AllHonest(w.till.server, w.wire, restaurant)
  }

  /** From `s` to `s'` the balance of order `id` changed by `d`, and no other. */
  ghost predicate Shifts(s: Server, s': Server, id: string, d: real, restaurant: string) {
    forall j :: Known(s, j, restaurant) ==>
      Known(s', j, restaurant) && Balance(s', j) == Balance(s, j) + (if j == id then d else 0.0)
  }

  lemma StillHonest(s: Server, s': Server, id: string, d: real, snap: Snap, restaurant: string)
    requires Honest(s, snap, restaurant) && Shifts(s, s', id, d, restaurant)
    ensures Honest(s', if snap.order.id == id then snap.(drift := snap.drift + d) else snap, restaurant)
  {
    hide Balance, P.Owned;
  }

  lemma AllStillHonest(s: Server, s': Server, id: string, d: real, snaps: seq<Snap>, restaurant: string)
    requires AllHonest(s, snaps, restaurant) && Shifts(s, s', id, d, restaurant)
    ensures AllHonest(s', Moved(snaps, id, d), restaurant)
    ensures d == 0.0 ==> AllHonest(s', snaps, restaurant)
  {
    hide Honest, Shifts;
    forall i | 0 <= i < |snaps|
      ensures Honest(s', if snaps[i].order.id == id then snaps[i].(drift := snaps[i].drift + d) else snaps[i], restaurant)
    {
      StillHonest(s, s', id, d, snaps[i], restaurant);
    }
    if d == 0.0 {
      assert forall i :: 0 <= i < |snaps| ==> snaps[i].(drift := snaps[i].drift + d) == snaps[i];
    }
  }

  // ---------- One iteration ----------

  function Recorded(o: Order, loss: Loss): real { if Records(o, loss) then o.remainingAmount else 0.0 }

  lemma CreateShifts(s: Server, id: string, amount: real, paymentMethod: P.Method, restaurant: string)
    requires Known(s, id, restaurant) && amount >= 0.0
    ensures var (ledger, r) := P.Create(s.ledger, id, amount, paymentMethod, CHECKOUT_REASON, restaurant);
            && r.Ok? && ledger.orders == s.ledger.orders
            && P.PaidAmount(ledger.rows, id) == P.PaidAmount(s.ledger.rows, id) + amount
            && Shifts(s, s.(ledger := ledger), id, -amount, restaurant)
  {
    CheckoutReasonGiven();
    hide Text.IsBlank, P.PaidAmount, P.RefundedAmount;
    var s' := s.(ledger := P.Create(s.ledger, id, amount, paymentMethod, CHECKOUT_REASON, restaurant).0);
    P.CreateRaises(s.ledger, id, amount, paymentMethod, CHECKOUT_REASON, restaurant, id);
    forall j | Known(s, j, restaurant)
      ensures P.PaidAmount(s'.ledger.rows, j) == P.PaidAmount(s.ledger.rows, j) + (if j == id then amount else 0.0)
    {
      P.CreateRaises(s.ledger, id, amount, paymentMethod, CHECKOUT_REASON, restaurant, j);
    }
  }

  lemma UpsertedMembers(list: seq<Order>, o: Order)
    ensures forall x :: x in FilterUpsert(list, o, TABLE_SERVICE) ==> (x in list && (o.id != "" ==> x.id != o.id)) || x == o
    ensures o.status == Paid ==> forall x :: x in FilterUpsert(list, o, TABLE_SERVICE) ==> x in list
  {
    var without := Filter(list, NotId(o.id));
    FilterMembers(list, NotId(o.id));
    SortPermutes(without + [o], ByTime);
    hide Filter, StableSort;
    forall x
      ensures x in StableSort(without + [o], ByTime) <==> x in without || x == o
    {
      SameMembers(StableSort(without + [o], ByTime), without + [o], x);
    }
  }

  lemma SameMembers(xs: seq<Order>, ys: seq<Order>, x: Order)
    requires multiset(xs) == multiset(ys)
    ensures x in xs <==> x in ys
  {
    assert x in xs <==> x in multiset(xs);
    assert x in ys <==> x in multiset(ys);
  }

  /** What is listed was listed before, or is a snapshot of order `id` with the figure of now. */
  ghost predicate ListedFrom(before: seq<Order>, t: Till, id: string, refreshed: bool) {
    forall o :: o in t.list ==>
      (o in before && (refreshed ==> o.id != id)) || (refreshed && o.id == id && o.remainingAmount == Remaining(t.server, id))
  }

  lemma PayStep(t: Till, o: Order, restaurant: string)
    requires Known(t.server, o.id, restaurant) && o.remainingAmount > 0.0
    ensures var (t', r) := PayAndFetch(t, o, restaurant);
            && r == Ok(Snapshot(t'.server, o.id)) && t'.server.orders == t.server.orders
            && P.PaidAmount(t'.server.ledger.rows, o.id) == P.PaidAmount(t.server.ledger.rows, o.id) + o.remainingAmount
            && Shifts(t.server, t'.server, o.id, -o.remainingAmount, restaurant)
            && ListedFrom(t.list, t', o.id, true)
  {
    CreateShifts(t.server, o.id, o.remainingAmount, P.Cash, restaurant);
    hide P.PaidAmount, P.Create, FilterUpsert;
    var t' := PayAndFetch(t, o, restaurant).0;
    UpsertedMembers(t.list, Snapshot(t'.server, o.id));
  }

  lemma MarkStep(t: Till, o: Order, restaurant: string)
    requires Known(t.server, o.id, restaurant)
    ensures var (t', r) := MarkPaid(t, o, restaurant);
            && Shifts(t.server, t'.server, o.id, 0.0, restaurant)
            && (forall j :: Remaining(t'.server, j) == Remaining(t.server, j)) && t'.server.ledger == t.server.ledger
            && (forall x :: x in t'.list ==> x in t.list)
            && (r.Ok? <==> t.server.orders[o.id].status == Delivered)
            && (r.Ok? ==> t'.server.orders[o.id].status == Paid) && (r.Err? ==> t' == t)
  {
    hide P.PaidAmount, FilterUpsert;
    var t' := MarkPaid(t, o, restaurant).0;
    if t' != t {
      UpsertedMembers(t.list, Snapshot(t'.server, o.id));
    }
  }

  lemma ShiftsThen(s: Server, s1: Server, s2: Server, id: string, d: real, restaurant: string)
    requires Shifts(s, s1, id, d, restaurant) && Shifts(s1, s2, id, 0.0, restaurant)
    ensures Shifts(s, s2, id, d, restaurant)
  {
    hide Balance, Known;
  }

  lemma NothingShifts(s: Server, id: string, restaurant: string)
    ensures Shifts(s, s, id, 0.0, restaurant)
  {
  }

  lemma KnownAfter(s: Server, s': Server, id: string, changed: string, d: real, restaurant: string)
    requires Known(s, id, restaurant) && Shifts(s, s', changed, d, restaurant)
    ensures Known(s', id, restaurant) && id in s'.orders && Snapshot(s', id).id == id
  {
  }

  /** Whatever the network does, an iteration pays its order what is recorded and no other order anything. */
  lemma IterateShifts(t: Till, o: Order, restaurant: string, loss: Loss)
    requires Known(t.server, o.id, restaurant)
    ensures var t' := Iterate(t, o, restaurant, loss).0;
            && Shifts(t.server, t'.server, o.id, -Recorded(o, loss), restaurant)
            && P.PaidAmount(t'.server.ledger.rows, o.id) == P.PaidAmount(t.server.ledger.rows, o.id) + Recorded(o, loss)
            && ListedFrom(t.list, t', o.id, Refreshes(o, loss))
  {
    hide PayAndFetch, MarkPaid, Shifts, Known, Remaining;
    NothingShifts(t.server, o.id, restaurant);
    if NeedsPayment(o) {
      PayStep(t, o, restaurant);
      var t1 := PayAndFetch(t, o, restaurant).0;
      KnownAfter(t.server, t1.server, o.id, o.id, -o.remainingAmount, restaurant);
      var fetched := Snapshot(t1.server, o.id);
      MarkStep(t1, fetched, restaurant);
      ShiftsThen(t.server, t1.server, MarkPaid(t1, fetched, restaurant).0.server, o.id, -o.remainingAmount, restaurant);
    } else {
      MarkStep(t, o, restaurant);
    }
  }

  /** What changes elsewhere: a total and a status each in their one row, counting it up, the status only along a
      transition, and a call of the ledger no row. The till's list does not see any of it. */
  lemma ElsewhereEffect(w: World, e: Event, restaurant: string)
    requires e.LedgerCall? || e.TotalChanged? || e.StatusChanged?
    ensures var w' := Step(w, e, restaurant);
            var (s, s') := (w.till.server, w'.till.server);
            && w'.till.list == w.till.list && s'.orders.Keys == s.orders.Keys
            && (e.LedgerCall? ==> s'.orders == s.orders && s'.ledger == P.Step(s.ledger, e.call))
            && (!e.LedgerCall? ==>
                  && s'.ledger == s.ledger
                  && (forall id :: id in s.orders && id != e.id ==> s'.orders[id] == s.orders[id])
                  && (e.id in s.orders ==>
                        var (row, row') := (s.orders[e.id], s'.orders[e.id]);
                        var moves := e.StatusChanged? && CanTransition(row.status, e.status);
                        && row'.version == row.version + (if e.TotalChanged? || moves then 1 else 0)
                        && row'.status == (if moves then e.status else row.status)
                        && row'.grandTotal == (if e.TotalChanged? then e.total else row.grandTotal)
                        && row' == row.(status := row'.status, version := row'.version, grandTotal := row'.grandTotal)))
  {
    hide P.Step, Moved, CanTransition;
  }

  // ---------- The invariant ----------

  lemma HeadHonest(w: World, restaurant: string)
    requires Tracked(w, restaurant) && w.queue != []
    ensures Honest(w.till.server, w.queue[0], restaurant) && Known(w.till.server, w.queue[0].order.id, restaurant)
  {
  }

  lemma NextKeepsTracked(w: World, loss: Loss, restaurant: string)
    requires Tracked(w, restaurant) && w.queue != []
    ensures Tracked(IterateNext(w, loss, restaurant), restaurant)
  {
    hide Honest, Shifts, Iterate, Known, Remaining, Moved;
    var o, w' := w.queue[0].order, IterateNext(w, loss, restaurant);
    var d, s, s' := -Recorded(o, loss), w.till.server, w'.till.server;
    HeadHonest(w, restaurant);
    IterateShifts(w.till, o, restaurant, loss);
    AllStillHonest(s, s', o.id, d, w.wire, restaurant);
    var rest := if Iterate(w.till, o, restaurant, loss).1.Err? then [] else w.queue[1..];
    AllStillHonest(s, s', o.id, d, rest, restaurant);
    forall listed | listed in w'.till.list
      ensures Honest(s', Snap(listed, DriftOf(w'.drifts, listed.id)), restaurant)
    {
      if listed in w.till.list && (Refreshes(o, loss) ==> listed.id != o.id) {
        StillHonest(s, s', o.id, d, Snap(listed, DriftOf(w.drifts, listed.id)), restaurant);
      } else {
        KnownAfter(s, s', o.id, o.id, d, restaurant);
        FigureIsHonest(s', listed, restaurant);
      }
    }
  }

  lemma FigureIsHonest(s: Server, o: Order, restaurant: string)
    requires Known(s, o.id, restaurant) && o.remainingAmount == Remaining(s, o.id)
    ensures Honest(s, Snap(o, 0.0), restaurant)
  {
  }

  lemma PressKeepsTracked(w: World, target: CheckoutTarget, restaurant: string)
    requires Tracked(w, restaurant)
    ensures Tracked(Step(w, Press(target), restaurant), restaurant)
  {
    hide Honest;
    var targets := Targets(w.till.list, target);
    FilterMembers(w.till.list, IsTarget(target));
    forall i | 0 <= i < |targets|
      ensures Honest(w.till.server, Captured(targets, w.drifts)[i], restaurant)
    {
      assert targets[i] in targets;
    }
  }

  /** What happens at the server shifts the balance of its subject by the change, and no other. */
  lemma ElsewhereShifts(s: Server, e: Event, restaurant: string)
    requires e.LedgerCall? || e.TotalChanged? || e.StatusChanged?
    ensures var subject := Subject(s, e);
            Shifts(s, ServerAfter(s, e), if subject.Some? then subject.value else "",
                   if subject.Some? then Change(s, e, subject.value) else 0.0, restaurant)
  {
    match e
    case LedgerCall(call) =>
      forall j | Known(s, j, restaurant)
        ensures P.PaidAmount(P.Step(s.ledger, call).rows, j) == P.PaidAmount(s.ledger.rows, j) + P.PaidChange(s.ledger, call, j)
        ensures P.ChargedOrder(s.ledger, call) != Some(j) ==> P.PaidChange(s.ledger, call, j) == 0.0
      {
        P.PaidChanges(s.ledger, call, j);
      }
      LedgerOrders(s.ledger, call);
      hide P.PaidAmount, P.PaidChange, P.Step, P.ChargedOrder;
    case TotalChanged(_, _) => hide P.PaidAmount;
    case StatusChanged(_, _) => hide P.PaidAmount;
  }

  lemma LedgerOrders(l: P.Ledger, c: P.Call)
    ensures P.Step(l, c).orders == l.orders
  {
    P.PaidChanges(l, c, "");
  }

  lemma ElsewhereKeepsTracked(w: World, e: Event, restaurant: string)
    requires Tracked(w, restaurant) && (e.LedgerCall? || e.TotalChanged? || e.StatusChanged?)
    ensures Tracked(Elsewhere(w, e), restaurant)
  {
    hide Honest, Shifts, Moved, ServerAfter, Change, Known;
    var s, s', subject := w.till.server, ServerAfter(w.till.server, e), Subject(w.till.server, e);
    var id, d := if subject.Some? then subject.value else "", if subject.Some? then Change(s, e, subject.value) else 0.0;
    ElsewhereShifts(s, e, restaurant);
    AllStillHonest(s, s', id, d, w.queue, restaurant);
    AllStillHonest(s, s', id, d, w.wire, restaurant);
    forall o | o in w.till.list
      ensures Honest(s', Snap(o, DriftOf(Elsewhere(w, e).drifts, o.id)), restaurant)
    {
      StillHonest(s, s', id, d, Snap(o, DriftOf(w.drifts, o.id)), restaurant);
      if subject.None? {
        assert DriftOf(w.drifts, o.id) + d == DriftOf(w.drifts, o.id);
      }
    }
  }

  lemma SentKeepsTracked(w: World, id: string, restaurant: string)
    requires Tracked(w, restaurant)
    ensures Tracked(Step(w, SnapshotSent(id), restaurant), restaurant)
  {
    hide P.PaidAmount, P.Owned;
    var s := w.till.server;
    if Known(s, id, restaurant) {
      FigureIsHonest(s, Snapshot(s, id), restaurant);
      hide Honest;
    }
  }

  lemma ArrivedKeepsTracked(w: World, i: nat, restaurant: string)
    requires Tracked(w, restaurant)
    ensures Tracked(Step(w, SnapshotArrived(i), restaurant), restaurant)
  {
    hide FilterUpsert, Balance, P.Owned;
    if i < |w.wire| {
      assert Honest(w.till.server, w.wire[i], restaurant);
      UpsertedMembers(w.till.list, w.wire[i].order);
    }
  }

  lemma StepKeepsTracked(w: World, e: Event, restaurant: string)
    requires Tracked(w, restaurant)
    ensures Tracked(Step(w, e, restaurant), restaurant)
  {
    hide Tracked, IterateNext, Elsewhere, FilterUpsert, Known, Targets;
    match e
    case Press(target) => PressKeepsTracked(w, target, restaurant);
    case Next(loss) =>
      if w.queue != [] {
        NextKeepsTracked(w, loss, restaurant);
      }
    case SnapshotSent(id) => SentKeepsTracked(w, id, restaurant);
    case SnapshotArrived(i) => ArrivedKeepsTracked(w, i, restaurant);
    case _ => ElsewhereKeepsTracked(w, e, restaurant);
  }

  lemma {:induction false} RunKeepsTracked(w: World, events: seq<Event>, restaurant: string)
    requires Tracked(w, restaurant)
    ensures Tracked(Run(w, events, restaurant), restaurant)
  {
    if events != [] {
      RunKeepsTracked(w, Front(events), restaurant);
      StepKeepsTracked(Run(w, Front(events), restaurant), Last(events), restaurant);
    }
  }

  /** A fresh list is a start for such runs. */
  lemma FreshIsTracked(t: Till, restaurant: string)
    requires Fresh(t, restaurant)
    ensures Tracked(World(t, [], [], map[]), restaurant)
  {
    hide P.PaidAmount, P.Owned;
  }

  // ---------- When an order is overpaid ----------

  /** The event changes the balance of the order; for the loop, it records a payment for it. */
  predicate Touches(w: World, e: Event, id: string) {
    match e
    case Next(loss) => w.queue != [] && w.queue[0].order.id == id && Records(w.queue[0].order, loss)
    case _ => Change(w.till.server, e, id) != 0.0
  }

  /** What makes it too much: the loop pays for a snapshot whose order's balance has fallen since it was taken;
      another change is larger than the balance. */
  predicate Exceeds(w: World, e: Event, id: string) {
    match e
    case Next(_) => w.queue != [] && w.queue[0].drift < 0.0
    case _ => Balance(w.till.server, id) + Change(w.till.server, e, id) < 0.0
  }

  predicate Overcharges(w: World, e: Event, id: string) { Touches(w, e, id) && Exceeds(w, e, id) }

  /** The event leaves the order not overpaid, whether it was before or not. */
  predicate Evens(w: World, e: Event, id: string) { Touches(w, e, id) && !Exceeds(w, e, id) }

  lemma ShiftedBalance(s: Server, s': Server, changed: string, d: real, id: string, restaurant: string)
    requires Known(s, id, restaurant) && Shifts(s, s', changed, d, restaurant)
    ensures Known(s', id, restaurant) && Balance(s', id) == Balance(s, id) + (if id == changed then d else 0.0)
  {
  }

  /** One event leaves an order overpaid exactly if it overcharges it, or finds it overpaid and does not even
      it out. */
  lemma StepOverpaidIff(w: World, e: Event, id: string, restaurant: string)
    requires Tracked(w, restaurant) && Known(w.till.server, id, restaurant)
    ensures var w' := Step(w, e, restaurant);
            && Known(w'.till.server, id, restaurant)
            && (Overpaid(w'.till.server, id) <==>
                  Overcharges(w, e, id) || (Overpaid(w.till.server, id) && !Evens(w, e, id)))
  {
    match e
    case Next(loss) =>
      if w.queue != [] {
        NextOverpaidIff(w, loss, id, restaurant);
      }
    case LedgerCall(_) => ElsewhereOverpaidIff(w, e, id, restaurant);
    case TotalChanged(_, _) => ElsewhereOverpaidIff(w, e, id, restaurant);
    case StatusChanged(_, _) => ElsewhereOverpaidIff(w, e, id, restaurant);
    case _ =>
  }

  lemma NextOverpaidIff(w: World, loss: Loss, id: string, restaurant: string)
    requires Tracked(w, restaurant) && w.queue != [] && Known(w.till.server, id, restaurant)
    ensures var (s', e) := (IterateNext(w, loss, restaurant).till.server, Next(loss));
            && Known(s', id, restaurant)
            && (Overpaid(s', id) <==> Overcharges(w, e, id) || (Overpaid(w.till.server, id) && !Evens(w, e, id)))
  {
    hide Shifts, Iterate, Balance, Known, Moved;
    var o, s' := w.queue[0].order, IterateNext(w, loss, restaurant).till.server;
    HeadHonest(w, restaurant);
    hide Tracked;
    IterateShifts(w.till, o, restaurant, loss);
    ShiftedBalance(w.till.server, s', o.id, -Recorded(o, loss), id, restaurant);
  }

  lemma ElsewhereOverpaidIff(w: World, e: Event, id: string, restaurant: string)
    requires Known(w.till.server, id, restaurant) && (e.LedgerCall? || e.TotalChanged? || e.StatusChanged?)
    ensures var s' := Elsewhere(w, e).till.server;
            && Known(s', id, restaurant)
            && (Overpaid(s', id) <==> Overcharges(w, e, id) || (Overpaid(w.till.server, id) && !Evens(w, e, id)))
  {
    hide Shifts, Balance, Known, ServerAfter, Moved;
    var s, subject := w.till.server, Subject(w.till.server, e);
    ElsewhereShifts(s, e, restaurant);
    OnlySubjectChanges(s, e, id);
    hide Change, Subject;
    ShiftedBalance(s, ServerAfter(s, e), if subject.Some? then subject.value else "",
                   if subject.Some? then Change(s, e, subject.value) else 0.0, id, restaurant);
  }

  lemma OnlySubjectChanges(s: Server, e: Event, id: string)
    ensures Subject(s, e) != Some(id) ==> Change(s, e, id) == 0.0
  {
    hide Text.IsBlank, P.PaidAmount;
  }

  /** Over every run of presses, lost requests and answers, payments, updates, refunds and cancellations anywhere,
      changed totals and statuses, and snapshots that arrive late: an order ends up overpaid exactly if the last
      event that touched it overcharged it, or none did and it was overpaid at the start. */
  lemma {:induction false} RunOverpaidIff(w: World, events: seq<Event>, id: string, restaurant: string)
    requires Tracked(w, restaurant) && Known(w.till.server, id, restaurant)
    ensures Known(Run(w, events, restaurant).till.server, id, restaurant)
    ensures Overpaid(Run(w, events, restaurant).till.server, id) <==>
              OverchargedLast(w, events, id, restaurant) || (Overpaid(w.till.server, id) && NeverEvened(w, events, id, restaurant, 0))
  {
    hide Tracked, Known, Overpaid, Step, Overcharges, Evens;
    if events != [] {
      var front, n, before := Front(events), |events| - 1, Run(w, Front(events), restaurant);
      RunOverpaidIff(w, front, id, restaurant);
      RunKeepsTracked(w, front, restaurant);
      StepOverpaidIff(before, Last(events), id, restaurant);
      Prefixes(w, events, id, restaurant);
    }
  }

  /** No event from `from` on evens the order out. */
  ghost predicate NeverEvened(w: World, events: seq<Event>, id: string, restaurant: string, from: nat) {
    forall j :: from <= j < |events| ==> !EvensAt(w, events, id, restaurant, j)
  }

  predicate EvensAt(w: World, events: seq<Event>, id: string, restaurant: string, k: nat)
    requires k < |events|
  {
    Evens(Run(w, events[..k], restaurant), events[k], id)
  }

  predicate OverchargesAt(w: World, events: seq<Event>, id: string, restaurant: string, k: nat)
    requires k < |events|
  {
    Overcharges(Run(w, events[..k], restaurant), events[k], id)
  }

  ghost predicate OverchargedLast(w: World, events: seq<Event>, id: string, restaurant: string) {
    exists k :: 0 <= k < |events| && OverchargesAt(w, events, id, restaurant, k) && NeverEvened(w, events, id, restaurant, k + 1)
  }

  /** How the conditions on a run come from those on all but its last event. */
  lemma Prefixes(w: World, events: seq<Event>, id: string, restaurant: string)
    requires events != []
    ensures var (front, last, before) := (Front(events), Last(events), Run(w, Front(events), restaurant));
            && (forall k :: 0 <= k <= |front| ==>
                  (NeverEvened(w, events, id, restaurant, k) <==> NeverEvened(w, front, id, restaurant, k) && !Evens(before, last, id)))
            && (OverchargedLast(w, events, id, restaurant) <==>
                  Overcharges(before, last, id) || (OverchargedLast(w, front, id, restaurant) && !Evens(before, last, id)))
  {
    hide Overcharges, Evens, Run;
    var front, n := Front(events), |events| - 1;
    assert events[..n] == front && events[n] == Last(events);
    forall k | 0 <= k < n
      ensures EvensAt(w, events, id, restaurant, k) == EvensAt(w, front, id, restaurant, k)
      ensures OverchargesAt(w, events, id, restaurant, k) == OverchargesAt(w, front, id, restaurant, k)
    {
      assert front[..k] == events[..k] && front[k] == events[k];
    }
    assert EvensAt(w, events, id, restaurant, n) == Evens(Run(w, front, restaurant), Last(events), id);
    assert OverchargesAt(w, events, id, restaurant, n) == Overcharges(Run(w, front, restaurant), Last(events), id);
    hide EvensAt, OverchargesAt;
    if OverchargedLast(w, front, id, restaurant) && !EvensAt(w, events, id, restaurant, n) {
      var k :| 0 <= k < |front| && OverchargesAt(w, front, id, restaurant, k) && NeverEvened(w, front, id, restaurant, k + 1);
      assert OverchargesAt(w, events, id, restaurant, k) && NeverEvened(w, events, id, restaurant, k + 1);
    }
    if OverchargesAt(w, events, id, restaurant, n) {
      assert NeverEvened(w, events, id, restaurant, n + 1);
    }
    if OverchargedLast(w, events, id, restaurant) && !OverchargesAt(w, events, id, restaurant, n) {
      var k :| 0 <= k < |events| && OverchargesAt(w, events, id, restaurant, k) && NeverEvened(w, events, id, restaurant, k + 1);
      assert k < n && NeverEvened(w, front, id, restaurant, k + 1);
    }
  }

  /** From a fresh list, with nothing overpaid: only an overcharge makes an order overpaid. */
  lemma FreshOverpaidIff(t: Till, events: seq<Event>, id: string, restaurant: string)
    requires Fresh(t, restaurant) && Known(t.server, id, restaurant) && !Overpaid(t.server, id)
    ensures var start := World(t, [], [], map[]);
            Overpaid(Run(start, events, restaurant).till.server, id) <==> OverchargedLast(start, events, id, restaurant)
  {
    FreshIsTracked(t, restaurant);
    RunOverpaidIff(World(t, [], [], map[]), events, id, restaurant);
  }

  // ---------- Where only payments are made ----------

  /** Nothing but payments changes balances. */
  predicate PaysOnly(e: Event) {
    !e.TotalChanged? && (e.LedgerCall? ==> e.call.op.CreateOp? && e.call.op.amount >= 0.0)
  }

  /** No balance has risen since a snapshot was taken. */
  ghost predicate Falling(w: World) {
    && (forall i :: 0 <= i < |w.queue| ==> w.queue[i].drift <= 0.0) && (forall i :: 0 <= i < |w.wire| ==> w.wire[i].drift <= 0.0)
    && forall id :: id in w.drifts ==> w.drifts[id] <= 0.0
  }

  lemma StepKeepsFalling(w: World, e: Event, restaurant: string)
    requires Falling(w) && PaysOnly(e)
    ensures Falling(Step(w, e, restaurant))
  {
    hide Iterate, FilterUpsert, Targets, P.Step, Text.IsBlank, ServerAfter;
  }

  lemma PaymentsNeverEven(w: World, e: Event, id: string, restaurant: string)
    requires Tracked(w, restaurant) && PaysOnly(e) && Overpaid(w.till.server, id)
    ensures !Evens(w, e, id)
  {
    hide Balance, Text.IsBlank;
    if e.Next? && w.queue != [] {
      HeadHonest(w, restaurant);
    }
  }

  /** Where only payments are made, an order ends up overpaid exactly if it was so at the start, or the loop at
      some point recorded a payment for a snapshot of it not taken since its last payment, or somebody paid more
      than what remained. */
  lemma {:induction false} PaymentsOverpaidIff(w: World, events: seq<Event>, id: string, restaurant: string)
    requires Tracked(w, restaurant) && Falling(w) && Known(w.till.server, id, restaurant)
    requires forall e :: e in events ==> PaysOnly(e)
    ensures Falling(Run(w, events, restaurant)) && Known(Run(w, events, restaurant).till.server, id, restaurant)
    ensures Overpaid(Run(w, events, restaurant).till.server, id) <==>
              Overpaid(w.till.server, id) || exists k :: 0 <= k < |events| && OverchargesAt(w, events, id, restaurant, k)
  {
    hide Tracked, Known, Overpaid, Step, Overcharges, Evens, Falling, PaysOnly;
    if events != [] {
      var front, n, before := Front(events), |events| - 1, Run(w, Front(events), restaurant);
      assert Last(events) in events && forall e :: e in front ==> e in events;
      PaymentsOverpaidIff(w, front, id, restaurant);
      RunKeepsTracked(w, front, restaurant);
      StepKeepsFalling(before, Last(events), restaurant);
      StepOverpaidIff(before, Last(events), id, restaurant);
      if Overpaid(before.till.server, id) {
        PaymentsNeverEven(before, Last(events), id, restaurant);
      }
      assert events[..n] == front && events[n] == Last(events);
      forall k | 0 <= k < n
        ensures OverchargesAt(w, events, id, restaurant, k) == OverchargesAt(w, front, id, restaurant, k)
      {
        assert front[..k] == events[..k] && front[k] == events[k];
      }
      assert OverchargesAt(w, events, id, restaurant, n) == Overcharges(before, Last(events), id);
    }
  }

  // ---------- Trying again ----------

  /** The next iteration for an order that has been delivered closes it exactly if its snapshot shows nothing to
      pay or the balance has not risen since. A snapshot that shows nothing to pay closes it whatever remains;
      otherwise what remains is the rise. */
  lemma NextSettles(w: World, restaurant: string)
    requires Tracked(w, restaurant) && w.queue != [] && Known(w.till.server, w.queue[0].order.id, restaurant)
    requires var o := w.queue[0].order;
             o.status != Cancelled && o.status != Paid && w.till.server.orders[o.id].status == Delivered
    ensures var (s, s', o) := (w.till.server, Step(w, Next(NoLoss), restaurant).till.server, w.queue[0].order);
            && o.id in s'.orders
            && (s'.orders[o.id].status == Paid <==> (NeedsPayment(o) ==> w.queue[0].drift <= 0.0))
            && Remaining(s', o.id) == (if NeedsPayment(o) then Max(w.queue[0].drift, 0.0) else Remaining(s, o.id))
            && (!NeedsPayment(o) ==> s'.ledger == s.ledger)
  {
    hide PayAndFetch, MarkPaid, P.PaidAmount, P.Owned;
    var o, t := w.queue[0].order, w.till;
    HeadHonest(w, restaurant);
    hide Tracked;
    if NeedsPayment(o) {
      PayStep(t, o, restaurant);
      var t1 := PayAndFetch(t, o, restaurant).0;
      KnownAfter(t.server, t1.server, o.id, o.id, -o.remainingAmount, restaurant);
      assert Balance(t1.server, o.id) == w.queue[0].drift;
      MarkStep(t1, Snapshot(t1.server, o.id), restaurant);
      KnownAfter(t1.server, MarkPaid(t1, Snapshot(t1.server, o.id), restaurant).0.server, o.id, o.id, 0.0, restaurant);
    } else {
      MarkStep(t, o, restaurant);
      KnownAfter(t.server, MarkPaid(t, o, restaurant).0.server, o.id, o.id, 0.0, restaurant);
    }
  }

  /** Pressing for the only listed order captures it, and the loop's iteration records its figure. */
  lemma PressThenNext(w: World, o: Order, loss: Loss, restaurant: string)
    requires Tracked(w, restaurant) && w.queue == [] && w.till.list == [o] && Records(o, loss)
    ensures var pressed := Step(w, Press(OneOrder(o.id)), restaurant);
            var after := Step(pressed, Next(loss), restaurant);
            && pressed.till == w.till && pressed.queue == [Snap(o, DriftOf(w.drifts, o.id))]
            && P.PaidAmount(after.till.server.ledger.rows, o.id) == P.PaidAmount(w.till.server.ledger.rows, o.id) + o.remainingAmount
            && (loss == PaymentAnswerLost ==>
                  after.queue == [] && after.till.list == [o] && DriftOf(after.drifts, o.id) == DriftOf(w.drifts, o.id) - o.remainingAmount)
  {
    hide P.PaidAmount, PayAndFetch, MarkPaid, Remaining;
    assert Front([o]) == [] && Last([o]) == o;
    var pressed := Step(w, Press(OneOrder(o.id)), restaurant);
    FilterAll([o], IsTarget(OneOrder(o.id)));
    PressKeepsTracked(w, OneOrder(o.id), restaurant);
    HeadHonest(pressed, restaurant);
    IterateShifts(w.till, o, restaurant, loss);
  }

  /** The answer to a payment gets lost, the cashier presses again: the order is charged its figure twice, and is
      overpaid exactly if its balance had not risen by as much since the snapshot. */
  lemma LostAnswerPaysTwice(w: World, o: Order, restaurant: string)
    requires Tracked(w, restaurant) && w.queue == [] && w.till.list == [o] && NeedsPayment(o)
    ensures var press := Press(OneOrder(o.id));
            var after := Run(w, [press, Next(PaymentAnswerLost), press, Next(NoLoss)], restaurant).till.server;
            && P.PaidAmount(after.ledger.rows, o.id) == P.PaidAmount(w.till.server.ledger.rows, o.id) + o.remainingAmount + o.remainingAmount
            && (Overpaid(after, o.id) <==> DriftOf(w.drifts, o.id) < o.remainingAmount)
  {
    hide P.PaidAmount, Step, Tracked, Overpaid, Known;
    var press, lost, next := Press(OneOrder(o.id)), Next(PaymentAnswerLost), Next(NoLoss);
    assert Front([press, lost, press, next]) == [press, lost, press];
    assert Front([press, lost, press]) == [press, lost] && Front([press, lost]) == [press] && Front([press]) == [];
    var w1 := Step(w, press, restaurant);
    var w2 := Step(w1, lost, restaurant);
    var w3 := Step(w2, press, restaurant);
    assert Run(w, [press], restaurant) == w1;
    assert Run(w, [press, lost], restaurant) == w2;
    assert Run(w, [press, lost, press], restaurant) == w3;
    PressThenNext(w, o, PaymentAnswerLost, restaurant);
    StepKeepsTracked(w, press, restaurant);
    StepKeepsTracked(w1, lost, restaurant);
    PressThenNext(w2, o, NoLoss, restaurant);
    StepKeepsTracked(w2, press, restaurant);
    ListedKnown(w2, o, restaurant);
    StepOverpaidIff(w3, next, o.id, restaurant);
  }

  lemma ListedKnown(w: World, o: Order, restaurant: string)
    requires Tracked(w, restaurant) && o in w.till.list
    ensures Known(w.till.server, o.id, restaurant)
  {
  }

  // ---------- The loop of one press ----------

  function Nexts(losses: nat -> Loss, k: nat): seq<Event> {
    if k == 0 then [] else Nexts(losses, k - 1) + [Next(losses(k - 1))]
  }

  /** A press followed by its iterations, with nothing in between, is `collectPayment` as a whole. */
  lemma PressCollects(w: World, target: CheckoutTarget, restaurant: string, losses: nat -> Loss)
    requires w.queue == []
    ensures var targets := Targets(w.till.list, target);
            Run(Step(w, Press(target), restaurant), Nexts(losses, |targets|), restaurant).till ==
            SettleWith(w.till, targets, restaurant, losses).0
  {
    var targets := Targets(w.till.list, target);
    NextsSettle(w, target, restaurant, losses, |targets|);
    assert targets[..|targets|] == targets;
  }

  /** After `k` iterations: the loop has settled the first `k` targets and has the others in its queue, or it
      has ended with an error. */
  lemma {:induction false} NextsSettle(w: World, target: CheckoutTarget, restaurant: string, losses: nat -> Loss, k: nat)
    requires w.queue == [] && k <= |Targets(w.till.list, target)|
    ensures var (targets, pressed) := (Targets(w.till.list, target), Step(w, Press(target), restaurant));
            var (after, settled) := (Run(pressed, Nexts(losses, k), restaurant), SettleWith(w.till, targets[..k], restaurant, losses));
            && after.till == settled.0
            && (if settled.2.Some? then after.queue == []
                else |after.queue| == |targets| - k && forall i :: 0 <= i < |after.queue| ==> after.queue[i].order == targets[k + i])
  {
    hide Iterate, Targets, Step, IterateNext;
    var targets := Targets(w.till.list, target);
    var pressed := Step(w, Press(target), restaurant);
    if k == 0 {
      Pressed(w, target, restaurant);
    } else {
      NextsSettle(w, target, restaurant, losses, k - 1);
      FrontLast(targets[..k - 1], targets[k - 1]);
      assert targets[..k] == targets[..k - 1] + [targets[k - 1]];
      FrontLast(Nexts(losses, k - 1), Next(losses(k - 1)));
      var before := Run(pressed, Nexts(losses, k - 1), restaurant);
      NextMoves(before, losses(k - 1), restaurant);
      var after := Run(pressed, Nexts(losses, k), restaurant);
      assert after == Step(before, Next(losses(k - 1)), restaurant);
      if SettleWith(w.till, targets[..k], restaurant, losses).2.None? {
        var (till, r) := Iterate(before.till, targets[k - 1], restaurant, losses(k - 1));
        assert before.queue[0].order == targets[k - 1] && r.Ok?;
        forall i | 0 <= i < |after.queue|
          ensures after.queue[i].order == targets[k + i]
        {
          assert after.queue[i].order == before.queue[i + 1].order;
        }
      }
    }
  }

  lemma Pressed(w: World, target: CheckoutTarget, restaurant: string)
    requires w.queue == []
    ensures var (targets, pressed) := (Targets(w.till.list, target), Step(w, Press(target), restaurant));
            && pressed.till == w.till && |pressed.queue| == |targets|
            && forall i :: 0 <= i < |targets| ==> pressed.queue[i].order == targets[i]
  {
  }

  lemma NextMoves(w: World, loss: Loss, restaurant: string)
    ensures var w' := Step(w, Next(loss), restaurant);
            && (w.queue == [] ==> w' == w)
            && (w.queue != [] ==>
                  var (till, r) := Iterate(w.till, w.queue[0].order, restaurant, loss);
                  && w'.till == till && (r.Err? ==> w'.queue == [])
                  && (r.Ok? ==> |w'.queue| == |w.queue| - 1 && forall i :: 0 <= i < |w'.queue| ==> w'.queue[i].order == w.queue[i + 1].order))
  {
    hide Iterate;
  }
}
