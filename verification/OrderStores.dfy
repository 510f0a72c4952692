/**
 The order lists that four client applications keep from a stream of order snapshots:
 apps/pos-app/src/store/pos-data.store.ts, apps/kitchen-app/src/store/kitchen.store.ts,
 apps/waiter-app/src/store/waiter.store.ts and apps/customer-app/src/store/guest-orders.store.ts.
 Each has its own array algorithm; all of them keep the last active snapshot of every order.
 */
module OrderStores {
  import opened Options
  import opened Orders
  import opened Sequences

  // ---------- The four algorithms ----------

  /** POS and kitchen: filter the id out, then append and sort if the status is active. */
  function FilterUpsert(orders: seq<Order>, o: Order, active: set<OrderStatus>): seq<Order> {
    if o.id == "" then orders
    else
      var without := Filter(orders, NotId(o.id));
      if o.status !in active then without else StableSort(without + [o], ByTime)
  }

  /** Waiter: filter the id out, append, then drop what is inactive and sort. */
  function Normalize(orders: seq<Order>): seq<Order> {
    StableSort(Filter(orders, ActiveIn(TABLE_SERVICE)), ByTime)
  }

  function WaiterUpsert(orders: seq<Order>, o: Order): seq<Order> {
    Normalize(Filter(orders, NotId(o.id)) + [o])
  }

  /** Guest: splice out, push or overwrite in place, then sort. */
  function IndexOf(orders: seq<Order>, id: string): (r: Option<nat>)
    ensures r.Some? ==> r.value < |orders| && orders[r.value].id == id
    ensures r.None? ==> forall i :: 0 <= i < |orders| ==> orders[i].id != id
  {
    if orders == [] then None
    else
      var prior := IndexOf(Front(orders), id);
      if prior.Some? then prior
      else if Last(orders).id == id then Some(|orders| - 1)
      else None
  }

  function GuestUpsert(orders: seq<Order>, o: Order): seq<Order> {
    if o.id == "" then orders
    else
      var index := IndexOf(orders, o.id);
      if o.status.Paid? || o.status.Cancelled? then
        if index.None? then orders else Without(orders, index.value)
      else
        StableSort(if index.None? then orders + [o] else orders[index.value := o], ByTime)
  }

  function Remove(orders: seq<Order>, id: string): seq<Order> {
    Filter(orders, NotId(id))
  }

  // ---------- Streams of snapshots ----------

  datatype Event = Upserted(order: Order) | Removed(id: string)

  datatype App = Pos | Kitchen | Waiter | Guest

  function Statuses(app: App): set<OrderStatus> {
    if app.Kitchen? then KITCHEN_SERVICE else TABLE_SERVICE
  }

  function Upsert(app: App, orders: seq<Order>, o: Order): seq<Order> {
    match app
    case Pos => FilterUpsert(orders, o, TABLE_SERVICE)
    case Kitchen => FilterUpsert(orders, o, KITCHEN_SERVICE)
    case Waiter => WaiterUpsert(orders, o)
    case Guest => GuestUpsert(orders, o)
  }

  function Receive(app: App, orders: seq<Order>, e: Event): seq<Order> {
    match e
    case Upserted(o) => Upsert(app, orders, o)
    case Removed(id) => Remove(orders, id)
  }

  function Replay(app: App, orders: seq<Order>, events: seq<Event>): seq<Order> {
    if events == [] then orders else Receive(app, Replay(app, orders, Front(events)), Last(events))
  }

  /** The last snapshot of every order that has an id and was not removed since. */
  function Latest(known: map<string, Order>, events: seq<Event>): map<string, Order> {
    if events == [] then known
    else
      var m := Latest(known, Front(events));
      match Last(events)
      case Upserted(o) => if o.id == "" then m else m[o.id := o]
      case Removed(id) => m - {id}
  }

  /** `orders` lists each active snapshot of `known` once, oldest first. */
  ghost predicate Lists(orders: seq<Order>, known: map<string, Order>, active: set<OrderStatus>) {
    && Sorted(orders, ByTime)
    && (forall o :: o in orders <==> Listed(o, known, active))
    && (forall o :: multiset(orders)[o] <= 1)
  }

  /** The snapshot is the known one of its order, and active. */
  predicate Listed(o: Order, known: map<string, Order>, active: set<OrderStatus>) {
    o.id in known && known[o.id] == o && o.id != "" && o.status in active
  }

  lemma ByTimeIsPreorder()
    ensures TotalPreorder(ByTime)
  {
  }

  lemma ListsIds(orders: seq<Order>, known: map<string, Order>, active: set<OrderStatus>, i: nat, j: nat)
    requires Lists(orders, known, active) && i < j < |orders|
    ensures orders[i].id != orders[j].id
  {
    if orders[i].id == orders[j].id {
      assert orders[i] in orders && orders[j] in orders;
      CountTwo(orders, i, j);
    }
  }

  lemma FilterOut(orders: seq<Order>, known: map<string, Order>, active: set<OrderStatus>, id: string)
    requires Lists(orders, known, active)
    ensures Lists(Filter(orders, NotId(id)), known - {id}, active)
  {
    FilterSorted(orders, ByTime, NotId(id));
    FilterMembers(orders, NotId(id));
    forall o
      ensures multiset(Filter(orders, NotId(id)))[o] <= 1
    {
      FilterCounts(orders, NotId(id), o);
    }
  }

  lemma InsertNew(orders: seq<Order>, known: map<string, Order>, active: set<OrderStatus>, o: Order)
    requires Lists(orders, known, active) && o.id !in known && o.id != ""
    ensures o.status in active ==> Lists(StableSort(orders + [o], ByTime), known[o.id := o], active)
    ensures o.status !in active ==> Lists(orders, known[o.id := o], active)
  {
    hide Lists, Sorted, StableSort, Insert, Listed;
    SortedOf(orders, known, active);
    SortedWithOneMore(orders, o);
    if o.status in active {
      ListsOneMore(orders, known, active, o, Insert(orders, o, ByTime));
    } else {
      ListsNoMore(orders, known, active, o);
    }
  }

  lemma SortedOf(orders: seq<Order>, known: map<string, Order>, active: set<OrderStatus>)
    requires Lists(orders, known, active)
    ensures Sorted(orders, ByTime)
  {
  }

  lemma SortedWithOneMore(orders: seq<Order>, o: Order)
    requires Sorted(orders, ByTime)
    ensures StableSort(orders + [o], ByTime) == Insert(orders, o, ByTime)
    ensures Sorted(Insert(orders, o, ByTime), ByTime)
    ensures multiset(Insert(orders, o, ByTime)) == multiset(orders) + multiset{o}
  {
    ByTimeIsPreorder();
    hide Sorted, StableSort, Insert, TotalPreorder;
    SortSnoc(orders, o, ByTime);
    InsertMembers(orders, o, ByTime);
    InsertSorted(orders, o, ByTime);
  }

  lemma ListsOneMore(orders: seq<Order>, known: map<string, Order>, active: set<OrderStatus>, o: Order, inserted: seq<Order>)
    requires Lists(orders, known, active) && o.id !in known && o.id != "" && o.status in active
    requires Sorted(inserted, ByTime) && multiset(inserted) == multiset(orders) + multiset{o}
    ensures Lists(inserted, known[o.id := o], active)
  {
    NewIsNotListed(orders, known, active, o);
    hide Sorted, Listed;
    InsertedOnce(orders, o, inserted);
    forall x
      ensures x in inserted <==> Listed(x, known[o.id := o], active)
    {
      ListedMore(orders, known, active, o, x);
    }
  }

  lemma ListsNoMore(orders: seq<Order>, known: map<string, Order>, active: set<OrderStatus>, o: Order)
    requires Lists(orders, known, active) && o.id !in known && o.id != "" && o.status !in active
    ensures Lists(orders, known[o.id := o], active)
  {
    hide Sorted, Listed;
    forall x
      ensures x in orders <==> Listed(x, known[o.id := o], active)
    {
      ListedMore(orders, known, active, o, x);
    }
  }

  lemma NewIsNotListed(orders: seq<Order>, known: map<string, Order>, active: set<OrderStatus>, o: Order)
    requires Lists(orders, known, active) && o.id !in known
    ensures o !in orders
  {
  }

  lemma ListedMore(orders: seq<Order>, known: map<string, Order>, active: set<OrderStatus>, o: Order, x: Order)
    requires Lists(orders, known, active) && o.id !in known && o.id != ""
    ensures Listed(x, known[o.id := o], active) <==> x in orders || (x == o && o.status in active)
  {
  }

  /** A new element of a list without repetitions. */
  lemma InsertedOnce(orders: seq<Order>, o: Order, inserted: seq<Order>)
    requires multiset(inserted) == multiset(orders) + multiset{o} && o !in orders
    requires forall x :: multiset(orders)[x] <= 1
    ensures forall x :: x in inserted <==> x in orders || x == o
    ensures forall x :: multiset(inserted)[x] <= 1
  {
    forall x
      ensures x in inserted <==> x in orders || x == o
    {
      assert x in inserted <==> x in multiset(inserted);
      assert x in orders <==> x in multiset(orders);
    }
    assert multiset(orders)[o] == 0;
  }

  lemma FilterUpsertLists(orders: seq<Order>, known: map<string, Order>, active: set<OrderStatus>, o: Order)
    requires Lists(orders, known, active) && o.id != ""
    ensures Lists(FilterUpsert(orders, o, active), known[o.id := o], active)
  {
    hide Lists, Filter, StableSort;
    FilterOut(orders, known, active, o.id);
    InsertNew(Filter(orders, NotId(o.id)), known - {o.id}, active, o);
    assert (known - {o.id})[o.id := o] == known[o.id := o];
  }

  /** On a list that it keeps, the waiter's algorithm does what the POS's does. */
  lemma WaiterUpsertIsPos(orders: seq<Order>, known: map<string, Order>, o: Order)
    requires Lists(orders, known, TABLE_SERVICE)
    ensures WaiterUpsert(orders, o) == FilterUpsert(orders, o, TABLE_SERVICE)
  {
    var without := Filter(orders, NotId(o.id));
    FilterOut(orders, known, TABLE_SERVICE, o.id);
    FilterAll(without, ActiveIn(TABLE_SERVICE));
    FilterSnoc(without, o, ActiveIn(TABLE_SERVICE));
    assert without + [] == without;
    SortedIsFixed(without, ByTime);
    if o.id == "" {
      FilterAll(orders, NotId(o.id));
    }
  }

  lemma ReplaceKnown(orders: seq<Order>, known: map<string, Order>, i: nat)
    requires Lists(orders, known, TABLE_SERVICE) && i < |orders|
    ensures Lists(Without(orders, i), known - {orders[i].id}, TABLE_SERVICE)
  {
    var gone := orders[i];
    var rest := Without(orders, i);
    RestSorted(orders, i);
    hide Sorted;
    RestMembers(orders, i);
    forall o
      ensures o in rest <==> Listed(o, known - {gone.id}, TABLE_SERVICE)
    {
      assert gone in orders && (o in orders <==> Listed(o, known, TABLE_SERVICE));
    }
  }

  lemma RestSorted(orders: seq<Order>, i: nat)
    requires Sorted(orders, ByTime) && i < |orders|
    ensures Sorted(Without(orders, i), ByTime)
  {
  }

  /** Taking an element out of a list without repetitions. */
  lemma RestMembers(orders: seq<Order>, i: nat)
    requires i < |orders| && forall o :: multiset(orders)[o] <= 1
    ensures forall o :: o in Without(orders, i) <==> o in orders && o != orders[i]
    ensures forall o :: multiset(Without(orders, i))[o] <= 1
  {
    hide Without;
    var rest := Without(orders, i);
    WithoutMultiset(orders, i);
    forall o
      ensures multiset(rest)[o] <= 1
    {
      assert multiset(orders)[o] == (multiset(rest) + multiset{orders[i]})[o];
    }
    forall o
      ensures o in rest <==> o in orders && o != orders[i]
    {
      assert o in rest <==> o in multiset(rest);
      assert o in orders <==> o in multiset(orders);
    }
  }

  /** A sorted rearrangement of a list of the latest snapshots is such a list. */
  lemma ListsPermuted(xs: seq<Order>, ys: seq<Order>, known: map<string, Order>, active: set<OrderStatus>)
    requires Lists(xs, known, active) && Sorted(ys, ByTime) && multiset(xs) == multiset(ys)
    ensures Lists(ys, known, active)
  {
    forall o
      ensures o in xs <==> o in ys
    {
      assert o in xs <==> o in multiset(xs);
      assert o in ys <==> o in multiset(ys);
    }
  }

  /** Overwriting in place rearranges what taking out and appending gives. */
  lemma OverwriteRearranges(orders: seq<Order>, i: nat, o: Order)
    requires i < |orders|
    ensures multiset(StableSort(orders[i := o], ByTime)) == multiset(StableSort(Without(orders, i) + [o], ByTime))
  {
    hide StableSort, Without;
    SortPermutes(orders[i := o], ByTime);
    SortPermutes(Without(orders, i) + [o], ByTime);
    OverwriteMultiset(orders, i, o);
  }

  lemma OverwriteMultiset(orders: seq<Order>, i: nat, o: Order)
    requires i < |orders|
    ensures multiset(orders[i := o]) == multiset(Without(orders, i) + [o])
  {
    hide Without;
    var rest, gone := multiset(Without(orders, i)), multiset{orders[i]};
    SnocMultiset(Without(orders, i), o);
    WithoutMultiset(orders, i);
    UpdateMultiset(orders, i, o);
    assert rest == multiset(orders) - gone;
  }

  lemma GuestUpsertLists(orders: seq<Order>, known: map<string, Order>, o: Order)
    requires Lists(orders, known, TABLE_SERVICE) && o.id != ""
    ensures Lists(GuestUpsert(orders, o), known[o.id := o], TABLE_SERVICE)
  {
    hide Lists, Filter, StableSort, Sorted, Without;
    var index := IndexOf(orders, o.id);
    if index.None? {
      FilterAll(orders, NotId(o.id));
      FilterUpsertLists(orders, known, TABLE_SERVICE, o);
    } else {
      GuestReplaceLists(orders, known, index.value, o);
    }
  }

  lemma GuestReplaceLists(orders: seq<Order>, known: map<string, Order>, i: nat, o: Order)
    requires Lists(orders, known, TABLE_SERVICE) && o.id != "" && i < |orders| && orders[i].id == o.id
    ensures o.status in TABLE_SERVICE ==> Lists(StableSort(orders[i := o], ByTime), known[o.id := o], TABLE_SERVICE)
    ensures o.status !in TABLE_SERVICE ==> Lists(Without(orders, i), known[o.id := o], TABLE_SERVICE)
  {
    hide Lists, StableSort, Sorted, Without;
    ReplaceKnown(orders, known, i);
    assert (known - {o.id})[o.id := o] == known[o.id := o];
    InsertNew(Without(orders, i), known - {o.id}, TABLE_SERVICE, o);
    if o.status in TABLE_SERVICE {
      ByTimeIsPreorder();
      SortSorts(orders[i := o], ByTime);
      OverwriteRearranges(orders, i, o);
      ListsPermuted(StableSort(Without(orders, i) + [o], ByTime), StableSort(orders[i := o], ByTime), known[o.id := o], TABLE_SERVICE);
    }
  }

  /** The guest application has no remove operation. */
  predicate Possible(app: App, events: seq<Event>) {
    app.Guest? ==> forall e :: e in events ==> e.Upserted?
  }

  /** Whatever snapshots arrive, in whatever order: every application lists exactly the last snapshot of
      each order that is active for it, once, oldest first. */
  lemma {:induction false} ListsLatest(app: App, orders: seq<Order>, known: map<string, Order>, events: seq<Event>)
    requires Lists(orders, known, Statuses(app)) && Possible(app, events)
    ensures Lists(Replay(app, orders, events), Latest(known, events), Statuses(app))
  {
    if events != [] {
      var front, e := Front(events), Last(events);
      assert forall e' :: e' in front ==> e' in events;
      ListsLatest(app, orders, known, front);
      var now, m := Replay(app, orders, front), Latest(known, front);
      match e
      case Removed(id) => FilterOut(now, m, Statuses(app), id);
      case Upserted(o) =>
        if app.Waiter? {
          WaiterUpsertIsPos(now, m, o);
        }
        if o.id != "" {
          if app.Guest? {
            GuestUpsertLists(now, m, o);
          } else {
            FilterUpsertLists(now, m, Statuses(app), o);
          }
        }
    }
  }

  /** What an application shows. */
  predicate Shows(app: App, status: OrderStatus) {
    status != Paid && status != Cancelled && (app.Kitchen? ==> status != Delivered)
  }

  /** Started from nothing: of every order with an id the last snapshot is listed exactly if its status is neither
      PAID nor CANCELLED, nor DELIVERED in the kitchen, and nothing else; ids are distinct and times in order. */
  lemma FromEmpty(app: App, events: seq<Event>)
    requires Possible(app, events)
    ensures var (orders, known) := (Replay(app, [], events), Latest(map[], events));
            && Lists(orders, known, Statuses(app))
            && (forall id :: id in known ==> (known[id] in orders <==> Shows(app, known[id].status)))
            && (forall o :: o in orders ==> o.id in known && known[o.id] == o && Shows(app, o.status))
            && forall i, j :: 0 <= i < j < |orders| ==> orders[i].id != orders[j].id && orders[i].createdAt <= orders[j].createdAt
  {
    ListsLatest(app, [], map[], events);
    var orders, known := Replay(app, [], events), Latest(map[], events);
    forall i, j | 0 <= i < j < |orders|
      ensures orders[i].id != orders[j].id && orders[i].createdAt <= orders[j].createdAt
    {
      ListsIds(orders, known, Statuses(app), i, j);
      assert ByTime(orders[i], orders[j]);
    }
    forall id | id in known
      ensures known[id] in orders <==> Shows(app, known[id].status)
    {
      LatestIds(events, id);
      assert known[id] in orders <==> Listed(known[id], known, Statuses(app));
    }
  }

  // ---------- The applications agree ----------

  /** The waiter and the POS keep the same list, ties included. */
  lemma {:induction false} WaiterAgreesWithPos(orders: seq<Order>, known: map<string, Order>, events: seq<Event>)
    requires Lists(orders, known, TABLE_SERVICE)
    ensures Replay(Waiter, orders, events) == Replay(Pos, orders, events)
  {
    if events != [] {
      WaiterAgreesWithPos(orders, known, Front(events));
      ListsLatest(Pos, orders, known, Front(events));
      if Last(events).Upserted? {
        WaiterUpsertIsPos(Replay(Pos, orders, Front(events)), Latest(known, Front(events)), Last(events).order);
      }
    }
  }

  const NotDelivered: Order -> bool := (o: Order) => !o.status.Delivered?

  lemma KitchenUpsertIsFiltered(orders: seq<Order>, o: Order)
    requires Sorted(orders, ByTime)
    ensures Filter(FilterUpsert(orders, o, TABLE_SERVICE), NotDelivered) ==
            FilterUpsert(Filter(orders, NotDelivered), o, KITCHEN_SERVICE)
  {
    hide Filter, StableSort, Insert, Sorted, TotalPreorder;
    ByTimeIsPreorder();
    var without := Filter(orders, NotId(o.id));
    FilterSwap(orders, NotId(o.id), NotDelivered);
    FilterSorted(orders, ByTime, NotId(o.id));
    FilterSorted(without, ByTime, NotDelivered);
    SortSnoc(without, o, ByTime);
    SortSnoc(Filter(without, NotDelivered), o, ByTime);
    FilterInsert(without, o, ByTime, NotDelivered);
  }

  /** The kitchen keeps the POS's list without the delivered orders, ties included. */
  lemma {:induction false} KitchenIsPosWithoutDelivered(orders: seq<Order>, known: map<string, Order>, events: seq<Event>)
    requires Lists(orders, known, TABLE_SERVICE)
    ensures Replay(Kitchen, Filter(orders, NotDelivered), events) == Filter(Replay(Pos, orders, events), NotDelivered)
  {
    if events != [] {
      var front := Front(events);
      KitchenIsPosWithoutDelivered(orders, known, front);
      ListsLatest(Pos, orders, known, front);
      var now := Replay(Pos, orders, front);
      match Last(events)
      case Removed(id) => FilterSwap(now, NotId(id), NotDelivered);
      case Upserted(o) => KitchenUpsertIsFiltered(now, o);
    }
  }

  ghost predicate DistinctTimes(known: map<string, Order>, active: set<OrderStatus>) {
    forall i, j :: i in known && j in known && known[i].status in active && known[j].status in active ==>
      known[i].createdAt != known[j].createdAt || known[i] == known[j]
  }

  /** A list of the active snapshots of `known` is determined by `known` when no two of them tie. */
  lemma ListsUnique(xs: seq<Order>, ys: seq<Order>, known: map<string, Order>, active: set<OrderStatus>)
    requires Lists(xs, known, active) && Lists(ys, known, active) && DistinctTimes(known, active)
    ensures xs == ys
  {
    forall o
      ensures multiset(xs)[o] == multiset(ys)[o]
    {
      assert o in xs <==> o in multiset(xs);
      assert o in ys <==> o in multiset(ys);
    }
    assert multiset(xs) == multiset(ys);
    forall x, y | x in xs && y in xs && ByTime(x, y) && ByTime(y, x)
      ensures x == y
    {
      assert known[x.id] == x && known[y.id] == y;
    }
    SortedUnique(xs, ys, ByTime);
  }

  /** Streams that agree on the last snapshot of every order, however they interleave, leave any two
      applications with the same active statuses with the same list, when no two active orders tie. */
  lemma Converge(app: App, app': App, events: seq<Event>, events': seq<Event>)
    requires Possible(app, events) && Possible(app', events')
    requires Statuses(app) == Statuses(app') && Latest(map[], events) == Latest(map[], events')
    requires DistinctTimes(Latest(map[], events), Statuses(app))
    ensures Replay(app, [], events) == Replay(app', [], events')
  {
    ListsLatest(app, [], map[], events);
    ListsLatest(app', [], map[], events');
    ListsUnique(Replay(app, [], events), Replay(app', [], events'), Latest(map[], events), Statuses(app));
  }

  lemma OneUpsert(app: App, orders: seq<Order>, o: Order)
    requires o.id != "" && o.status in Statuses(app) && Sorted(orders, ByTime)
    requires forall i :: 0 <= i < |orders| ==> orders[i].id != o.id && orders[i].id != "" && orders[i].status in Statuses(app)
    ensures Upsert(app, orders, o) == Insert(orders, o, ByTime)
  {
    hide Filter, StableSort, Insert, Sorted;
    assert forall x :: x in orders ==> x.id != o.id;
    FilterAll(orders, NotId(o.id));
    SortSnoc(orders, o, ByTime);
    if app.Waiter? {
      assert forall x :: x in orders + [o] ==> ActiveIn(TABLE_SERVICE)(x);
      FilterAll(orders + [o], ActiveIn(TABLE_SERVICE));
    }
  }

  function OneOf(a: Order, b: Order): Order -> bool { (o: Order) => o == a || o == b }

  /** Two new orders that tie are listed in the order in which they come in, whatever else is listed. */
  lemma TwoArrive(app: App, orders: seq<Order>, known: map<string, Order>, a: Order, b: Order)
    requires Lists(orders, known, Statuses(app)) && (forall x :: x in orders ==> x.id != a.id && x.id != b.id)
    requires a.id != b.id && a.id != "" && b.id != "" && a.status in Statuses(app) && b.status in Statuses(app)
    requires a.createdAt == b.createdAt
    ensures Filter(Upsert(app, Upsert(app, orders, a), b), OneOf(a, b)) == [a, b]
  {
    hide Upsert, Insert, Filter;
    assert forall i :: 0 <= i < |orders| ==> orders[i] in orders;
    OneUpsert(app, orders, a);
    var one := Insert(orders, a, ByTime);
    SortedWithOneMore(orders, a);
    forall i | 0 <= i < |one|
      ensures one[i].id != b.id && one[i].id != "" && one[i].status in Statuses(app)
    {
      assert one[i] in multiset(one);
      assert one[i] in orders || one[i] == a;
    }
    hide Lists, Sorted;
    OneUpsert(app, one, b);
    ByTimeIsPreorder();
    FilterInsert(orders, a, ByTime, OneOf(a, b));
    FilterInsert(one, b, ByTime, OneOf(a, b));
    NoneOf(orders, a, b);
    TwoInserted(a, b);
  }

  lemma {:induction false} NoneOf(orders: seq<Order>, a: Order, b: Order)
    requires a !in orders && b !in orders
    ensures Filter(orders, OneOf(a, b)) == []
  {
    if orders != [] {
      assert orders == Front(orders) + [Last(orders)];
      NoneOf(Front(orders), a, b);
    }
  }

  lemma TwoInserted(a: Order, b: Order)
    requires a.createdAt == b.createdAt
    ensures Insert(Insert([], a, ByTime), b, ByTime) == [a, b]
  {
  }

  /** After a stream: both orders are paid and leave the list, then come back, first `a`, then `b`. */
  function Returning(events: seq<Event>, a: Order, b: Order): seq<Event> {
    events + [Upserted(a.(status := Paid)), Upserted(b.(status := Paid)), Upserted(a), Upserted(b)]
  }

  lemma ReplaySnoc(app: App, orders: seq<Order>, events: seq<Event>, e: Event)
    requires e.Upserted?
    ensures Replay(app, orders, events + [e]) == Receive(app, Replay(app, orders, events), e)
    ensures Latest(map[], events + [e]) ==
            if e.order.id == "" then Latest(map[], events) else Latest(map[], events)[e.order.id := e.order]
  {
    FrontLast(events, e);
  }

  lemma ReturningArrives(app: App, events: seq<Event>, a: Order, b: Order)
    requires Possible(app, events)
    requires a.id != b.id && a.id != "" && b.id != "" && a.status in Statuses(app) && b.status in Statuses(app)
    requires a.createdAt == b.createdAt
    ensures Possible(app, Returning(events, a, b))
    ensures Latest(map[], Returning(events, a, b)) == Latest(map[], events)[a.id := a][b.id := b]
    ensures Filter(Replay(app, [], Returning(events, a, b)), OneOf(a, b)) == [a, b]
  {
    hide Replay, Latest, Receive, Upsert, Filter;
    var e1, e2 := Upserted(a.(status := Paid)), Upserted(b.(status := Paid));
    var gone := events + [e1] + [e2];
    var one := gone + [Upserted(a)];
    assert Returning(events, a, b) == one + [Upserted(b)];
    ReplaySnoc(app, [], events, e1);
    ReplaySnoc(app, [], events + [e1], e2);
    ReplaySnoc(app, [], gone, Upserted(a));
    ReplaySnoc(app, [], one, Upserted(b));
    ListsLatest(app, [], map[], gone);
    var orders, known := Replay(app, [], gone), Latest(map[], gone);
    forall x | x in orders
      ensures x.id != a.id && x.id != b.id
    {
      assert Listed(x, known, Statuses(app));
    }
    hide Lists;
    TwoArrive(app, orders, known, a, b);
    UpsertedIs(app, orders, a, b);
  }

  lemma UpsertedIs(app: App, orders: seq<Order>, a: Order, b: Order)
    ensures Receive(app, Receive(app, orders, Upserted(a)), Upserted(b)) == Upsert(app, Upsert(app, orders, a), b)
  {
  }

  /** Two orders that tie can be listed either way round: after any stream, and for the same last snapshots. */
  lemma TiesDiverge(app: App, events: seq<Event>, a: Order, b: Order)
    requires Possible(app, events)
    requires a.id != b.id && a.id != "" && b.id != "" && a.status in Statuses(app) && b.status in Statuses(app)
    requires a.createdAt == b.createdAt
    ensures var (one, two) := (Returning(events, a, b), Returning(events, b, a));
            && Possible(app, one) && Possible(app, two)
            && Latest(map[], one) == Latest(map[], two) == Latest(map[], events)[a.id := a][b.id := b]
            && Filter(Replay(app, [], one), OneOf(a, b)) == [a, b]
            && Filter(Replay(app, [], two), OneOf(a, b)) == [b, a]
  {
    hide Replay, Latest, Filter, Returning;
    ReturningArrives(app, events, a, b);
    ReturningArrives(app, events, b, a);
    SameEither(Replay(app, [], Returning(events, b, a)), a, b);
    assert Latest(map[], events)[a.id := a][b.id := b] == Latest(map[], events)[b.id := b][a.id := a];
  }

  lemma {:induction false} SameEither(orders: seq<Order>, a: Order, b: Order)
    ensures Filter(orders, OneOf(a, b)) == Filter(orders, OneOf(b, a))
  {
    if orders != [] {
      SameEither(Front(orders), a, b);
    }
  }

  /** Whatever the application and the stream, the last snapshots determine the list. */
  ghost predicate OneList(app: App, events: seq<Event>) {
    forall app', events' ::
      Statuses(app') == Statuses(app) && Possible(app', events') && Latest(map[], events') == Latest(map[], events) ==>
        Replay(app', [], events') == Replay(app, [], events)
  }

  /** All streams with the same last snapshots end in one list, in all applications with the same active
      statuses, exactly when no two of the active snapshots tie. */
  lemma ConvergeIff(app: App, events: seq<Event>)
    requires Possible(app, events)
    ensures OneList(app, events) <==> DistinctTimes(Latest(map[], events), Statuses(app))
  {
    hide Replay, Latest;
    var known, active := Latest(map[], events), Statuses(app);
    if DistinctTimes(known, active) {
      forall app', events' | Statuses(app') == Statuses(app) && Possible(app', events') && Latest(map[], events') == known
        ensures Replay(app', [], events') == Replay(app, [], events)
      {
        Converge(app', app, events', events);
      }
    } else {
      var i, j :| i in known && j in known && known[i].status in active && known[j].status in active
                  && known[i].createdAt == known[j].createdAt && known[i] != known[j];
      LatestIds(events, i);
      LatestIds(events, j);
      var a, b := known[i], known[j];
      TiesDiverge(app, events, a, b);
      assert known[a.id := a][b.id := b] == known;
      var one, two := Returning(events, a, b), Returning(events, b, a);
      assert [a, b] != [b, a];
      assert Replay(app, [], one) != Replay(app, [], events) || Replay(app, [], two) != Replay(app, [], events);
    }
  }

  lemma {:induction false} LatestIds(events: seq<Event>, id: string)
    ensures id in Latest(map[], events) ==> id != "" && Latest(map[], events)[id].id == id
  {
    if events != [] {
      LatestIds(Front(events), id);
    }
  }

  /** On one and the same stream the guest application, which overwrites in place, and the others, which take
      out and append, differ when one of two orders that tie is updated. */
  lemma GuestKeepsPlace(a: Order, b: Order, update: Order)
    requires a.id != b.id && a.id != "" && b.id != "" && a.createdAt == b.createdAt
    requires update.id == a.id && update.createdAt == a.createdAt
    requires a.status in TABLE_SERVICE && b.status in TABLE_SERVICE && update.status in TABLE_SERVICE
    ensures var events := [Upserted(a), Upserted(b), Upserted(update)];
            && Replay(Guest, [], events) == [update, b]
            && Replay(Pos, [], events) == Replay(Waiter, [], events) == [b, update]
  {
    hide Upsert, Filter, StableSort, Insert;
    var events := [Upserted(a), Upserted(b), Upserted(update)];
    assert Front(events) == [Upserted(a), Upserted(b)];
    assert Front([Upserted(a), Upserted(b)]) == [Upserted(a)] && Front([Upserted(a)]) == [];
    forall app
      ensures app == Guest || app == Pos ==> Replay(app, [], [Upserted(a), Upserted(b)]) == [a, b]
    {
      if app == Guest || app == Pos {
        OneUpsert(app, [], a);
        InsertedBehind([], a);
        assert Replay(app, [], [Upserted(a)]) == [a];
        OneUpsert(app, [a], b);
        InsertedBehind([a], b);
      }
    }
    OverwrittenInPlace(a, b, update);
    TakenOutAndAppended(a, b, update);
    WaiterAgreesWithPos([], map[], events);
  }

  lemma InsertedBehind(orders: seq<Order>, o: Order)
    requires orders != [] ==> Last(orders).createdAt <= o.createdAt
    ensures Insert(orders, o, ByTime) == orders + [o]
  {
  }

  lemma OverwrittenInPlace(a: Order, b: Order, update: Order)
    requires a.id != b.id && a.id != "" && update.id == a.id && update.status in TABLE_SERVICE
    requires a.createdAt == b.createdAt == update.createdAt
    ensures Upsert(Guest, [a, b], update) == [update, b]
  {
    hide StableSort, IndexOf;
    assert [a, b][0].id == a.id;
    assert IndexOf([a, b], a.id) == Some(0);
    assert [a, b][0 := update] == [update, b];
    SortedIsFixed([update, b], ByTime);
  }

  lemma TakenOutAndAppended(a: Order, b: Order, update: Order)
    requires a.id != b.id && a.id != "" && update.id == a.id && update.status in TABLE_SERVICE
    requires a.createdAt == b.createdAt == update.createdAt
    ensures Upsert(Pos, [a, b], update) == [b, update]
  {
    hide StableSort;
    FilterSnoc([], a, NotId(a.id));
    FilterSnoc([a], b, NotId(a.id));
    assert [] + [a] == [a] && [a] + [b] == [a, b] && [b] + [update] == [b, update];
    assert Filter([a], NotId(a.id)) == Filter([], NotId(a.id)) == [];
    assert Filter([a, b], NotId(a.id)) == [b];
    SortedIsFixed([b, update], ByTime);
  }
}

/** The stores themselves: each replaces its list field from its own steps. */
module OrderStoreObjects {
  import opened Options
  import opened Orders
  import opened OrderStores
  import opened Sequences

  class GuestOrdersStore {
    var orders: seq<Order>

    constructor ()
      ensures orders == []
    {
      orders := [];
    }

    method UpsertOrder(order: Order)
      modifies this
      ensures orders == GuestUpsert(old(orders), order)
    {
      if order.id == "" {
        return;
      }
      var index := IndexOf(orders, order.id);
      var next := orders;
      if order.status == Paid || order.status == Cancelled {
        if index.None? {
          return;
        }
        next := next[..index.value] + next[index.value + 1..];
        orders := next;
        return;
      }
      if index.None? {
        next := next + [order];
      } else {
        next := next[index.value := order];
      }
      orders := StableSort(next, ByTime);
    }
  }

  class PosDataStore {
    var orders: seq<Order>
    var selectedOrderSnapshot: Option<Order>

    constructor ()
      ensures orders == [] && selectedOrderSnapshot == None
    {
      orders, selectedOrderSnapshot := [], None;
    }

    /** The selected snapshot is always one of the orders in the list. */
    ghost predicate SelectionListed()
      reads this
    {
      selectedOrderSnapshot.Some? ==> selectedOrderSnapshot.value in orders
    }

    method UpsertOrder(order: Order)
      modifies this
      ensures orders == FilterUpsert(old(orders), order, TABLE_SERVICE)
      ensures selectedOrderSnapshot ==
              if order.id == "" then old(selectedOrderSnapshot)
              else if order.status in TABLE_SERVICE then Some(order)
              else if old(selectedOrderSnapshot).Some? && old(selectedOrderSnapshot).value.id == order.id then None
              else old(selectedOrderSnapshot)
      ensures old(SelectionListed()) ==> SelectionListed()
    {
      if order.id == "" {
        return;
      }
      var without := Filter(orders, NotId(order.id));
      FilterMembers(orders, NotId(order.id));
      if order.status !in TABLE_SERVICE {
        orders := without;
        if selectedOrderSnapshot.Some? && selectedOrderSnapshot.value.id == order.id {
          selectedOrderSnapshot := None;
        }
        return;
      }
      SortPermutes(without + [order], ByTime);
      orders := StableSort(without + [order], ByTime);
      selectedOrderSnapshot := Some(order);
    }

    method RemoveOrder(orderId: string)
      modifies this
      ensures orders == Remove(old(orders), orderId)
      ensures selectedOrderSnapshot ==
              if old(selectedOrderSnapshot).Some? && old(selectedOrderSnapshot).value.id == orderId then None
              else old(selectedOrderSnapshot)
      ensures old(SelectionListed()) ==> SelectionListed()
    {
      FilterMembers(orders, NotId(orderId));
      orders := Filter(orders, NotId(orderId));
      if selectedOrderSnapshot.Some? && selectedOrderSnapshot.value.id == orderId {
        selectedOrderSnapshot := None;
      }
    }
  }

  class KitchenStore {
    var orders: seq<Order>

    constructor ()
      ensures orders == []
    {
      orders := [];
    }

    method UpsertOrder(order: Order)
      modifies this
      ensures orders == FilterUpsert(old(orders), order, KITCHEN_SERVICE)
    {
      if order.id == "" {
        return;
      }
      var without := Filter(orders, NotId(order.id));
      if order.status !in KITCHEN_SERVICE {
        orders := without;
        return;
      }
      var next := StableSort(without + [order], ByTime);
      orders := next;
    }

    method RemoveOrder(orderId: string)
      modifies this
      ensures orders == Remove(old(orders), orderId)
    {
      orders := Filter(orders, NotId(orderId));
    }
  }
}
