/**
 The `version` that the server counts up with every change of an order, which the four client stores do not
 look at: the last snapshot to arrive wins, whatever its version.
 */
module OrderVersions {
  import opened Options
  import opened Orders
  import opened OrderStores
  import opened Sequences

  /** The snapshots of order `id` received since it was last removed. */
  function Received(events: seq<Event>, id: string): seq<Order> {
    if events == [] then []
    else
      var earlier := Received(Front(events), id);
      match Last(events)
      case Upserted(o) => if o.id == id then earlier + [o] else earlier
      case Removed(gone) => if gone == id then [] else earlier
  }

  /** What a store that respects versions would know: a snapshot older than the known one is ignored. */
  function Newest(events: seq<Event>): map<string, Order> {
    if events == [] then map[]
    else
      var known := Newest(Front(events));
      match Last(events)
      case Upserted(o) =>
        if o.id == "" || (o.id in known && known[o.id].version > o.version) then known else known[o.id := o]
      case Removed(id) => known - {id}
  }

  /** The last snapshot received of the order carries the greatest version of all. */
  ghost predicate LastIsNewest(events: seq<Event>, id: string) {
    var received := Received(events, id);
    forall i :: 0 <= i < |received| ==> received[i].version <= Last(received).version
  }

  /** The known snapshot is the last received one of the greatest version. */
  lemma {:induction false} NewestIsGreatest(events: seq<Event>, id: string)
    requires id != ""
    ensures id in Newest(events) <==> Received(events, id) != []
    ensures id in Newest(events) ==>
      && Newest(events)[id] in Received(events, id) && Newest(events)[id].id == id
      && forall o :: o in Received(events, id) ==> o.version <= Newest(events)[id].version
  {
    if events != [] {
      NewestIsGreatest(Front(events), id);
    }
  }

  lemma {:induction false} LatestIsLast(events: seq<Event>, id: string)
    requires id != ""
    ensures id in Latest(map[], events) <==> Received(events, id) != []
    ensures id in Latest(map[], events) ==>
      Latest(map[], events)[id] == Last(Received(events, id)) && Latest(map[], events)[id].id == id
  {
    if events != [] {
      LatestIsLast(Front(events), id);
    }
  }

  /** When the last snapshot is of the greatest version, the two agree on it. */
  lemma {:induction false} NewestIsLatestIff(events: seq<Event>, id: string)
    requires id != "" && Received(events, id) != []
    ensures id in Newest(events) && id in Latest(map[], events)
    ensures Newest(events)[id] == Latest(map[], events)[id] <==> LastIsNewest(events, id)
  {
    NewestIsGreatest(events, id);
    LatestIsLast(events, id);
    var received := Received(events, id);
    assert Last(received) in received;
    if Newest(events)[id] == Last(received) {
      assert forall i :: 0 <= i < |received| ==> received[i] in received;
    }
    if LastIsNewest(events, id) {
      NewestTakesLast(events, id);
    }
  }

  lemma {:induction false} NewestTakesLast(events: seq<Event>, id: string)
    requires id != "" && Received(events, id) != [] && LastIsNewest(events, id)
    ensures id in Newest(events) && Newest(events)[id] == Last(Received(events, id))
  {
    var front, received := Front(events), Received(events, id);
    NewestIsGreatest(front, id);
    match Last(events)
    case Removed(gone) => NewestTakesLast(front, id);
    case Upserted(o) =>
      if o.id == id {
        var earlier := Received(front, id);
        FrontLast(earlier, o);
        if id in Newest(front) {
          var i :| 0 <= i < |earlier| && earlier[i] == Newest(front)[id];
          assert received[i] == earlier[i];
        }
      } else {
        NewestTakesLast(front, id);
      }
  }

  /** Neither the last snapshot of the order nor the newest one is active for the application. */
  ghost predicate OutOfView(events: seq<Event>, id: string, active: set<OrderStatus>) {
    && (id in Latest(map[], events) ==> Latest(map[], events)[id].status !in active)
    && (id in Newest(events) ==> Newest(events)[id].status !in active)
  }

  /** Over every stream: an application lists the newest version received of every order that is active in it
      exactly if of each order the last snapshot carries the greatest version, or neither is active. */
  lemma ListsNewestIff(app: App, events: seq<Event>)
    requires Possible(app, events)
    ensures Lists(Replay(app, [], events), Newest(events), Statuses(app)) <==>
              forall id :: id != "" ==> LastIsNewest(events, id) || OutOfView(events, id, Statuses(app))
  {
    hide Replay, Newest, Latest, Received, LastIsNewest;
    var orders, newest, latest, active := Replay(app, [], events), Newest(events), Latest(map[], events), Statuses(app);
    ListsLatest(app, [], map[], events);
    forall id | id != ""
      ensures LastIsNewest(events, id) || OutOfView(events, id, active) <==> SameInView(newest, latest, id, active)
    {
      SameInViewIff(events, id, active);
    }
    ListsIff(orders, newest, latest, active);
  }

  /** The two maps put the same snapshot of the order on the list, or none. */
  ghost predicate SameInView(newest: map<string, Order>, latest: map<string, Order>, id: string, active: set<OrderStatus>) {
    InView(newest, id, active) == InView(latest, id, active)
  }

  function InView(known: map<string, Order>, id: string, active: set<OrderStatus>): Option<Order> {
    if id in known && known[id].id == id && known[id].status in active then Some(known[id]) else None
  }

  lemma SameInViewIff(events: seq<Event>, id: string, active: set<OrderStatus>)
    requires id != ""
    ensures LastIsNewest(events, id) || OutOfView(events, id, active) <==>
            SameInView(Newest(events), Latest(map[], events), id, active)
  {
    hide Newest, Latest;
    NewestIsGreatest(events, id);
    LatestIsLast(events, id);
    if Received(events, id) != [] {
      hide Received, LastIsNewest;
      NewestIsLatestIff(events, id);
    }
  }

  lemma ListsIff(orders: seq<Order>, newest: map<string, Order>, latest: map<string, Order>, active: set<OrderStatus>)
    requires Lists(orders, latest, active)
    ensures Lists(orders, newest, active) <==> forall id :: id != "" ==> SameInView(newest, latest, id, active)
  {
    if Lists(orders, newest, active) {
      forall id | id != ""
        ensures SameInView(newest, latest, id, active)
      {
        var a, b := InView(newest, id, active), InView(latest, id, active);
        assert a.Some? ==> a.value in orders;
        assert b.Some? ==> b.value in orders;
      }
    }
    if forall id :: id != "" ==> SameInView(newest, latest, id, active) {
      forall o
        ensures o in orders <==> o.id in newest && newest[o.id] == o && o.id != "" && o.status in active
      {
        assert o.id != "" ==> SameInView(newest, latest, o.id, active);
      }
    }
  }

  /** Two snapshots of one active order that arrive the wrong way round: every application lists the older one. */
  lemma OlderWins(app: App, older: Order, newer: Order)
    requires older.id == newer.id != "" && older.version < newer.version
    requires older.status in Statuses(app) && newer.status in Statuses(app)
    ensures var events := [Upserted(newer), Upserted(older)];
            && Newest(events) == map[newer.id := newer]
            && older in Replay(app, [], events) && newer !in Replay(app, [], events)
            && !Lists(Replay(app, [], events), Newest(events), Statuses(app))
  {
    var events := [Upserted(newer), Upserted(older)];
    assert Front(events) == [Upserted(newer)] && Front([Upserted(newer)]) == [];
    assert Newest([Upserted(newer)]) == map[newer.id := newer];
    assert Latest(map[], [Upserted(newer)]) == map[newer.id := newer];
    assert Latest(map[], events) == map[newer.id := older];
    hide Replay;
    ListsLatest(app, [], map[], events);
  }
}
