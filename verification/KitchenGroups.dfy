/**
 The kitchen screen's grouping, apps/kitchen-app/src/lib/group-orders-by-table.ts: orders by table,
 takeaway orders together, each group by time, the groups by three keys.
 */
module KitchenGroups {
  import opened Grouping
  import opened Options
  import opened Orders
  import opened OrderStores
  import opened Sequences

  datatype Title = DeliveryTitle | TakeawayTitle | TableTitle(number: int)
  datatype Group = Group(tableId: string, tableNumber: int, title: Title, isExternal: bool, orders: seq<Order>)

  const EXTERNAL_ORDER_GROUP_ID: string := "external-orders"

  predicate IsWalkIn(o: Order) { o.orderType == Some(Takeaway) }

  function NumberOf(o: Order): int { if o.tableNumber.Some? then o.tableNumber.value else 0 }

  function TitleOf(o: Order): Title {
    if o.orderType == Some(Delivery) then DeliveryTitle
    else if IsWalkIn(o) then TakeawayTitle
    else TableTitle(NumberOf(o))
  }

  const GroupId: Order -> string := (o: Order) =>
    if IsWalkIn(o) then EXTERNAL_ORDER_GROUP_ID else if o.tableId.Some? then o.tableId.value else "unknown"

  /** The group of the orders with one id: its first order gives the heading. */
  const GroupOf: seq<Order> -> Group := (orders: seq<Order>) =>
    if orders == [] then Group("", 0, TableTitle(0), false, [])
    else
      var o := orders[0];
      Group(GroupId(o), if IsWalkIn(o) then 0 else NumberOf(o), TitleOf(o), IsWalkIn(o), orders)

  function FirstTime(g: Group): int { if g.orders == [] then 0 else g.orders[0].createdAt }

  /** First time, then external before table, then table number. */
  predicate NotAfter(a: Group, b: Group) {
    FirstTime(a) < FirstTime(b)
    || (FirstTime(a) == FirstTime(b)
        && ((a.isExternal && !b.isExternal) || (a.isExternal == b.isExternal && a.tableNumber <= b.tableNumber)))
  }

  const ByFirstOrder: (Group, Group) -> bool := (a: Group, b: Group) => NotAfter(a, b)

  /** The groups before sorting, from the members of each key. */
  function Collected(orders: seq<Order>): seq<Group> {
    var keys := Keys(orders, GroupId);
    seq(|keys|, i requires 0 <= i < |keys| => GroupOf(Members(orders, GroupId, keys[i])))
  }

  function WithSortedOrders(g: Group): Group { g.(orders := StableSort(g.orders, ByTime)) }

  function SortedInside(groups: seq<Group>): seq<Group> {
    seq(|groups|, i requires 0 <= i < |groups| => WithSortedOrders(groups[i]))
  }

  function GroupsByTable(orders: seq<Order>): seq<Group> {
    StableSort(SortedInside(Collected(orders)), ByFirstOrder)
  }

  method GroupOrdersByTable(orders: seq<Order>) returns (result: seq<Group>)
    ensures result == GroupsByTable(orders)
  {
    hide StableSort, SortedInside, Collected, Built, Members, Keys;
    var keys: seq<string>, groups: map<string, Group> := [], map[];
    BuiltFromNothing();
    assert orders[..0] == [];
    for i := 0 to |orders|
      invariant Built(orders[..i], GroupId, GroupOf, keys, groups)
    {
      var order := orders[i];
      var external := IsWalkIn(order);
      var groupId := if external then EXTERNAL_ORDER_GROUP_ID else if order.tableId.Some? then order.tableId.value else "unknown";
      assert orders[..i + 1] == orders[..i] + [order];
      NextMembers(orders[..i], order, GroupId, GroupOf, keys, groups);
      ghost var before := Members(orders[..i], GroupId, groupId);
      if groupId in groups {
        var existing := groups[groupId];
        existing := existing.(orders := existing.orders + [order]);
        BuiltStep(orders[..i], order, GroupId, GroupOf, keys, groups, existing);
        groups := groups[groupId := existing];
        continue;
      }
      assert before + [order] == [order];
      var newGroup := Group(groupId, if external then 0 else NumberOf(order), TitleOf(order), external, [order]);
      BuiltStep(orders[..i], order, GroupId, GroupOf, keys, groups, newGroup);
      groups := groups[groupId := newGroup];
      keys := keys + [groupId];
    }
    assert orders[..|orders|] == orders;
    BuiltCollected(orders, keys, groups);
    var values := seq(|keys|, i requires 0 <= i < |keys| && keys[i] in groups => groups[keys[i]]);
    assert values == Collected(orders);
    result := StableSort(SortedInside(values), ByFirstOrder);
  }

  lemma BuiltFromNothing()
    ensures Built([], GroupId, GroupOf, [], map[])
  {
  }

  /** What the loop has built, in the order of its keys. */
  lemma BuiltCollected(orders: seq<Order>, keys: seq<string>, groups: map<string, Group>)
    requires Built(orders, GroupId, GroupOf, keys, groups)
    ensures |Collected(orders)| == |keys|
    ensures forall i :: 0 <= i < |keys| ==> keys[i] in groups && groups[keys[i]] == Collected(orders)[i]
  {
    hide Keys, Members;
  }

  // ---------- The screen shows every order once, where it belongs ----------

  const OrdersOf: Group -> seq<Order> := (g: Group) => g.orders

  /** The group has the heading that an order calls for. */
  predicate Heads(o: Order, g: Group) {
    && g.tableId == GroupId(o) && g.title == TitleOf(o) && g.isExternal == IsWalkIn(o)
    && g.tableNumber == (if IsWalkIn(o) then 0 else NumberOf(o))
  }

  /** A group as it should be: not empty, oldest first, holding all the orders of its id, headed by the
      one that comes first in the input, and external only under the external id. */
  ghost predicate Fits(g: Group, orders: seq<Order>) {
    && (exists n :: 0 <= n < |orders| && Heads(orders[n], g) && forall k :: 0 <= k < n ==> GroupId(orders[k]) != g.tableId)
    && g.orders != [] && Sorted(g.orders, ByTime)
    && (forall o :: o in g.orders <==> o in orders && GroupId(o) == g.tableId)
    && (g.isExternal ==> g.tableId == EXTERNAL_ORDER_GROUP_ID)
  }

  lemma ByFirstOrderIsPreorder()
    ensures TotalPreorder(ByFirstOrder)
  {
  }

  /** Where the first member of a group stands in the input. */
  lemma {:induction false} FirstMember(orders: seq<Order>, k: string) returns (n: nat)
    requires Members(orders, GroupId, k) != []
    ensures n < |orders| && orders[n] == Members(orders, GroupId, k)[0] && GroupId(orders[n]) == k
    ensures forall j :: 0 <= j < n ==> GroupId(orders[j]) != k
  {
    var front := Front(orders);
    if Members(front, GroupId, k) != [] {
      n := FirstMember(front, k);
      assert forall j :: 0 <= j <= n ==> orders[j] == front[j];
    } else {
      n := |orders| - 1;
      FilterMembers(front, Having(GroupId, k));
      assert forall j :: 0 <= j < n ==> orders[j] in front;
    }
  }

  lemma CollectedFits(orders: seq<Order>, i: nat)
    requires i < |Collected(orders)|
    ensures Fits(SortedInside(Collected(orders))[i], orders)
    ensures SortedInside(Collected(orders))[i].tableId == Keys(orders, GroupId)[i]
  {
    var k := Keys(orders, GroupId)[i];
    KeysComplete(orders, GroupId);
    assert k in Keys(orders, GroupId);
    var members := Members(orders, GroupId, k);
    FilterMembers(orders, Having(GroupId, k));
    assert members[0] in members;
    var n := FirstMember(orders, k);
    assert Heads(orders[n], SortedInside(Collected(orders))[i]);
    ByTimeIsPreorder();
    SortSorts(members, ByTime);
    SortPermutes(members, ByTime);
  }

  lemma CollectedAlike(orders: seq<Order>)
    ensures multiset(FlatMap(Collected(orders), OrdersOf)) == multiset(FlatMap(Keys(orders, GroupId), MembersOf(orders, GroupId)))
  {
    FlatMapAlike(Collected(orders), OrdersOf, Keys(orders, GroupId), MembersOf(orders, GroupId));
  }

  /** The groups on the screen, for every list of orders: together they hold each order exactly as often
      as the list does, each fits, and they are ordered by the three keys. */
  lemma ScreenShowsEveryOrder(orders: seq<Order>)
    ensures var groups := GroupsByTable(orders);
            && multiset(FlatMap(groups, OrdersOf)) == multiset(orders)
            && (forall g :: g in groups ==> Fits(g, orders))
            && (forall i, j :: 0 <= i < j < |groups| ==> NotAfter(groups[i], groups[j]))
  {
    hide Fits, NotAfter, Collected;
    var collected, inside, groups := Collected(orders), SortedInside(Collected(orders)), GroupsByTable(orders);
    CollectedAlike(orders);
    GroupingPermutes(orders, GroupId);
    forall i | 0 <= i < |inside|
      ensures multiset(OrdersOf(inside[i])) == multiset(OrdersOf(collected[i])) && Fits(inside[i], orders)
    {
      SortPermutes(collected[i].orders, ByTime);
      CollectedFits(orders, i);
    }
    FlatMapAlike(inside, OrdersOf, collected, OrdersOf);
    SortPermutes(inside, ByFirstOrder);
    FlatMapPermute(groups, inside, OrdersOf);
    ByFirstOrderIsPreorder();
    SortSorts(inside, ByFirstOrder);
    forall i, j | 0 <= i < j < |groups|
      ensures NotAfter(groups[i], groups[j])
    {
      assert ByFirstOrder(groups[i], groups[j]);
    }
  }

  predicate Takes(o: Order) { o.orderType.Some? && o.orderType.value == Takeaway }

  /** Neither is a takeaway order and both are at one table, or at none; a table called `unknown` counts as none. */
  predicate OneTable(a: Order, b: Order) {
    && !Takes(a) && !Takes(b)
    && (a.tableId == b.tableId || (a.tableId.None? && b.tableId == Some("unknown")) || (b.tableId.None? && a.tableId == Some("unknown")))
  }

  /** One is at a table whose id is that of the takeaway group. */
  predicate PosesAsTakeaway(a: Order, b: Order) { !Takes(a) && Takes(b) && a.tableId == Some("external-orders") }

  lemma SameIdIff(a: Order, b: Order)
    ensures GroupId(a) == GroupId(b) <==>
              (Takes(a) && Takes(b)) || OneTable(a, b) || PosesAsTakeaway(a, b) || PosesAsTakeaway(b, a)
  {
    assert "unknown"[0] != "external-orders"[0];
  }

  /** Two orders are in one group exactly if both are takeaway, or neither is and they are at one table; or a
      table has the id of the takeaway group. */
  lemma SameGroupIff(orders: seq<Order>, a: Order, b: Order)
    requires a in orders && b in orders
    ensures (exists g :: g in GroupsByTable(orders) && a in g.orders && b in g.orders) <==>
              (Takes(a) && Takes(b)) || OneTable(a, b) || PosesAsTakeaway(a, b) || PosesAsTakeaway(b, a)
  {
    SameIdIff(a, b);
    hide Takes, OneTable, PosesAsTakeaway;
    ScreenShowsEveryOrder(orders);
    var g := GroupOfOrder(orders, a);
    hide GroupsByTable;
    assert Fits(g, orders);
    forall h | h in GroupsByTable(orders) && a in h.orders && b in h.orders
      ensures GroupId(a) == GroupId(b)
    {
      assert Fits(h, orders);
    }
  }

  lemma GroupOfOrder(orders: seq<Order>, o: Order) returns (g: Group)
    requires o in orders
    ensures g in GroupsByTable(orders) && o in g.orders
  {
    hide Filter, StableSort;
    KeysComplete(orders, GroupId);
    FilterMembers(orders, Having(GroupId, GroupId(o)));
    assert o in Members(orders, GroupId, GroupId(o));
    var inside := SortedInside(Collected(orders));
    var i :| 0 <= i < |Keys(orders, GroupId)| && Keys(orders, GroupId)[i] == GroupId(o);
    CollectedFits(orders, i);
    SortPermutes(inside, ByFirstOrder);
    g := inside[i];
    assert g in inside;
    assert g in multiset(GroupsByTable(orders));
  }

  /** A group is headed by the first of its orders to come in: external for a takeaway order, and named after its
      kind, or after the table's number, 0 if there is none. */
  lemma GroupHeading(orders: seq<Order>, g: Group) returns (n: nat)
    requires g in GroupsByTable(orders)
    ensures n < |orders| && orders[n] in g.orders && forall k :: 0 <= k < n ==> orders[k] !in g.orders
    ensures g.isExternal <==> Takes(orders[n])
    ensures g.tableNumber == (if !Takes(orders[n]) && orders[n].tableNumber.Some? then orders[n].tableNumber.value else 0)
    ensures g.title == DeliveryTitle <==> orders[n].orderType == Some(Delivery)
    ensures g.title == TakeawayTitle <==> Takes(orders[n])
    ensures g.title.TableTitle? ==> g.title.number == if orders[n].tableNumber.Some? then orders[n].tableNumber.value else 0
  {
    ScreenShowsEveryOrder(orders);
    hide GroupsByTable;
    assert Fits(g, orders);
    n :| 0 <= n < |orders| && Heads(orders[n], g) && forall k :: 0 <= k < n ==> GroupId(orders[k]) != g.tableId;
  }

  /** The groups come in the order of their oldest orders; of those that start together the external one first, and
      then by table number. */
  lemma ScreenInOrder(orders: seq<Order>, i: nat, j: nat)
    requires i < j < |GroupsByTable(orders)|
    ensures var (a, b) := (GroupsByTable(orders)[i], GroupsByTable(orders)[j]);
            && a.orders != [] && b.orders != [] && a.orders[0].createdAt <= b.orders[0].createdAt
            && (a.orders[0].createdAt == b.orders[0].createdAt ==>
                  && (b.isExternal ==> a.isExternal)
                  && (a.isExternal == b.isExternal ==> a.tableNumber <= b.tableNumber))
  {
    ScreenShowsEveryOrder(orders);
    hide GroupsByTable;
    var a, b := GroupsByTable(orders)[i], GroupsByTable(orders)[j];
    assert a in GroupsByTable(orders) && b in GroupsByTable(orders);
    assert Fits(a, orders) && Fits(b, orders) && NotAfter(a, b);
  }

  function At(time: int): Order -> bool { (o: Order) => o.createdAt == time }

  function InGroupAt(groupId: string, time: int): Order -> bool {
    (o: Order) => GroupId(o) == groupId && o.createdAt == time
  }

  /** Orders of one group that tie are shown in the order in which they came in. */
  lemma TiesKeepInputOrder(orders: seq<Order>, g: Group, time: int)
    requires g in GroupsByTable(orders)
    ensures Filter(g.orders, At(time)) == Filter(orders, InGroupAt(g.tableId, time))
  {
    hide StableSort, Filter;
    var inside := SortedInside(Collected(orders));
    SortPermutes(inside, ByFirstOrder);
    assert g in multiset(GroupsByTable(orders));
    var i :| 0 <= i < |inside| && inside[i] == g;
    var k := Keys(orders, GroupId)[i];
    CollectedFits(orders, i);
    KeysComplete(orders, GroupId);
    assert k in Keys(orders, GroupId);
    ByTimeIsPreorder();
    SortIsStable(Members(orders, GroupId, k), ByTime, At(time));
    FilterTwice(orders, Having(GroupId, k), At(time), InGroupAt(k, time));
  }

  /** No two groups have the same id; so at most one is external. */
  lemma IdsDistinct(orders: seq<Order>, i: nat, j: nat)
    requires i < j < |GroupsByTable(orders)|
    ensures GroupsByTable(orders)[i].tableId != GroupsByTable(orders)[j].tableId
    ensures !(GroupsByTable(orders)[i].isExternal && GroupsByTable(orders)[j].isExternal)
  {
    hide Collected, SortedInside, StableSort;
    var inside, groups := SortedInside(Collected(orders)), GroupsByTable(orders);
    SortPermutes(inside, ByFirstOrder);
    InsideDistinct(orders);
    ScreenShowsEveryOrder(orders);
    var a, b := groups[i], groups[j];
    assert a in groups && b in groups;
    if a.tableId == b.tableId {
      assert a in inside && b in inside;
      CountTwo(groups, i, j);
      DistinctCounts(inside, a);
    } else {
      assert Fits(a, orders) && Fits(b, orders);
    }
  }

  lemma InsideDistinct(orders: seq<Order>)
    ensures var inside := SortedInside(Collected(orders));
            forall i, j :: 0 <= i < j < |inside| ==> inside[i].tableId != inside[j].tableId
  {
    KeysComplete(orders, GroupId);
    var inside, keys := SortedInside(Collected(orders)), Keys(orders, GroupId);
    forall n | 0 <= n < |inside|
      ensures inside[n].tableId == keys[n]
    {
      CollectedFits(orders, n);
    }
  }

  lemma {:induction false} DistinctCounts(groups: seq<Group>, g: Group)
    requires forall i, j :: 0 <= i < j < |groups| ==> groups[i].tableId != groups[j].tableId
    ensures multiset(groups)[g] <= 1
  {
    if groups != [] {
      assert groups == Front(groups) + [Last(groups)];
      SnocMultiset(Front(groups), Last(groups));
      if g == Last(groups) {
        assert g !in Front(groups);
      } else {
        DistinctCounts(Front(groups), g);
      }
    }
  }
}
